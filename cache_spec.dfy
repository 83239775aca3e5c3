/** What one call of each read-through strategy does, as a function of the
    string keys before the call, the loader's answer and the clock. The
    methods of `RedisClient` and `ShopServiceImpl` are proved to have exactly
    these effects; the lemmas below state what the strategies promise. */
module CacheSpec {
  import opened Common
  import opened Text
  import opened Json
  import opened Store
  import opened Database

  /** `com.hmdp.entity.RedisData`: a payload and its logical expiry, in
      seconds on the model's clock. */
  datatype RedisData<T> = RedisData(expireTime: int, data: T)

  /** One call of a strategy: what it returns, the string keys afterwards,
      and whether it called its loader. */
  datatype Step<R> = Step(result: R, store: map<string, Entry>, loaded: bool)

  /** The mutex entry `tryLock` writes: "1" with a TTL of `lockTtl` seconds. */
  function LockEntry(lockTtl: int): Entry
  {
    Entry("1", Some(Ttl(lockTtl, Seconds)))
  }

  /** What a reader makes of a cached string: a blank string is the
      negative-cache marker ("known not to exist"), anything else a bean. */
  function Cached<T>(codec: Codec<T>, s: string): Option<T>
  {
    if IsBlank(s) then None else Some(codec.decode(s))
  }

  /** The logical-expiry envelope under `key`, or null when the key is
      absent or blank. */
  function Envelope<T>(S: map<string, Entry>, key: string, envCodec: Codec<RedisData<T>>): Option<RedisData<T>>
  {
    if key in S && !IsBlank(S[key].value) then Some(envCodec.decode(S[key].value)) else None
  }

  /** Cache aside with a negative cache: a hit (even of the blank marker) is
      served without the loader; a miss loads once and writes the bean with
      `ttl`, or the blank marker with `nullTtl`; a loader exception writes
      nothing. */
  function PassThrough<T>(S: map<string, Entry>, key: string, codec: Codec<T>, fetch: Fetch<T>,
                          ttl: Ttl, nullTtl: Ttl): Step<Outcome<Option<T>>>
  {
    if key in S then Step(Return(Cached(codec, S[key].value)), S, false)
    else match fetch
      case Found(v) => Step(Return(Some(v)), S[key := Entry(codec.encode(v), Some(ttl))], true)
      case Missing => Step(Return(None), S[key := Entry("", Some(nullTtl))], true)
      case Failed => Step(Throw, S, true)
  }

  /** The mutex strategy: like `PassThrough`, but a miss first takes the lock
      with set-if-absent; while someone else holds it nothing is loaded or
      written (the caller waits), and a lock it took is deleted on every exit. */
  function Mutex<T>(S: map<string, Entry>, key: string, lockKey: string, lockTtl: int, codec: Codec<T>,
                    fetch: Fetch<T>, ttl: Ttl, nullTtl: Ttl): Step<Outcome<Option<T>>>
  {
    if key in S then Step(Return(Cached(codec, S[key].value)), S, false)
    else if lockKey in S then Step(StillWaiting, S, false)
    else
      var locked := S[lockKey := LockEntry(lockTtl)];
      match fetch
      case Found(v) => Step(Return(Some(v)), locked[key := Entry(codec.encode(v), Some(ttl))] - {lockKey}, true)
      case Missing => Step(Return(None), locked[key := Entry("", Some(nullTtl))] - {lockKey}, true)
      case Failed => Step(Throw, locked - {lockKey}, true)
  }

  /** The background rebuild of a logically expired entry: skipped when the
      lock is taken; under the lock the entry is read again and left alone if
      it is not yet expired; otherwise the loader's bean is wrapped with a new
      expiry `now + ttlSeconds` (no store TTL), and a null or failed load
      deletes the key. A missing or blank entry makes the expiry check throw.
      The lock is released on every exit. */
  function Refresh<T>(S: map<string, Entry>, key: string, lockKey: string, lockTtl: int,
                      envCodec: Codec<RedisData<T>>, fetch: Fetch<T>, now: int, ttlSeconds: int): Step<Outcome<()>>
  {
    if lockKey in S then Step(Return(()), S, false)
    else
      var locked := S[lockKey := LockEntry(lockTtl)];
      match Envelope(locked, key, envCodec)
      case None => Step(Throw, locked - {lockKey}, false)
      case Some(env) =>
        if now < env.expireTime then Step(Return(()), locked - {lockKey}, false)
        else match fetch
          case Found(v) =>
            Step(Return(()), locked[key := Entry(envCodec.encode(RedisData(now + ttlSeconds, v)), None)] - {lockKey}, true)
          case _ => Step(Return(()), locked - {key} - {lockKey}, true)
  }

  /** The logical-expiry strategy: no envelope gives null without loading;
      otherwise the (possibly stale) payload is returned, and a refresh runs
      only when `now` is strictly after the envelope's expiry. */
  function LogicalExpire<T>(S: map<string, Entry>, key: string, lockKey: string, lockTtl: int,
                            envCodec: Codec<RedisData<T>>, fetch: Fetch<T>, now: int, ttlSeconds: int): Step<Option<T>>
  {
    match Envelope(S, key, envCodec)
    case None => Step(None, S, false)
    case Some(env) =>
      if now > env.expireTime then
        var refresh := Refresh(S, key, lockKey, lockTtl, envCodec, fetch, now, ttlSeconds);
        Step(Some(env.data), refresh.store, refresh.loaded)
      else Step(Some(env.data), S, false)
  }

  // ---------------------------------------------------------------------
  // Reading back what was written

  /** A bean written by the cache reads back as that bean. */
  lemma CachedEncode<T(!new)>(codec: Codec<T>, x: T)
    requires Lawful(codec)
    ensures Cached(codec, codec.encode(x)) == Some(x)
  {
  }

  // ---------------------------------------------------------------------
  // Pass-through

  /** The loader runs exactly on a miss, and a call writes at most `key`. */
  lemma PassThroughFrame<T>(S: map<string, Entry>, key: string, codec: Codec<T>, fetch: Fetch<T>, ttl: Ttl, nullTtl: Ttl)
    ensures var step := PassThrough(S, key, codec, fetch, ttl, nullTtl);
            && (step.loaded <==> key !in S)
            && (key in S ==> step.store == S && step.result == Return(Cached(codec, S[key].value)))
            && step.store - {key} == S - {key}
  {
    var step := PassThrough(S, key, codec, fetch, ttl, nullTtl);
    assert step.store - {key} == S - {key};
  }

  /** After a miss whose loader found `v`, the next call is a hit that
      returns `v` without loading and without writing. */
  lemma {:induction false} PassThroughFillThenHit<T(!new)>(S: map<string, Entry>, key: string, codec: Codec<T>,
                                                           v: T, ttl: Ttl, nullTtl: Ttl, later: Fetch<T>)
    requires Lawful(codec) && key !in S
    ensures var filled := PassThrough(S, key, codec, Found(v), ttl, nullTtl).store;
            && filled[key] == Entry(codec.encode(v), Some(ttl))
            && PassThrough(filled, key, codec, later, ttl, nullTtl) == Step(Return(Some(v)), filled, false)
  {
    CachedEncode(codec, v);
  }

  /** After a miss whose loader found nothing, the next call is answered
      null from the negative cache, without reaching the loader. */
  lemma PassThroughNegativeThenHit<T>(S: map<string, Entry>, key: string, codec: Codec<T>,
                                      ttl: Ttl, nullTtl: Ttl, later: Fetch<T>)
    requires key !in S
    ensures var marked := PassThrough(S, key, codec, Missing, ttl, nullTtl).store;
            && marked[key] == Entry("", Some(nullTtl))
            && PassThrough(marked, key, codec, later, ttl, nullTtl) == Step(Return(None), marked, false)
  {
  }

  // ---------------------------------------------------------------------
  // Mutex

  /** The lock is released iff this call acquired it; a lock held by someone
      else is neither deleted nor altered. */
  lemma MutexReleasesOnlyItsLock<T>(S: map<string, Entry>, key: string, lockKey: string, lockTtl: int,
                                    codec: Codec<T>, fetch: Fetch<T>, ttl: Ttl, nullTtl: Ttl)
    ensures var step := Mutex(S, key, lockKey, lockTtl, codec, fetch, ttl, nullTtl);
            && (lockKey in step.store <==> lockKey in S)
            && (lockKey in S ==> step.store[lockKey] == S[lockKey])
  {
  }

  /** The loader is called at most once, and only on a miss after the lock
      was acquired; a hit and a lost lock race change nothing. */
  lemma MutexLoadsOnlyUnderLock<T>(S: map<string, Entry>, key: string, lockKey: string, lockTtl: int,
                                   codec: Codec<T>, fetch: Fetch<T>, ttl: Ttl, nullTtl: Ttl)
    ensures var step := Mutex(S, key, lockKey, lockTtl, codec, fetch, ttl, nullTtl);
            && (step.loaded <==> key !in S && lockKey !in S)
            && (!step.loaded ==> step.store == S)
            && (key !in S && lockKey in S ==> step.result == StillWaiting)
  {
  }

  /** With the lock free, the mutex strategy answers and writes exactly what
      pass-through does: the lock adds serialisation and leaves no trace. */
  lemma MutexIsGuardedPassThrough<T>(S: map<string, Entry>, key: string, lockKey: string, lockTtl: int,
                                     codec: Codec<T>, fetch: Fetch<T>, ttl: Ttl, nullTtl: Ttl)
    requires key != lockKey && lockKey !in S
    ensures Mutex(S, key, lockKey, lockTtl, codec, fetch, ttl, nullTtl) == PassThrough(S, key, codec, fetch, ttl, nullTtl)
  {
    if key !in S {
      var locked := S[lockKey := LockEntry(lockTtl)];
      match fetch
      case Found(v) =>
        assert locked[key := Entry(codec.encode(v), Some(ttl))] - {lockKey} == S[key := Entry(codec.encode(v), Some(ttl))];
      case Missing =>
        assert locked[key := Entry("", Some(nullTtl))] - {lockKey} == S[key := Entry("", Some(nullTtl))];
      case Failed =>
        assert locked - {lockKey} == S;
    }
  }

  /** Two successive calls on a cold key with the lock free: when the first
      load does not raise, it fills the cache and releases the lock, and the
      second call is a hit with the same answer. A load that raises writes
      nothing and only releases the lock, so the second call loads again. */
  lemma MutexLoadsOnce<T(!new)>(S: map<string, Entry>, key: string, lockKey: string, lockTtl: int,
                                codec: Codec<T>, fetch: Fetch<T>, later: Fetch<T>, ttl: Ttl, nullTtl: Ttl)
    requires Lawful(codec) && key != lockKey && key !in S && lockKey !in S
    ensures var first := Mutex(S, key, lockKey, lockTtl, codec, fetch, ttl, nullTtl);
            var second := Mutex(first.store, key, lockKey, lockTtl, codec, later, ttl, nullTtl);
            && first.loaded
            && (!fetch.Failed? ==> !second.loaded && second.result == first.result && second.store == first.store)
            && (fetch.Failed? ==> first.result == Throw && first.store == S && second.loaded)
  {
    MutexIsGuardedPassThrough(S, key, lockKey, lockTtl, codec, fetch, ttl, nullTtl);
    if fetch.Found? {
      PassThroughFillThenHit(S, key, codec, fetch.row, ttl, nullTtl, later);
    }
  }

  // ---------------------------------------------------------------------
  // Logical expiry

  /** Writing an envelope (`setWithLogicExpire` or a refresh) and reading
      it back gives the envelope. */
  lemma EnvelopeRoundTrip<T(!new)>(S: map<string, Entry>, key: string, envCodec: Codec<RedisData<T>>, env: RedisData<T>)
    requires Lawful(envCodec)
    ensures Envelope(S[key := Entry(envCodec.encode(env), None)], key, envCodec) == Some(env)
  {
  }

  /** A key without an envelope is answered null: no loader, no refresh,
      nothing written. */
  lemma LogicalMissDoesNothing<T>(S: map<string, Entry>, key: string, lockKey: string, lockTtl: int,
                                  envCodec: Codec<RedisData<T>>, fetch: Fetch<T>, now: int, ttlSeconds: int)
    requires Envelope(S, key, envCodec) == None
    ensures LogicalExpire(S, key, lockKey, lockTtl, envCodec, fetch, now, ttlSeconds) == Step(None, S, false)
  {
  }

  /** A present envelope's payload is always returned, stale or not, and
      the cache is touched only when `now` is strictly after its expiry. */
  lemma LogicalServesStale<T>(S: map<string, Entry>, key: string, lockKey: string, lockTtl: int,
                              envCodec: Codec<RedisData<T>>, fetch: Fetch<T>, now: int, ttlSeconds: int)
    requires Envelope(S, key, envCodec).Some?
    ensures var env := Envelope(S, key, envCodec).value;
            var step := LogicalExpire(S, key, lockKey, lockTtl, envCodec, fetch, now, ttlSeconds);
            && step.result == Some(env.data)
            && (now <= env.expireTime ==> step.store == S && !step.loaded)
  {
  }

  /** The refresh releases the lock iff it acquired it, and does nothing at
      all when someone else holds it. */
  lemma RefreshReleasesOnlyItsLock<T>(S: map<string, Entry>, key: string, lockKey: string, lockTtl: int,
                                      envCodec: Codec<RedisData<T>>, fetch: Fetch<T>, now: int, ttlSeconds: int)
    ensures var step := Refresh(S, key, lockKey, lockTtl, envCodec, fetch, now, ttlSeconds);
            && (lockKey in step.store <==> lockKey in S)
            && (lockKey in S ==> step == Step(Return(()), S, false))
  {
  }

  /** Under the lock the expiry is checked again: an entry that is no longer
      expired (another refresh got there first) is left as it was. */
  lemma RefreshRechecksExpiry<T>(S: map<string, Entry>, key: string, lockKey: string, lockTtl: int,
                                 envCodec: Codec<RedisData<T>>, fetch: Fetch<T>, now: int, ttlSeconds: int)
    requires key != lockKey && lockKey !in S
    requires Envelope(S, key, envCodec).Some? && now < Envelope(S, key, envCodec).value.expireTime
    ensures Refresh(S, key, lockKey, lockTtl, envCodec, fetch, now, ttlSeconds) == Step(Return(()), S, false)
  {
    assert S[lockKey := LockEntry(lockTtl)] - {lockKey} == S;
  }

  /** An expired entry whose row is gone, or whose reload failed, is
      deleted; otherwise it is rewritten with expiry `now + ttlSeconds` and
      the fresh bean, with no store TTL. No other key changes. */
  lemma RefreshRebuilds<T(!new)>(S: map<string, Entry>, key: string, lockKey: string, lockTtl: int,
                                 envCodec: Codec<RedisData<T>>, fetch: Fetch<T>, now: int, ttlSeconds: int)
    requires Lawful(envCodec) && key != lockKey && lockKey !in S
    requires Envelope(S, key, envCodec).Some? && now >= Envelope(S, key, envCodec).value.expireTime
    ensures var step := Refresh(S, key, lockKey, lockTtl, envCodec, fetch, now, ttlSeconds);
            && step.loaded && step.result == Return(())
            && step.store - {key} == S - {key}
            && (fetch.Found? ==> Envelope(step.store, key, envCodec) == Some(RedisData(now + ttlSeconds, fetch.row))
                                 && step.store[key].ttl == None)
            && (!fetch.Found? ==> key !in step.store)
  {
    var locked := S[lockKey := LockEntry(lockTtl)];
    var step := Refresh(S, key, lockKey, lockTtl, envCodec, fetch, now, ttlSeconds);
    assert step.store - {key} == S - {key};
    if fetch.Found? {
      var env := RedisData(now + ttlSeconds, fetch.row);
      assert step.store == S[key := Entry(envCodec.encode(env), None)];
      EnvelopeRoundTrip(S, key, envCodec, env);
    }
  }

  /** Once rebuilt, the entry is fresh: a read at the same instant returns
      the new payload and starts no second refresh. */
  lemma RefreshedEntryIsFresh<T(!new)>(S: map<string, Entry>, key: string, lockKey: string, lockTtl: int,
                                       envCodec: Codec<RedisData<T>>, v: T, later: Fetch<T>, now: int, ttlSeconds: int)
    requires Lawful(envCodec) && key != lockKey && lockKey !in S && ttlSeconds >= 0
    requires Envelope(S, key, envCodec).Some? && now >= Envelope(S, key, envCodec).value.expireTime
    ensures var rebuilt := Refresh(S, key, lockKey, lockTtl, envCodec, Found(v), now, ttlSeconds).store;
            LogicalExpire(rebuilt, key, lockKey, lockTtl, envCodec, later, now, ttlSeconds) == Step(Some(v), rebuilt, false)
  {
    RefreshRebuilds(S, key, lockKey, lockTtl, envCodec, Found(v), now, ttlSeconds);
  }
}
