/** `com.hmdp.utils.SimpleRedisLock`: a lock entry whose value names its
    owner, a per-process random prefix and the thread id. */
module SimpleLock {
  import opened Common
  import opened Text
  import opened Store

  /** `LOCK_PREFIX + name`. */
  function LockKey(lockPrefix: string, name: string): string
  {
    lockPrefix + name
  }

  /** `VALUE_PREFIX + "-" + threadId`. */
  function OwnerToken(valuePrefix: string, threadId: int): string
  {
    valuePrefix + "-" + IntToString(threadId)
  }

  /** Within one process (one `VALUE_PREFIX`), two threads' tokens are equal
      exactly when their thread ids are. */
  lemma OwnerTokenIdentifiesThread(valuePrefix: string, t1: int, t2: int)
    ensures OwnerToken(valuePrefix, t1) == OwnerToken(valuePrefix, t2) <==> t1 == t2
  {
    PrefixedIdInjective(valuePrefix + "-", t1, t2);
  }

  /** `VALUE_PREFIX` is a UUID without dashes, so all prefixes have one
      length; then tokens of different processes never collide: two tokens
      are equal exactly when both the prefix and the thread id are. */
  lemma OwnerTokenIdentifiesProcessAndThread(prefix1: string, prefix2: string, t1: int, t2: int)
    requires |prefix1| == |prefix2|
    ensures OwnerToken(prefix1, t1) == OwnerToken(prefix2, t2) <==> prefix1 == prefix2 && t1 == t2
  {
    if OwnerToken(prefix1, t1) == OwnerToken(prefix2, t2) {
      assert OwnerToken(prefix1, t1)[..|prefix1|] == prefix1;
      assert OwnerToken(prefix2, t2)[..|prefix2|] == prefix2;
      OwnerTokenIdentifiesThread(prefix1, t1, t2);
    }
  }

  class SimpleRedisLock {
    const redis: Redis
    /** `RedisConstants.LOCK_PREFIX`. */
    const lockPrefix: string
    /** `VALUE_PREFIX`: `UUID.randomUUID().toString(true)`, drawn once per
        process; given to the constructor. */
    const valuePrefix: string

    constructor (redis: Redis, lockPrefix: string, valuePrefix: string)
      ensures this.redis == redis && this.lockPrefix == lockPrefix && this.valuePrefix == valuePrefix
    {
      this.redis, this.lockPrefix, this.valuePrefix := redis, lockPrefix, valuePrefix;
    }

    /** `tryLock(millis, name)` on thread `threadId`: succeeds exactly when
        the key is free, and then stores the caller's token for `millis`
        milliseconds; a held key is left with its value and TTL. */
    method TryLock(millis: int, name: string, threadId: int) returns (acquired: bool)
      modifies redis`strings
      ensures acquired <==> LockKey(lockPrefix, name) !in old(redis.strings)
      ensures redis.strings == if acquired
                               then old(redis.strings)[LockKey(lockPrefix, name) :=
                                                       Entry(OwnerToken(valuePrefix, threadId), Some(Ttl(millis, Milliseconds)))]
                               else old(redis.strings)
    {
      var key := LockKey(lockPrefix, name);
      var value := OwnerToken(valuePrefix, threadId);
      acquired := redis.SetIfAbsent(key, value, Ttl(millis, Milliseconds));
    }

    /** `unLock(name)` on thread `threadId`: runs the release script with
        the key and the token `tryLock` derives for the same name and
        thread, and returns the script's reply. */
    method UnLock(name: string, threadId: int, unlockScript: Script) returns (reply: int)
      modifies redis`strings
      ensures (redis.strings, reply) == unlockScript(old(redis.strings), LockKey(lockPrefix, name), OwnerToken(valuePrefix, threadId))
    {
      var key := LockKey(lockPrefix, name);
      var value := OwnerToken(valuePrefix, threadId);
      reply := redis.Eval(unlockScript, key, value);
    }
  }
}
