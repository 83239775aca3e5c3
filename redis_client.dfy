/** `com.hmdp.utils.RedisClient`: the generic read-through cache client.
    Each method is proved to have the effect `CacheSpec` gives it. */
module CacheClient {
  import opened Common
  import opened Json
  import opened Store
  import opened Database
  import opened CacheSpec

  class RedisClient {
    const redis: Redis
    /** `RedisConstants.CACHE_NULL_TTL`: base TTL of the empty marker, in seconds here. */
    const cacheNullTtl: int
    /** `RedisConstants.LOCK_SHOP_TTL`: TTL of the mutex entry, in seconds. */
    const lockShopTtl: int

    constructor (redis: Redis, cacheNullTtl: int, lockShopTtl: int)
      ensures this.redis == redis && this.cacheNullTtl == cacheNullTtl && this.lockShopTtl == lockShopTtl
    {
      this.redis, this.cacheNullTtl, this.lockShopTtl := redis, cacheNullTtl, lockShopTtl;
    }

    /** `set`: the JSON of `data` under `key`, with no TTL. */
    method Set<T>(key: string, data: T, codec: Codec<T>)
      modifies redis`strings
      ensures redis.strings == old(redis.strings)[key := Entry(codec.encode(data), None)]
    {
      redis.Set(key, codec.encode(data));
    }

    /** `setWithExpirce`: the JSON of `data` with a TTL of exactly `(time, timeUnit)`. */
    method SetWithExpire<T>(key: string, data: T, codec: Codec<T>, time: int, timeUnit: TimeUnit)
      modifies redis`strings
      ensures redis.strings == old(redis.strings)[key := Entry(codec.encode(data), Some(Ttl(time, timeUnit)))]
    {
      redis.SetWithTtl(key, codec.encode(data), Ttl(time, timeUnit));
    }

    /** `setWithLogicExpire`: an envelope that expires `time` from `now`,
        stored with no TTL. */
    method SetWithLogicExpire<T>(key: string, data: T, envCodec: Codec<RedisData<T>>, time: int, timeUnit: TimeUnit, now: int)
      modifies redis`strings
      ensures redis.strings == old(redis.strings)[key := Entry(envCodec.encode(RedisData(now + ToSeconds(time, timeUnit), data)), None)]
    {
      var redisData := RedisData(now + ToSeconds(time, timeUnit), data);
      redis.Set(key, envCodec.encode(redisData));
    }

    /** `queryWithPassThrough`. `nullJitter` is the draw of
        `RandomUtil.randomLong(20, 50)` added to the empty marker's TTL. */
    method QueryWithPassThrough<T, ID(==)>(key: string, codec: Codec<T>, id: ID, dbFallback: Table<ID, T>,
                                          time: int, timeUnit: TimeUnit, nullJitter: int)
      returns (r: Outcome<Option<T>>)
      requires 20 <= nullJitter < 50
      modifies redis`strings, dbFallback`selects
      ensures var step := PassThrough(old(redis.strings), key, codec, old(dbFallback.Lookup(id)),
                                      Ttl(time, timeUnit), Ttl(cacheNullTtl + nullJitter, Seconds));
              && r == step.result
              && redis.strings == step.store
              && dbFallback.selects == old(dbFallback.selects) + (if step.loaded then 1 else 0)
    {
      var s := redis.Get(key);
      if s.Some? {
        r := Return(Cached(codec, s.value));
        return;
      }
      var byId := dbFallback.SelectById(id);
      match byId {
        case Failed =>
          r := Throw;
        case Missing =>
          redis.SetWithTtl(key, "", Ttl(cacheNullTtl + nullJitter, Seconds));
          r := Return(None);
        case Found(v) =>
          redis.SetWithTtl(key, codec.encode(v), Ttl(time, timeUnit));
          r := Return(Some(v));
      }
    }

    /** `queryWithMutex`. The busy-wait makes at most `retries + 1` attempts
        (the Java loop has no bound); `nullJitter` is the draw of
        `RandomUtil.randomLong(20, 50)`. */
    method QueryWithMutex<T, ID(==)>(key: string, lockKey: string, codec: Codec<T>, id: ID, dbFallback: Table<ID, T>,
                                    time: int, timeUnit: TimeUnit, nullJitter: int, retries: nat)
      returns (r: Outcome<Option<T>>)
      requires 20 <= nullJitter < 50
      modifies redis`strings, dbFallback`selects
      ensures var step := Mutex(old(redis.strings), key, lockKey, lockShopTtl, codec, old(dbFallback.Lookup(id)),
                                Ttl(time, timeUnit), Ttl(cacheNullTtl + nullJitter, Seconds));
              && r == step.result
              && redis.strings == step.store
              && dbFallback.selects == old(dbFallback.selects) + (if step.loaded then 1 else 0)
    {
      var isLock := false;
      var attempt := 0;
      while attempt <= retries
        invariant redis.strings == old(redis.strings) && dbFallback.selects == old(dbFallback.selects)
        invariant attempt > 0 ==> key !in redis.strings && lockKey in redis.strings
        invariant !isLock
      {
        var s := redis.Get(key);
        if s.Some? {
          r := Return(Cached(codec, s.value));
          return;
        }
        isLock := TryLock(lockKey);
        if isLock {
          break;
        }
        // ThreadUtil.sleep(RandomUtil.randomLong(30, 50)): the pause changes no modelled state
        attempt := attempt + 1;
      }
      if !isLock {
        r := StillWaiting;
        return;
      }
      var byId := dbFallback.SelectById(id);
      match byId {
        case Failed =>
          r := Throw;
        case Missing =>
          redis.SetWithTtl(key, "", Ttl(cacheNullTtl + nullJitter, Seconds));
          r := Return(None);
        case Found(v) =>
          redis.SetWithTtl(key, codec.encode(v), Ttl(time, timeUnit));
          r := Return(Some(v));
      }
      // finally
      UnLock(lockKey);
    }

    /** `queryWithLogicalExpire`. `EXECUTOR.submit` is modelled as running
        the refresh at once; how the refresh ends is discarded, as
        the executor's future is never read. */
    method QueryWithLogicalExpire<T, ID(==)>(key: string, lockKey: string, envCodec: Codec<RedisData<T>>, id: ID,
                                            dbFallback: Table<ID, T>, time: int, timeUnit: TimeUnit, now: int)
      returns (r: Option<T>)
      modifies redis`strings, dbFallback`selects
      ensures var step := LogicalExpire(old(redis.strings), key, lockKey, lockShopTtl, envCodec, old(dbFallback.Lookup(id)),
                                        now, ToSeconds(time, timeUnit));
              && r == step.result
              && redis.strings == step.store
              && dbFallback.selects == old(dbFallback.selects) + (if step.loaded then 1 else 0)
    {
      var s := redis.Get(key);
      if s.None? || Text.IsBlank(s.value) {
        return None;
      }
      var redisData := envCodec.decode(s.value);
      if now > redisData.expireTime {
        var _ := RefreshCacheWithLogicalExpire(key, lockKey, envCodec, id, dbFallback, time, timeUnit, now);
      }
      r := Some(redisData.data);
    }

    /** `refreshCacheWithLogicalExpire`: the rebuild task. A loader exception
        is caught and treated as a null result. */
    method RefreshCacheWithLogicalExpire<T, ID(==)>(key: string, lockKey: string, envCodec: Codec<RedisData<T>>, id: ID,
                                                   dbFallback: Table<ID, T>, time: int, timeUnit: TimeUnit, now: int)
      returns (r: Outcome<()>)
      modifies redis`strings, dbFallback`selects
      ensures var step := Refresh(old(redis.strings), key, lockKey, lockShopTtl, envCodec, old(dbFallback.Lookup(id)),
                                  now, ToSeconds(time, timeUnit));
              && r == step.result
              && redis.strings == step.store
              && dbFallback.selects == old(dbFallback.selects) + (if step.loaded then 1 else 0)
    {
      var isLock := TryLock(lockKey);
      if !isLock {
        return Return(());
      }
      var s := redis.Get(key);
      if s.None? || Text.IsBlank(s.value) {
        // toBean of a null or blank string has no expireTime: isBefore(null) throws
        r := Throw;
      } else {
        var bean := envCodec.decode(s.value);
        if now < bean.expireTime {
          r := Return(());
        } else {
          var byId := dbFallback.SelectById(id);
          match byId {
            case Found(v) =>
              redis.Set(key, envCodec.encode(RedisData(now + ToSeconds(time, timeUnit), v)));
            case _ =>
              var _ := redis.Delete(key);
          }
          r := Return(());
        }
      }
      // finally
      UnLock(lockKey);
    }

    /** `tryLock`: set-if-absent of "1" with a TTL of `LOCK_SHOP_TTL` seconds. */
    method TryLock(key: string) returns (isLock: bool)
      modifies redis`strings
      ensures isLock <==> key !in old(redis.strings)
      ensures redis.strings == if isLock then old(redis.strings)[key := LockEntry(lockShopTtl)] else old(redis.strings)
    {
      isLock := redis.SetIfAbsent(key, "1", Ttl(lockShopTtl, Seconds));
    }

    /** `unLock`: an unconditional delete, with no owner check. */
    method UnLock(key: string)
      modifies redis`strings
      ensures redis.strings == old(redis.strings) - {key}
    {
      var _ := redis.Delete(key);
    }
  }
}
