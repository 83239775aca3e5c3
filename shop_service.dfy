/** `com.hmdp.service.impl.ShopServiceImpl`: shop lookups read through the
    cache (by way of `RedisClient`, or with the class's own copies of the
    three strategies, which differ from the client's only in their TTLs),
    and shop updates that write the row and then evict the cache entry. */
module ShopService {
  import opened Common
  import opened Text
  import opened Json
  import opened Store
  import opened Database
  import opened CacheSpec
  import opened CacheClient

  /** `com.hmdp.entity.Shop`: the primary key, which a caller may leave
      null, and the other columns. */
  datatype Shop = Shop(id: Option<int>, columns: map<string, string>)

  /** `CACHE_SHOP_KEY + id` and `LOCK_SHOP_KEY + id`: a prefix and the
      decimal digits of a `Long`. */
  function ShopKey(prefix: string, id: int): string
  {
    prefix + IntToString(id)
  }

  /** What `getShopInfoById` makes of the mutex strategy's answer. */
  function ShopInfo(answer: Outcome<Option<Shop>>): (r: Outcome<Result<Shop>>)
    ensures r.Return? <==> answer.Return?
    ensures r.Throw? <==> answer.Throw?
    ensures answer == Return(None) ==> r == Return(Fail("店铺不存在"))
    ensures forall shop :: answer == Return(Some(shop)) ==> r == Return(Ok(shop))
  {
    match answer
    case Return(None) => Return(Fail("店铺不存在"))
    case Return(Some(shop)) => Return(Ok(shop))
    case Throw => Throw
    case StillWaiting => StillWaiting
  }

  // ---------------------------------------------------------------------
  // Properties of the shop keys and of lookups through the cache

  /** Distinct shop ids have distinct cache keys, so evicting one shop's
      entry leaves every other shop's entry, present or absent, as it was. */
  lemma EvictionIsPerShop(S: map<string, Entry>, prefix: string, a: int, b: int)
    requires a != b
    ensures var S' := S - {ShopKey(prefix, a)};
            && (ShopKey(prefix, b) in S' <==> ShopKey(prefix, b) in S)
            && (ShopKey(prefix, b) in S ==> S'[ShopKey(prefix, b)] == S[ShopKey(prefix, b)])
  {
    PrefixedIdInjective(prefix, a, b);
  }

  /** A shop cached by an earlier fill is served as `ok(shop)` without a
      database lookup and without touching the store. */
  lemma CachedShopIsServed(S: map<string, Entry>, key: string, lockKey: string, lockTtl: int, codec: Codec<Shop>,
                           shop: Shop, ttl: Ttl, fetch: Fetch<Shop>, newTtl: Ttl, nullTtl: Ttl)
    requires Lawful(codec) && key in S && S[key].value == codec.encode(shop)
    ensures var step := Mutex(S, key, lockKey, lockTtl, codec, fetch, newTtl, nullTtl);
            && ShopInfo(step.result) == Return(Ok(shop))
            && step.store == S && !step.loaded
  {
    CachedEncode(codec, shop);
  }

  /** After `update(shop)` has written the table and evicted the shop's
      entry, the next lookup (with the lock free, and the row readable)
      loads from the updated table. If the row existed it answers the new
      row and caches its encoding, and the call after that serves it from
      the cache without loading; if no row has that id the update changed
      nothing, the lookup answers "店铺不存在" and caches the empty marker,
      and the call after that answers null without loading. */
  lemma {:induction false} ReadAfterUpdateSeesNewRow(S: map<string, Entry>, key: string, lockKey: string, lockTtl: int,
                                                     codec: Codec<Shop>, rows: map<int, Shop>, errors: set<int>,
                                                     id: int, shop: Shop, ttl: Ttl, nullTtl: Ttl, later: Fetch<Shop>)
    requires Lawful(codec) && key != lockKey && lockKey !in S && id !in errors
    ensures var evicted := S - {key};
            var step := Mutex(evicted, key, lockKey, lockTtl, codec, Fetched(UpdatedRows(rows, id, shop), errors, id), ttl, nullTtl);
            var next := Mutex(step.store, key, lockKey, lockTtl, codec, later, ttl, nullTtl);
            && step.loaded
            && (id in rows ==>
                  && ShopInfo(step.result) == Return(Ok(shop))
                  && step.store == evicted[key := Entry(codec.encode(shop), Some(ttl))]
                  && next == Step(Return(Some(shop)), step.store, false))
            && (id !in rows ==>
                  && ShopInfo(step.result) == Return(Fail("店铺不存在"))
                  && step.store == evicted[key := Entry("", Some(nullTtl))]
                  && next == Step(Return(None), step.store, false))
  {
    var evicted := S - {key};
    var fetch := Fetched(UpdatedRows(rows, id, shop), errors, id);
    MutexIsGuardedPassThrough(evicted, key, lockKey, lockTtl, codec, fetch, ttl, nullTtl);
    var filled := PassThrough(evicted, key, codec, fetch, ttl, nullTtl).store;
    if id in rows {
      PassThroughFillThenHit(evicted, key, codec, shop, ttl, nullTtl, later);
    } else {
      PassThroughNegativeThenHit(evicted, key, codec, ttl, nullTtl, later);
    }
    MutexIsGuardedPassThrough(filled, key, lockKey, lockTtl, codec, later, ttl, nullTtl);
  }

  class ShopServiceImpl {
    const redis: Redis
    const client: RedisClient
    /** The `tb_shop` table, read by `getById` and written by `updateById`. */
    const shops: Table<int, Shop>
    const shopCodec: Codec<Shop>
    const envCodec: Codec<RedisData<Shop>>
    /** `RedisConstants.CACHE_SHOP_KEY` and `LOCK_SHOP_KEY`. */
    const cacheShopKey: string
    const lockShopKey: string
    /** `RedisConstants.CACHE_NULL_TTL` and `CACHE_SHOP_TTL` (used in minutes
        by this class) and `LOCK_SHOP_TTL` (seconds). */
    const cacheNullTtl: int
    const cacheShopTtl: int
    const lockShopTtl: int

    constructor (redis: Redis, client: RedisClient, shops: Table<int, Shop>, shopCodec: Codec<Shop>,
                 envCodec: Codec<RedisData<Shop>>, cacheShopKey: string, lockShopKey: string,
                 cacheNullTtl: int, cacheShopTtl: int, lockShopTtl: int)
      requires client.redis == redis && client.cacheNullTtl == cacheNullTtl && client.lockShopTtl == lockShopTtl
      ensures Wired()
      ensures this.redis == redis && this.client == client && this.shops == shops
      ensures this.shopCodec == shopCodec && this.envCodec == envCodec
      ensures this.cacheShopKey == cacheShopKey && this.lockShopKey == lockShopKey
      ensures this.cacheNullTtl == cacheNullTtl && this.cacheShopTtl == cacheShopTtl && this.lockShopTtl == lockShopTtl
    {
      this.redis, this.client, this.shops := redis, client, shops;
      this.shopCodec, this.envCodec := shopCodec, envCodec;
      this.cacheShopKey, this.lockShopKey := cacheShopKey, lockShopKey;
      this.cacheNullTtl, this.cacheShopTtl, this.lockShopTtl := cacheNullTtl, cacheShopTtl, lockShopTtl;
    }

    /** The service and its `RedisClient` share one store and the same
        constants. */
    predicate Wired()
    {
      client.redis == redis && client.cacheNullTtl == cacheNullTtl && client.lockShopTtl == lockShopTtl
    }

    /** `getShopInfoById`: a null id is refused before the cache is touched;
        otherwise the shop is read with `RedisClient.queryWithMutex` with a
        TTL of `CACHE_SHOP_TTL + ttlJitter` minutes (`randomLong(1, 5)`), and
        `nullJitter` is the client's own draw for the empty marker. */
    method GetShopInfoById(id: Option<int>, ttlJitter: int, nullJitter: int, retries: nat)
      returns (r: Outcome<Result<Shop>>)
      requires Wired() && 1 <= ttlJitter < 5 && 20 <= nullJitter < 50
      modifies redis`strings, shops`selects
      ensures id.None? ==> r == Return(Fail("店铺id不能为空"))
                           && redis.strings == old(redis.strings) && shops.selects == old(shops.selects)
      ensures id.Some? ==>
                var step := Mutex(old(redis.strings), ShopKey(cacheShopKey, id.value), ShopKey(lockShopKey, id.value),
                                  lockShopTtl, shopCodec, old(shops.Lookup(id.value)),
                                  Ttl(cacheShopTtl + ttlJitter, Minutes), Ttl(cacheNullTtl + nullJitter, Seconds));
                && r == ShopInfo(step.result)
                && redis.strings == step.store
                && shops.selects == old(shops.selects) + (if step.loaded then 1 else 0)
    {
      if id.None? {
        return Return(Fail("店铺id不能为空"));
      }
      var shop := client.QueryWithMutex(ShopKey(cacheShopKey, id.value), ShopKey(lockShopKey, id.value), shopCodec,
                                        id.value, shops, cacheShopTtl + ttlJitter, Minutes, nullJitter, retries);
      r := ShopInfo(shop);
    }

    /** The class's own `queryWithPassThrough`: no jitter, the empty marker
        for `CACHE_NULL_TTL` minutes and a shop for `CACHE_SHOP_TTL` minutes. */
    method QueryWithPassThrough(id: int) returns (r: Outcome<Option<Shop>>)
      modifies redis`strings, shops`selects
      ensures var step := PassThrough(old(redis.strings), ShopKey(cacheShopKey, id), shopCodec, old(shops.Lookup(id)),
                                      Ttl(cacheShopTtl, Minutes), Ttl(cacheNullTtl, Minutes));
              && r == step.result
              && redis.strings == step.store
              && shops.selects == old(shops.selects) + (if step.loaded then 1 else 0)
    {
      var key := ShopKey(cacheShopKey, id);
      var s := redis.Get(key);
      if s.Some? {
        if IsBlank(s.value) {
          return Return(None);
        }
        return Return(Some(shopCodec.decode(s.value)));
      }
      var byId := shops.SelectById(id);
      match byId {
        case Failed =>
          r := Throw;
        case Missing =>
          redis.SetWithTtl(key, "", Ttl(cacheNullTtl, Minutes));
          r := Return(None);
        case Found(shop) =>
          redis.SetWithTtl(key, shopCodec.encode(shop), Ttl(cacheShopTtl, Minutes));
          r := Return(Some(shop));
      }
    }

    /** The class's own `queryWithMutex`. Only one of its two
        `randomLong(1, 5)` draws is made on any run, so one `jitter` stands
        for it: the empty marker lives `CACHE_NULL_TTL + jitter` minutes and
        a shop `CACHE_SHOP_TTL + jitter` minutes. */
    method QueryWithMutex(id: int, jitter: int, retries: nat) returns (r: Outcome<Option<Shop>>)
      requires 1 <= jitter < 5
      modifies redis`strings, shops`selects
      ensures var step := Mutex(old(redis.strings), ShopKey(cacheShopKey, id), ShopKey(lockShopKey, id), lockShopTtl,
                                shopCodec, old(shops.Lookup(id)),
                                Ttl(cacheShopTtl + jitter, Minutes), Ttl(cacheNullTtl + jitter, Minutes));
              && r == step.result
              && redis.strings == step.store
              && shops.selects == old(shops.selects) + (if step.loaded then 1 else 0)
    {
      var key := ShopKey(cacheShopKey, id);
      var lockKey := ShopKey(lockShopKey, id);
      var isLock := false;
      var attempt := 0;
      while attempt <= retries
        invariant redis.strings == old(redis.strings) && shops.selects == old(shops.selects)
        invariant attempt > 0 ==> key !in redis.strings && lockKey in redis.strings
        invariant !isLock
      {
        var s := redis.Get(key);
        if s.Some? {
          if IsBlank(s.value) {
            return Return(None);
          }
          return Return(Some(shopCodec.decode(s.value)));
        }
        isLock := TryLock(lockKey);
        if isLock {
          break;
        }
        // ThreadUtil.sleep(RandomUtil.randomLong(30, 50)) changes no modelled state
        attempt := attempt + 1;
      }
      if !isLock {
        return StillWaiting;
      }
      var byId := shops.SelectById(id);
      match byId {
        case Failed =>
          r := Throw;
        case Missing =>
          redis.SetWithTtl(key, "", Ttl(cacheNullTtl + jitter, Minutes));
          r := Return(None);
        case Found(shop) =>
          redis.SetWithTtl(key, shopCodec.encode(shop), Ttl(cacheShopTtl + jitter, Minutes));
          r := Return(Some(shop));
      }
      // finally
      UnLock(lockKey);
    }

    /** `tryLock`: set-if-absent of "1" for `LOCK_SHOP_TTL` seconds. */
    method TryLock(key: string) returns (isLock: bool)
      modifies redis`strings
      ensures isLock <==> key !in old(redis.strings)
      ensures redis.strings == if isLock then old(redis.strings)[key := LockEntry(lockShopTtl)] else old(redis.strings)
    {
      isLock := redis.SetIfAbsent(key, "1", Ttl(lockShopTtl, Seconds));
    }

    /** `unLock`: an unconditional delete. */
    method UnLock(key: string)
      modifies redis`strings
      ensures redis.strings == old(redis.strings) - {key}
    {
      var _ := redis.Delete(key);
    }

    /** The class's own `queryWithLogicalExpire`, read at time `now`; the
        executor runs the refresh at once. */
    method QueryWithLogicalExpire(id: int, now: int) returns (r: Option<Shop>)
      modifies redis`strings, shops`selects
      ensures var step := LogicalExpire(old(redis.strings), ShopKey(cacheShopKey, id), ShopKey(lockShopKey, id),
                                        lockShopTtl, envCodec, old(shops.Lookup(id)), now, ToSeconds(cacheShopTtl, Minutes));
              && r == step.result
              && redis.strings == step.store
              && shops.selects == old(shops.selects) + (if step.loaded then 1 else 0)
    {
      var s := redis.Get(ShopKey(cacheShopKey, id));
      if s.None? || IsBlank(s.value) {
        return None;
      }
      var redisData := envCodec.decode(s.value);
      if now > redisData.expireTime {
        var _ := RefreshCacheWithLogicalExpire(id, now);
      }
      r := Some(redisData.data);
    }

    /** The class's own `refreshCacheWithLogicalExpire`: a loader exception
        is logged and leaves the shop null, so the key is deleted; a rebuilt
        envelope expires `CACHE_SHOP_TTL` minutes after `now`. */
    method RefreshCacheWithLogicalExpire(id: int, now: int) returns (r: Outcome<()>)
      modifies redis`strings, shops`selects
      ensures var step := Refresh(old(redis.strings), ShopKey(cacheShopKey, id), ShopKey(lockShopKey, id), lockShopTtl,
                                  envCodec, old(shops.Lookup(id)), now, ToSeconds(cacheShopTtl, Minutes));
              && r == step.result
              && redis.strings == step.store
              && shops.selects == old(shops.selects) + (if step.loaded then 1 else 0)
    {
      var key := ShopKey(cacheShopKey, id);
      var lockKey := ShopKey(lockShopKey, id);
      var isLock := TryLock(lockKey);
      if !isLock {
        return Return(());
      }
      var s := redis.Get(key);
      if s.None? || IsBlank(s.value) {
        // the bean read back has no expiry time: isBefore(null) throws
        r := Throw;
      } else {
        var bean := envCodec.decode(s.value);
        if now < bean.expireTime {
          r := Return(());
        } else {
          var byId := shops.SelectById(id);
          match byId {
            case Found(shop) =>
              redis.Set(key, envCodec.encode(RedisData(now + ToSeconds(cacheShopTtl, Minutes), shop)));
            case _ =>
              var _ := redis.Delete(key);
          }
          r := Return(());
        }
      }
      // finally
      UnLock(lockKey);
    }

    /** `update`: a shop without an id is refused and nothing changes;
        otherwise the row is written and then exactly that shop's cache key
        is deleted. */
    method Update(shop: Shop) returns (r: Result<()>)
      modifies shops`rows, redis`strings
      ensures shop.id.None? ==> r == Fail("店铺id不能为空")
                                && shops.rows == old(shops.rows) && redis.strings == old(redis.strings)
      ensures shop.id.Some? ==> r == Ok(())
                                && shops.rows == UpdatedRows(old(shops.rows), shop.id.value, shop)
                                && redis.strings == old(redis.strings) - {ShopKey(cacheShopKey, shop.id.value)}
    {
      if shop.id.None? {
        return Fail("店铺id不能为空");
      }
      var _ := shops.UpdateById(shop.id.value, shop);
      var _ := redis.Delete(ShopKey(cacheShopKey, shop.id.value));
      r := Ok(());
    }
  }
}
