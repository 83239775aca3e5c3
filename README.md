# hmdp caching, locking and flash-sale orders in Dafny

This project models the core of the hmdp shop-review service: its Redis
read-through cache, its Redis locks and its flash-sale order path. Each
part is modelled against an abstract key-value store and abstract
database tables, and properties of the model are proved.

- **Store** (`store.dfy`). The Redis server as `StringRedisTemplate` uses
  it. It is a class with a map of string keys and a map of list keys. Each
  string entry holds a value and the TTL it was written with. GET, SET,
  SET with a TTL, SET NX, DEL, LRANGE, RPUSH, EXPIRE and EVAL are atomic
  methods.
- **Loader** (`database.dfy`). A table read by primary key: `getById`,
  the `dbFallback` of the cache strategies. A lookup finds a row, finds
  nothing or raises. A counter records how many lookups were made.
- **Cache strategies** (`cache_spec.dfy`). Each strategy of
  `RedisClient` is a function of the string keys before the call, the
  loader's answer and the clock. It gives the answer, the keys afterwards
  and whether the loader ran. The strategies are pass-through with a
  negative cache, mutex-guarded fill and logical expiry (with its refresh
  task). The lemmas in this file state what the strategies promise.
- **`RedisClient`** (`redis_client.dfy`) and **`ShopServiceImpl`**
  (`shop_service.dfy`). Their methods are imperative: a retry loop,
  try/finally lock release, writes and deletes on the store. Each is
  proved to have exactly the effect of its strategy function.
  `ShopServiceImpl` also looks shops up through the client and updates
  shops (write the row, then evict the key).
- **`SimpleRedisLock`** (`simple_lock.dfy`). The lock key and owner token
  are derived purely. `tryLock` is a set-if-absent of the token. `unLock`
  runs the release script on the same key and token.
- **Order tables** (`orders.dfy`). Stock by voucher and the set of
  orders. The listener's transaction is `Consume`; the synchronous
  `createOrder` guards are `PlaceRejection` and `Placed`. The file holds
  the invariants (stock never negative, one order per user and voucher,
  stock plus orders conserved), redelivery idempotence and an end-to-end
  sale lemma.
- **`CreateOrderListener`** (`create_order_listener.dfy`) and
  **`VoucherOrderServiceImpl`** (`voucher_order_service.dfy`). These are
  the queue consumer, the script-admitted `seckillVoucher` that publishes
  the order, and the lock-guarded synchronous `seckillVoucher1` /
  `createOrder`.
- **`ShopTypeServiceImpl`** (`shop_type_service.dfy`). The shop-type list
  cache. On a miss it is filled from the `sort`-ordered query.

`text.dfy` models `Long.toString`, which builds the `prefix + id` keys, and
Hutool's `StrUtil.isBlank`. `json.dfy` models JSON as a pair of functions,
`encode` and `decode`. Wherever a property needs the round trip, it is
required through `Lawful`: decoding an encoding gives the value back, and
no encoding is blank. `common.dfy` holds Java's null (`Option`), how a
call ends (`Outcome`: a return, a throw, or a wait cut short), the
service's `Result`, and `TimeUnit.toSeconds`.

Inputs the code draws from its environment become parameters:

- The clock is `now`, in seconds.
- Each `RandomUtil.randomLong(a, b)` draw is a parameter that must lie in
  `[a, b)`.
- The `RedisConstants` values are constructor parameters.
- The reply of `seckill.lua` is a parameter.
- The script behind `unlock.lua` is a function parameter.
- The current user and thread ids are parameters.

## Behaviour of the code worth knowing

- **A failed reload deletes the entry.** In the logical-expiry rebuild, a
  loader exception is logged and leaves the bean null, so the key is
  deleted rather than the stale envelope kept
  (`RedisClient.java:222-232`, `ShopServiceImpl.java:263-273`).
  `CacheSpec.Refresh` and `CacheSpec.RefreshRebuilds` state the deletion.
- **The cache locks are released without an owner check.**
  `RedisClient.unLock` (`RedisClient.java:262-264`) and
  `ShopServiceImpl.unLock` (`ShopServiceImpl.java:193-195`) delete the lock
  key whoever holds it. `SimpleRedisLock.unLock`
  (`SimpleRedisLock.java:49-54`) instead hands the key and the caller's
  token to `unlock.lua`, whose body is not part of this model.
- **The two duplicate guards differ.** The synchronous `createOrder`
  counts the user's orders across every voucher
  (`VoucherOrderServiceImpl.java:164`); the listener counts the user's
  orders of that voucher only (`CreateOrderListener.java:49-52`). The
  model keeps the difference, and `Orders.PlaceRefusesAnyPriorOrder`
  states it.

## Model

| member | source | states |
|---|---|---|
| `Text.PrefixedIdInjective` | src/main/java/com/hmdp/service/impl/ShopServiceImpl.java:65-66 | `prefix + id` keys are equal exactly when the ids are: `Long.toString` is injective, proved through its parse-back inverse |
| `Common.JavaDiv` | src/main/java/com/hmdp/utils/RedisClient.java:60 | `TimeUnit.toSeconds` of finer units truncates toward zero: for a non-negative dividend `q*b <= a < q*b + b`, for a non-positive one `q*b - b < a <= q*b` (Dafny's `/` would floor negatives) |
| `Json.EncodeAll` | src/main/java/com/hmdp/service/impl/ShopTypeServiceImpl.java:55-60 | the list pushed to the cache has one JSON string per shop type, element i the encoding of row i |
| `Json.DecodeAll` | src/main/java/com/hmdp/service/impl/ShopTypeServiceImpl.java:41-44 | the answer on a hit has one shop type per cached string, element i decoded from string i |
| `Json.DecodeEncodeAll` | src/main/java/com/hmdp/service/impl/ShopTypeServiceImpl.java:41-63 | a list written by the fill reads back, in order, as the list that was written |
| `CacheSpec.CachedEncode` | src/main/java/com/hmdp/utils/RedisClient.java:84-88 | a cached bean reads back as that bean: an encoding is never taken for the blank marker |
| `CacheSpec.PassThroughFrame` | src/main/java/com/hmdp/utils/RedisClient.java:80-103 | pass-through calls the loader iff the key is absent; a hit returns the cached value and changes nothing; no key other than `key` ever changes |
| `CacheSpec.PassThroughFillThenHit` | src/main/java/com/hmdp/utils/RedisClient.java:91-103 | after a miss whose loader found `v`, the entry is `encode(v)` with TTL `(time, timeUnit)` and the next call returns `v` without loading or writing |
| `CacheSpec.PassThroughNegativeThenHit` | src/main/java/com/hmdp/utils/RedisClient.java:93-97 | after a miss whose loader found null, the entry is `""` with the null TTL and the next call returns null without loading |
| `CacheSpec.MutexReleasesOnlyItsLock` | src/main/java/com/hmdp/utils/RedisClient.java:156-161 | the lock key is present after the call iff it was before: a lock the call took is deleted on every exit, one held by another is left as it was |
| `CacheSpec.MutexLoadsOnlyUnderLock` | src/main/java/com/hmdp/utils/RedisClient.java:123-145 | the loader runs iff the key was absent and the lock was free; a hit or a lost race writes nothing; a lost race waits |
| `CacheSpec.MutexIsGuardedPassThrough` | src/main/java/com/hmdp/utils/RedisClient.java:119-164 | with the lock free, the mutex strategy answers and writes exactly what pass-through does |
| `CacheSpec.MutexLoadsOnce` | src/main/java/com/hmdp/utils/RedisClient.java:119-164 | two calls on a cold key with the lock free: if the first load does not raise, the second call is a hit with the first's answer and store and does not load; a raising load writes nothing (the `finally` only unlocks), so the second call loads again |
| `CacheSpec.EnvelopeRoundTrip` | src/main/java/com/hmdp/utils/RedisClient.java:58-64 | an envelope written without TTL reads back as `{expireTime, data}` |
| `CacheSpec.LogicalMissDoesNothing` | src/main/java/com/hmdp/utils/RedisClient.java:182-186 | no envelope (absent or blank) gives null, with no load, no refresh and no write |
| `CacheSpec.LogicalServesStale` | src/main/java/com/hmdp/utils/RedisClient.java:187-194 | a present envelope's data is always returned, and nothing changes unless `now` is strictly after `expireTime` |
| `CacheSpec.RefreshReleasesOnlyItsLock` | src/main/java/com/hmdp/utils/RedisClient.java:203-211 | the refresh releases the lock iff it took it, and does nothing at all when the lock is held |
| `CacheSpec.RefreshRechecksExpiry` | src/main/java/com/hmdp/utils/RedisClient.java:212-218 | under the lock an envelope no longer expired is left untouched and the loader is not called |
| `CacheSpec.RefreshRebuilds` | src/main/java/com/hmdp/utils/RedisClient.java:220-236 | with the lock free, an expired envelope is reloaded: a found bean is rewritten with `expireTime = now + toSeconds(time)` and no TTL, a null or failed load deletes the key; no other key changes |
| `CacheSpec.RefreshedEntryIsFresh` | src/main/java/com/hmdp/utils/RedisClient.java:233-236 | right after a rebuild a read returns the new data and starts no second refresh |
| `CacheClient.RedisClient.Set` | src/main/java/com/hmdp/utils/RedisClient.java:36-38 | stores `encode(data)` under `key` with no TTL; no other key changes |
| `CacheClient.RedisClient.SetWithExpire` | src/main/java/com/hmdp/utils/RedisClient.java:47-49 | stores `encode(data)` under `key` with TTL exactly `(time, timeUnit)`; no other key changes |
| `CacheClient.RedisClient.SetWithLogicExpire` | src/main/java/com/hmdp/utils/RedisClient.java:58-64 | stores the envelope `{now + toSeconds(time), data}` with no TTL; no other key changes |
| `CacheClient.RedisClient.QueryWithPassThrough` | src/main/java/com/hmdp/utils/RedisClient.java:78-104 | answer, new store and loader calls are those of `PassThrough`, the empty marker living `CACHE_NULL_TTL + [20, 50)` seconds |
| `CacheClient.RedisClient.QueryWithMutex` | src/main/java/com/hmdp/utils/RedisClient.java:119-164 | answer, new store and loader calls are those of `Mutex`; the retry loop keeps the store unchanged until the lock is taken |
| `CacheClient.RedisClient.QueryWithLogicalExpire` | src/main/java/com/hmdp/utils/RedisClient.java:180-195 | answer, new store and loader calls are those of `LogicalExpire` |
| `CacheClient.RedisClient.RefreshCacheWithLogicalExpire` | src/main/java/com/hmdp/utils/RedisClient.java:202-243 | outcome, new store and loader calls are those of `Refresh` |
| `CacheClient.RedisClient.TryLock` | src/main/java/com/hmdp/utils/RedisClient.java:252-255 | succeeds iff the key was absent, and then stores `"1"` with TTL `LOCK_SHOP_TTL` seconds; otherwise nothing changes |
| `CacheClient.RedisClient.UnLock` | src/main/java/com/hmdp/utils/RedisClient.java:262-264 | deletes the key whatever its value: no owner check |
| `ShopService.ShopInfo` | src/main/java/com/hmdp/service/impl/ShopServiceImpl.java:83-86 | a null shop becomes `fail("店铺不存在")`, a shop `ok(shop)`; an exception stays an exception and a wait stays a wait |
| `ShopService.EvictionIsPerShop` | src/main/java/com/hmdp/service/impl/ShopServiceImpl.java:298 | evicting one shop's key leaves every other shop's entry present or absent, and unchanged, as before |
| `ShopService.CachedShopIsServed` | src/main/java/com/hmdp/service/impl/ShopServiceImpl.java:64-86 | a cached shop is answered `ok(shop)` with no load and no write |
| `ShopService.ReadAfterUpdateSeesNewRow` | src/main/java/com/hmdp/service/impl/ShopServiceImpl.java:288-301 | after `update` writes the table and evicts the key, the next lookup with the lock free (and a row read that does not raise) loads from the updated table: an existing row is answered as the new shop, its encoding cached with the shop TTL, and the following call is a hit with no load; a missing id answers "店铺不存在", caches the empty marker, and the following call answers null with no load |
| `ShopService.ShopServiceImpl.GetShopInfoById` | src/main/java/com/hmdp/service/impl/ShopServiceImpl.java:45-87 | a null id is refused with nothing touched; otherwise the result is `Mutex` on `CACHE_SHOP_KEY+id` / `LOCK_SHOP_KEY+id` with TTL `CACHE_SHOP_TTL + [1, 5)` minutes, mapped by `ShopInfo` |
| `ShopService.ShopServiceImpl.QueryWithPassThrough` | src/main/java/com/hmdp/service/impl/ShopServiceImpl.java:94-121 | `PassThrough` with the marker for exactly `CACHE_NULL_TTL` minutes and a shop for exactly `CACHE_SHOP_TTL` minutes |
| `ShopService.ShopServiceImpl.QueryWithMutex` | src/main/java/com/hmdp/service/impl/ShopServiceImpl.java:128-175 | `Mutex` with TTLs `CACHE_NULL_TTL + [1, 5)` and `CACHE_SHOP_TTL + [1, 5)` minutes |
| `ShopService.ShopServiceImpl.TryLock` | src/main/java/com/hmdp/service/impl/ShopServiceImpl.java:183-186 | succeeds iff the key was absent, and then stores `"1"` for `LOCK_SHOP_TTL` seconds |
| `ShopService.ShopServiceImpl.UnLock` | src/main/java/com/hmdp/service/impl/ShopServiceImpl.java:193-195 | unconditional delete of the key |
| `ShopService.ShopServiceImpl.QueryWithLogicalExpire` | src/main/java/com/hmdp/service/impl/ShopServiceImpl.java:219-235 | `LogicalExpire` on the shop key with a rebuilt expiry of `CACHE_SHOP_TTL` minutes in seconds |
| `ShopService.ShopServiceImpl.RefreshCacheWithLogicalExpire` | src/main/java/com/hmdp/service/impl/ShopServiceImpl.java:242-284 | `Refresh` on the shop key: a loader exception leaves the shop null and the key is deleted |
| `ShopService.ShopServiceImpl.Update` | src/main/java/com/hmdp/service/impl/ShopServiceImpl.java:288-301 | a null id is refused with table and cache unchanged; otherwise the row is written and exactly `CACHE_SHOP_KEY+id` is deleted |
| `SimpleLock.OwnerTokenIdentifiesThread` | src/main/java/com/hmdp/utils/SimpleRedisLock.java:18-37 | with one `VALUE_PREFIX`, two threads' tokens are equal iff their thread ids are |
| `SimpleLock.OwnerTokenIdentifiesProcessAndThread` | src/main/java/com/hmdp/utils/SimpleRedisLock.java:18 | prefixes of one length (dash-less UUIDs): tokens are equal iff prefix and thread id both are |
| `SimpleLock.SimpleRedisLock.TryLock` | src/main/java/com/hmdp/utils/SimpleRedisLock.java:35-41 | true iff `LOCK_PREFIX+name` was absent; then it holds the token `VALUE_PREFIX-threadId` for `millis` ms; a held entry keeps value and TTL |
| `SimpleLock.SimpleRedisLock.UnLock` | src/main/java/com/hmdp/utils/SimpleRedisLock.java:49-54 | runs the release script on the same key and token `tryLock` derives for that name and thread; returns its reply |
| `Orders.PlaceRejection` | src/main/java/com/hmdp/service/impl/VoucherOrderServiceImpl.java:163-177 | no rejection iff the user has no order of any voucher and the voucher's stock is positive |
| `Orders.PlaceRefusesAnyPriorOrder` | src/main/java/com/hmdp/service/impl/VoucherOrderServiceImpl.java:164-167 | a user with any earlier order is refused `用户已购买` for every voucher |
| `Orders.PlaceKeepsInvariants` | src/main/java/com/hmdp/service/impl/VoucherOrderServiceImpl.java:161-188 | an accepted order keeps stock non-negative, one order per user, and stock plus orders of every voucher |
| `Orders.PlaceAgreesWithConsume` | src/main/java/com/hmdp/service/impl/VoucherOrderServiceImpl.java:163-177 | an order the synchronous guards accept is one the listener would insert too |
| `Orders.ConsumeEffect` | src/main/java/com/hmdp/listener/CreateOrderListener.java:47-70 | the order is inserted iff none exists for its user and voucher and stock is positive; then that stock drops by exactly one; otherwise both tables are unchanged |
| `Orders.ConsumeKeepsStockNonNegative` | src/main/java/com/hmdp/listener/CreateOrderListener.java:59-67 | stock never goes negative |
| `Orders.ConsumeKeepsOneOrderPerUserAndVoucher` | src/main/java/com/hmdp/listener/CreateOrderListener.java:49-56 | at most one order per user and voucher is preserved |
| `Orders.ConsumeOrdersFor` | src/main/java/com/hmdp/listener/CreateOrderListener.java:59-69 | a voucher's orders gain exactly the inserted order, other vouchers' none |
| `Orders.ConsumeConserves` | src/main/java/com/hmdp/listener/CreateOrderListener.java:47-70 | stock plus the voucher's order count is the same before and after |
| `Orders.ConsumeIdempotent` | src/main/java/com/hmdp/listener/CreateOrderListener.java:49-56 | handling a message a second time changes nothing |
| `Orders.RedeliveryPlacesAtMostOnce` | src/main/java/com/hmdp/listener/CreateOrderListener.java:49-56 | after a redelivery at most one order exists for the user and voucher, and no other order of theirs appeared |
| `Orders.ConsumeAllKeepsInvariants` | src/main/java/com/hmdp/listener/CreateOrderListener.java:47-70 | over any sequence of deliveries stock stays non-negative, one order per user and voucher, supply conserved |
| `Orders.ConsumeAllSells` | src/main/java/com/hmdp/listener/CreateOrderListener.java:47-70 | k distinct new buyers of a voucher with n in stock add min(n, k) orders and leave max(0, n - k) |
| `Orders.OrderTables.CountByUserAndVoucher` | src/main/java/com/hmdp/listener/CreateOrderListener.java:49-52 | the number of orders with that user and voucher |
| `Orders.OrderTables.CountByUser` | src/main/java/com/hmdp/service/impl/VoucherOrderServiceImpl.java:164 | the number of orders of that user, of any voucher |
| `Orders.OrderTables.DecrementStock` | src/main/java/com/hmdp/listener/CreateOrderListener.java:59-63 | matches iff the voucher has a row with stock > 0, and then decrements exactly that row |
| `Orders.OrderTables.Save` | src/main/java/com/hmdp/listener/CreateOrderListener.java:69 | inserts the order |
| `OrderListener.PublishedOrderIsConsumed` | src/main/java/com/hmdp/listener/CreateOrderListener.java:34-38 | the message the seckill path publishes is consumed as the order it describes |
| `OrderListener.CreateOrderListener.CreateOrderFromMessage` | src/main/java/com/hmdp/listener/CreateOrderListener.java:34-40 | the tables become `Consume` of the decoded order |
| `OrderListener.CreateOrderListener.CreateOrder` | src/main/java/com/hmdp/listener/CreateOrderListener.java:47-70 | the tables become `Consume(old tables, order)` |
| `VoucherOrders.IdGenerator.NextId` | src/main/java/com/hmdp/service/impl/VoucherOrderServiceImpl.java:88 | returns an id never handed out before and records it |
| `VoucherOrders.Broker.ConvertAndSend` | src/main/java/com/hmdp/service/impl/VoucherOrderServiceImpl.java:90-99 | appends the message iff the broker accepts it |
| `VoucherOrders.LockRegistry.TryLock` | src/main/java/com/hmdp/service/impl/VoucherOrderServiceImpl.java:132-133 | acquired iff the name was not held; afterwards it is held |
| `VoucherOrders.LockRegistry.Unlock` | src/main/java/com/hmdp/service/impl/VoucherOrderServiceImpl.java:148 | the name is no longer held |
| `VoucherOrders.UserLocksAreDistinct` | src/main/java/com/hmdp/service/impl/VoucherOrderServiceImpl.java:132 | two users' lock names are equal iff the users are |
| `VoucherOrders.CreatedOrderKeepsInvariants` | src/main/java/com/hmdp/service/impl/VoucherOrderServiceImpl.java:161-188 | `createOrder` keeps stock non-negative, one order per user and supply; an accepted order is stored under its id |
| `VoucherOrders.VoucherOrderServiceImpl.SeckillVoucher` | src/main/java/com/hmdp/service/impl/VoucherOrderServiceImpl.java:77-102 | code 1 gives `库存不足`, another non-zero code `请勿重复下单`, both with no id drawn and nothing sent; code 0 draws one fresh id and publishes exactly `{id, userId, voucherId}`, answering `ok(id)`, or throws on a failed send with the id spent |
| `VoucherOrders.VoucherOrderServiceImpl.SeckillVoucher1` | src/main/java/com/hmdp/service/impl/VoucherOrderServiceImpl.java:104-151 | a held per-user lock gives `请勿重复下单` with no order; otherwise the effect is `createOrder`'s; the lock set is the same afterwards |
| `VoucherOrders.VoucherOrderServiceImpl.CreateOrder` | src/main/java/com/hmdp/service/impl/VoucherOrderServiceImpl.java:161-188 | `用户已购买` or `优惠券已售罄` with nothing changed, or one fresh id, the decrement, the saved order and `ok(id)` |
| `ShopTypes.Insert` | src/main/java/com/hmdp/service/impl/ShopTypeServiceImpl.java:48 | inserting into a `sort`-ordered list keeps it ordered and adds exactly that element |
| `ShopTypes.OrderBySort` | src/main/java/com/hmdp/service/impl/ShopTypeServiceImpl.java:48 | the query's rows are ordered by ascending `sort` and are a permutation of the table |
| `ShopTypes.TypeListCases` | src/main/java/com/hmdp/service/impl/ShopTypeServiceImpl.java:37-63 | a hit decodes each cached element in order without the table; an empty table gives `fail` with nothing written; a fill returns every row in `sort` order and caches exactly their encodings with the TTL |
| `ShopTypes.TypeListFillThenHit` | src/main/java/com/hmdp/service/impl/ShopTypeServiceImpl.java:37-63 | after a fill the next call is a hit that answers the same list without querying or writing |
| `ShopTypes.ShopTypeTable.ListOrderedBySort` | src/main/java/com/hmdp/service/impl/ShopTypeServiceImpl.java:48 | the rows ordered by `sort`, counted as one query |
| `ShopTypes.ShopTypeServiceImpl.QueryTypeList` | src/main/java/com/hmdp/service/impl/ShopTypeServiceImpl.java:35-64 | answer, new lists and query count are those of `TypeList`; string keys unchanged |
| `ShopTypes.ShopTypeServiceImpl.CacheTypes` | src/main/java/com/hmdp/service/impl/ShopTypeServiceImpl.java:55-61 | the key's list becomes exactly the encodings, with TTL `CACHE_SHOP_TYPE_TTL` minutes |

## Left out

- `CacheClient.RedisClient.QueryWithMutex`: the Java busy-wait has no bound. The model makes at most `retries + 1` attempts and ends with `StillWaiting` when the lock stays taken. In the sequential model nothing changes between attempts, so a lost race waits until the budget is spent. The same holds for `ShopService.ShopServiceImpl.QueryWithMutex` and `ShopService.ShopServiceImpl.GetShopInfoById`.
- `CacheClient.RedisClient.QueryWithLogicalExpire`: `EXECUTOR.submit` is modelled as running the refresh at once. The thread pool, its queue and its discard policy are left out, so a refresh is never dropped or delayed. The same holds for `ShopService.ShopServiceImpl.QueryWithLogicalExpire`.
- `SimpleLock.SimpleRedisLock.UnLock`: the body of `unlock.lua` is not part of this model. The method promises only to run the script on the right key and token. It does not promise the script's effect or the 1/0 reply the doc comment names.
- `SimpleLock.SimpleRedisLock.TryLock`: a null reply from `setIfAbsent` (`Boolean.TRUE.equals` treats it as not acquired) is not modelled; the store always answers. A null `millis` is not modelled either.
- `VoucherOrders.VoucherOrderServiceImpl.SeckillVoucher`: the body of `seckill.lua` is not part of this model, and its reply is a parameter. A null reply, which would throw on unboxing, is not modelled. The Redis-side stock and buyer set that the script keeps are not modelled.
- `VoucherOrders.VoucherOrderServiceImpl.SeckillVoucher1`: Redisson's lock is a set of held names. Reentrancy by the same thread, lease time and watchdog are left out. A concurrent second request by the same user is what the lock excludes, and sequential calls cannot show it.
- `ShopService.ShopServiceImpl.Update`: `updateById` replaces the whole row. MyBatis-Plus's skipping of null columns is not modelled.
- `OrderListener.CreateOrderListener.CreateOrder`: the primary key of `tb_voucher_order` is not modelled. Saving an order whose id is already taken would raise and roll back; ids from `getUniqueId` are fresh, so this does not arise on the modelled paths.
- `VoucherOrders.IdGenerator.NextId`: `RedisClient.getUniqueId` is not part of this model. It is replaced by a counter that never repeats an id.
- A cached value that is not JSON would make `toBean` throw. The model's `decode` is total.
- The three strategies compare times in seconds on an integer clock, and `LocalDateTime` precision is not modelled. `toSeconds` overflow saturation to `Long.MAX_VALUE` is not modelled, and all integers are unbounded.
- Store TTLs are recorded with each entry but never elapse. Passive expiry of cache entries and locks would need a clock on the store.
- Redis key types are two separate maps. A `WRONGTYPE` error, such as RPUSH to a string key, is not modelled, and DEL acts on string keys only, the only keys the code deletes.
- RabbitMQ delivery (exchange, routing key, acknowledgements, redelivery timing) is reduced to a queue of sent messages and a listener called on one message. `Orders.ConsumeAll` runs deliveries in any chosen order.
- Spring proxies (`AopContext.currentProxy`) and `@Transactional` are modelled by making each transactional method one atomic step. Logging is left out.
- Null arguments of the shop helper methods (`queryWithPassThrough(Long id)` and the like) are not modelled; only `getShopInfoById` and `update` check for null, and the model keeps those checks.
- Real concurrency is left out. All callers are sequential, and the locks are modelled by what each call sees in the store.
- `ShopTypes.OrderBySort`: `ORDER BY sort` leaves the order of rows with equal `sort` to the database; the model fixes one (the table order), so `ShopTypes.ShopTypeServiceImpl.QueryTypeList` promises that order where the database promises none.
- `ShopService.ReadAfterUpdateSeesNewRow`: a lookup whose row read raises is not covered; `CacheSpec.PassThroughFrame` and `CacheSpec.MutexLoadsOnlyUnderLock` say what such a call does.
