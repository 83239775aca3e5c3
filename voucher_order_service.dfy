/** `com.hmdp.service.impl.VoucherOrderServiceImpl`: the flash-sale entry
    points. `seckillVoucher` admits a purchase with a server-side script and
    publishes the order for `CreateOrderListener`; `seckillVoucher1` and
    `createOrder` are the synchronous path, serialised per user by a lock. */
module VoucherOrders {
  import opened Common
  import opened Text
  import opened Json
  import opened Orders

  /** `RedisClient.getUniqueId("voucherOrder")`: a source of ids that never
      repeat. `issued` is the history of ids handed out. */
  class IdGenerator {
    var next: int
    ghost var issued: seq<int>

    ghost predicate Valid()
      reads this
    {
      forall i :: 0 <= i < |issued| ==> issued[i] < next
    }

    constructor (start: int)
      ensures Valid() && issued == []
    {
      next, issued := start, [];
    }

    method NextId() returns (id: int)
      requires Valid()
      modifies this
      ensures Valid()
      ensures id !in old(issued) && issued == old(issued) + [id]
    {
      id := next;
      next := next + 1;
      issued := issued + [id];
    }
  }

  /** `RabbitTemplate` bound to the order exchange and routing key: the
      messages that reached the queue, in order. `reachable` is false when
      every send raises `AmqpException`. */
  class Broker {
    var queue: seq<string>
    const reachable: bool

    constructor (reachable: bool)
      ensures queue == [] && this.reachable == reachable
    {
      queue, this.reachable := [], reachable;
    }

    /** `convertAndSend`: `sent` is false when the send raised. */
    method ConvertAndSend(msg: string) returns (sent: bool)
      modifies this`queue
      ensures sent == reachable
      ensures queue == if sent then old(queue) + [msg] else old(queue)
    {
      sent := reachable;
      if sent {
        queue := queue + [msg];
      }
    }
  }

  /** Redisson locks by name, as `getLock(name).tryLock()` and `unlock()` use
      them: the names currently held. */
  class LockRegistry {
    var held: set<string>

    constructor ()
      ensures held == {}
    {
      held := {};
    }

    method TryLock(name: string) returns (acquired: bool)
      modifies this`held
      ensures acquired <==> name !in old(held)
      ensures held == old(held) + {name}
    {
      acquired := name !in held;
      held := held + {name};
    }

    method Unlock(name: string)
      requires name in held
      modifies this`held
      ensures held == old(held) - {name}
    {
      held := held - {name};
    }
  }

  /** `"lock:vocher:" + userId`: the per-user lock of `seckillVoucher1`. */
  function UserLockName(userId: int): string
  {
    "lock:vocher:" + IntToString(userId)
  }

  /** The lock is per user: two users never contend for one lock. */
  lemma UserLocksAreDistinct(u1: int, u2: int)
    ensures UserLockName(u1) == UserLockName(u2) <==> u1 == u2
  {
    PrefixedIdInjective("lock:vocher:", u1, u2);
  }

  /** The effect of one `createOrder(voucherId)` by `userId`, from tables
      `t0` and id history `issued0` to `t1` and `issued1`, answering `r`: a
      guard's message with nothing changed and no id drawn, or one fresh id,
      the decrement and the saved order, and `ok(id)`. */
  predicate CreatedOrder(t0: Tables, t1: Tables, issued0: seq<int>, issued1: seq<int>,
                         voucherId: int, userId: int, r: Result<int>)
  {
    match PlaceRejection(t0, voucherId, userId)
    case Some(msg) => r == Fail(msg) && t1 == t0 && issued1 == issued0
    case None =>
      && |issued1| == |issued0| + 1 && issued1[..|issued0|] == issued0
      && issued1[|issued0|] !in issued0
      && r == Ok(issued1[|issued0|])
      && t1 == Placed(t0, VoucherOrder(issued1[|issued0|], userId, voucherId))
  }

  /** `createOrder` keeps the synchronous path's invariants: stock never
      negative, at most one order per user, and stock plus orders of every
      voucher unchanged; an accepted order is in the table under its id. */
  lemma CreatedOrderKeepsInvariants(t0: Tables, t1: Tables, issued0: seq<int>, issued1: seq<int>,
                                    voucherId: int, userId: int, r: Result<int>, v: int)
    requires CreatedOrder(t0, t1, issued0, issued1, voucherId, userId, r)
    requires StockNonNegative(t0) && OneOrderPerUser(t0)
    ensures StockNonNegative(t1) && OneOrderPerUser(t1) && Supply(t1, v) == Supply(t0, v)
    ensures r.Ok? ==> VoucherOrder(r.data, userId, voucherId) in t1.orders
  {
    if PlaceRejection(t0, voucherId, userId).None? {
      PlaceKeepsInvariants(t0, issued1[|issued0|], userId, voucherId, v);
    }
  }

  class VoucherOrderServiceImpl {
    const db: OrderTables
    const ids: IdGenerator
    const broker: Broker
    const locks: LockRegistry
    const orderCodec: Codec<VoucherOrder>

    constructor (db: OrderTables, ids: IdGenerator, broker: Broker, locks: LockRegistry, orderCodec: Codec<VoucherOrder>)
      ensures this.db == db && this.ids == ids && this.broker == broker && this.locks == locks
      ensures this.orderCodec == orderCodec
    {
      this.db, this.ids, this.broker, this.locks, this.orderCodec := db, ids, broker, locks, orderCodec;
    }

    /** `seckillVoucher(voucherId)` by `userId`. `admission` is the reply of
        `seckill.lua`: 1 is "out of stock", any other non-zero value
        "duplicate order", both without drawing an id or sending anything;
        0 draws one fresh id and publishes the order. A failed send is
        rethrown, with the id already drawn and nothing undone. */
    method SeckillVoucher(voucherId: int, userId: int, admission: int) returns (r: Outcome<Result<int>>)
      requires ids.Valid()
      modifies ids, broker`queue
      ensures ids.Valid()
      ensures admission != 0 ==> r == Return(Fail(if admission == 1 then "库存不足" else "请勿重复下单"))
                                 && ids.issued == old(ids.issued) && broker.queue == old(broker.queue)
      ensures admission == 0 ==>
                && |ids.issued| == |old(ids.issued)| + 1
                && var orderId := ids.issued[|old(ids.issued)|];
                && ids.issued == old(ids.issued) + [orderId]
                && orderId !in old(ids.issued)
                && (broker.reachable ==> r == Return(Ok(orderId))
                                         && broker.queue == old(broker.queue) + [orderCodec.encode(VoucherOrder(orderId, userId, voucherId))])
                && (!broker.reachable ==> r == Throw && broker.queue == old(broker.queue))
    {
      if admission != 0 {
        return Return(if admission == 1 then Fail("库存不足") else Fail("请勿重复下单"));
      }
      var orderId := ids.NextId();
      var sent := broker.ConvertAndSend(orderCodec.encode(VoucherOrder(orderId, userId, voucherId)));
      if !sent {
        // log.error, then throw new RuntimeException(e)
        return Throw;
      }
      r := Return(Ok(orderId));
    }

    /** `seckillVoucher1(voucherId)` by `userId`: the per-user lock is tried
        once; if it is held the call is refused without creating an order,
        otherwise `createOrder` runs and the lock is released in `finally`. */
    method SeckillVoucher1(voucherId: int, userId: int) returns (r: Result<int>)
      requires ids.Valid()
      modifies db, ids, locks`held
      ensures ids.Valid()
      ensures locks.held == old(locks.held)
      ensures UserLockName(userId) in old(locks.held) ==>
                r == Fail("请勿重复下单") && db.Snapshot() == old(db.Snapshot()) && ids.issued == old(ids.issued)
      ensures UserLockName(userId) !in old(locks.held) ==>
                CreatedOrder(old(db.Snapshot()), db.Snapshot(), old(ids.issued), ids.issued, voucherId, userId, r)
    {
      var name := UserLockName(userId);
      var ret := locks.TryLock(name);
      if !ret {
        return Fail("请勿重复下单");
      }
      r := CreateOrder(voucherId, userId);
      // finally
      locks.Unlock(name);
    }

    /** `@Transactional createOrder(voucherId)` by `userId`: refused if the
        user has any order at all, or if no stock row can be decremented;
        otherwise one id is drawn and the order saved under it. */
    method CreateOrder(voucherId: int, userId: int) returns (r: Result<int>)
      requires ids.Valid()
      modifies db, ids
      ensures ids.Valid()
      ensures CreatedOrder(old(db.Snapshot()), db.Snapshot(), old(ids.issued), ids.issued, voucherId, userId, r)
    {
      var count := db.CountByUser(userId);
      if count > 0 {
        return Fail("用户已购买");
      }
      var update := db.DecrementStock(voucherId);
      if !update {
        return Fail("优惠券已售罄");
      }
      var order := ids.NextId();
      var voucherOrder := VoucherOrder(order, userId, voucherId);
      db.Save(voucherOrder);
      r := Ok(order);
    }
  }
}
