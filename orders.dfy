/** The two tables of the flash sale: the seckill stock per voucher
    (`tb_seckill_voucher`) and the voucher orders (`tb_voucher_order`),
    with the transactional steps that change them, and the database object
    through which the services reach them. */
module Orders {
  import opened Common

  /** `com.hmdp.entity.VoucherOrder`, as far as the order path fills it. */
  datatype VoucherOrder = VoucherOrder(id: int, userId: int, voucherId: int)

  /** Both tables at one instant: stock by voucher id, and the order rows. */
  datatype Tables = Tables(stock: map<int, int>, orders: set<VoucherOrder>)

  /** `query().eq("user_id", u).eq("voucher_id", v)`. */
  function OrdersOf(t: Tables, userId: int, voucherId: int): set<VoucherOrder>
  {
    set o | o in t.orders && o.userId == userId && o.voucherId == voucherId
  }

  /** `query().eq("user_id", u)`: the user's orders of every voucher. */
  function OrdersOfUser(t: Tables, userId: int): set<VoucherOrder>
  {
    set o | o in t.orders && o.userId == userId
  }

  /** The orders of one voucher. */
  function OrdersFor(t: Tables, voucherId: int): set<VoucherOrder>
  {
    set o | o in t.orders && o.voucherId == voucherId
  }

  /** The stock of a voucher; a voucher without a row has none. */
  function StockOf(t: Tables, voucherId: int): int
  {
    if voucherId in t.stock then t.stock[voucherId] else 0
  }

  /** `update().setSql("stock = stock - 1").eq("voucher_id", v).gt("stock", 0)`
      matches a row. */
  predicate CanDecrement(t: Tables, voucherId: int)
  {
    voucherId in t.stock && t.stock[voucherId] > 0
  }

  /** The decrement followed by `save(order)`. */
  function Placed(t: Tables, o: VoucherOrder): Tables
    requires CanDecrement(t, o.voucherId)
  {
    Tables(t.stock[o.voucherId := t.stock[o.voucherId] - 1], t.orders + {o})
  }

  /** `CreateOrderListener.createOrder(VoucherOrder)`, one transaction: an
      order for the same user and voucher, or no stock left, ends the call
      with both tables as they were; otherwise the stock is decremented and
      the order inserted. */
  function Consume(t: Tables, o: VoucherOrder): Tables
  {
    if |OrdersOf(t, o.userId, o.voucherId)| > 0 then t
    else if !CanDecrement(t, o.voucherId) then t
    else Placed(t, o)
  }

  /** Delivering the messages `os` one after the other. */
  function ConsumeAll(t: Tables, os: seq<VoucherOrder>): Tables
    decreases |os|
  {
    if os == [] then t else ConsumeAll(Consume(t, os[0]), os[1..])
  }

  /** The guards of `VoucherOrderServiceImpl.createOrder`, in order: any
      order of the user (whatever the voucher), then no stock. `None` when
      the order goes through. */
  function PlaceRejection(t: Tables, voucherId: int, userId: int): (r: Option<string>)
    ensures r.None? <==> OrdersOfUser(t, userId) == {} && CanDecrement(t, voucherId)
  {
    if |OrdersOfUser(t, userId)| > 0 then Some("用户已购买")
    else if !CanDecrement(t, voucherId) then Some("优惠券已售罄")
    else None
  }

  // ---------------------------------------------------------------------
  // Invariants

  predicate StockNonNegative(t: Tables)
  {
    forall v :: v in t.stock ==> t.stock[v] >= 0
  }

  /** "One order per person" as the listener enforces it: per voucher. */
  predicate OneOrderPerUserAndVoucher(t: Tables)
  {
    forall o1, o2 :: o1 in t.orders && o2 in t.orders && o1.userId == o2.userId && o1.voucherId == o2.voucherId ==> o1 == o2
  }

  /** "One order per person" as the synchronous path enforces it: per user. */
  predicate OneOrderPerUser(t: Tables)
  {
    forall o1, o2 :: o1 in t.orders && o2 in t.orders && o1.userId == o2.userId ==> o1 == o2
  }

  /** Stock left plus orders taken: what was put on sale. */
  function Supply(t: Tables, voucherId: int): int
  {
    StockOf(t, voucherId) + |OrdersFor(t, voucherId)|
  }

  // ---------------------------------------------------------------------
  // The listener's step

  /** What one delivery does: the order is inserted exactly when there is
      no order for its user and voucher and the stock is positive, and then
      that voucher's stock drops by one; no other stock row and no other
      order changes. */
  lemma ConsumeEffect(t: Tables, o: VoucherOrder)
    ensures var t' := Consume(t, o);
            var placed := |OrdersOf(t, o.userId, o.voucherId)| == 0 && CanDecrement(t, o.voucherId);
            && (placed ==> o !in t.orders && t'.orders == t.orders + {o}
                           && t'.stock == t.stock[o.voucherId := t.stock[o.voucherId] - 1])
            && (!placed ==> t' == t)
  {
    assert o in t.orders ==> o in OrdersOf(t, o.userId, o.voucherId);
  }

  lemma ConsumeKeepsStockNonNegative(t: Tables, o: VoucherOrder)
    requires StockNonNegative(t)
    ensures StockNonNegative(Consume(t, o))
  {
  }

  lemma ConsumeKeepsOneOrderPerUserAndVoucher(t: Tables, o: VoucherOrder)
    requires OneOrderPerUserAndVoucher(t)
    ensures OneOrderPerUserAndVoucher(Consume(t, o))
  {
    var t' := Consume(t, o);
    forall o1, o2 | o1 in t'.orders && o2 in t'.orders && o1.userId == o2.userId && o1.voucherId == o2.voucherId
      ensures o1 == o2
    {
      assert o1 in t.orders && o1.userId == o.userId && o1.voucherId == o.voucherId ==> o1 in OrdersOf(t, o.userId, o.voucherId);
      assert o2 in t.orders && o2.userId == o.userId && o2.voucherId == o.voucherId ==> o2 in OrdersOf(t, o.userId, o.voucherId);
    }
  }

  /** The orders of one voucher after a delivery. */
  lemma ConsumeOrdersFor(t: Tables, o: VoucherOrder, v: int)
    ensures var t' := Consume(t, o);
            var placed := |OrdersOf(t, o.userId, o.voucherId)| == 0 && CanDecrement(t, o.voucherId);
            OrdersFor(t', v) == if placed && o.voucherId == v then OrdersFor(t, v) + {o} else OrdersFor(t, v)
  {
    ConsumeEffect(t, o);
  }

  /** For every voucher, stock plus the number of its orders is the same
      before and after a delivery. */
  lemma ConsumeConserves(t: Tables, o: VoucherOrder, v: int)
    ensures Supply(Consume(t, o), v) == Supply(t, v)
  {
    ConsumeEffect(t, o);
    ConsumeOrdersFor(t, o, v);
  }

  /** Redelivery: handling a message a second time changes nothing. */
  lemma ConsumeIdempotent(t: Tables, o: VoucherOrder)
    ensures Consume(Consume(t, o), o) == Consume(t, o)
  {
    var t' := Consume(t, o);
    ConsumeEffect(t, o);
    if t' != t {
      assert o in OrdersOf(t', o.userId, o.voucherId);
    }
  }

  /** A set whose elements all agree has at most one element. */
  lemma AtMostOne(s: set<VoucherOrder>)
    requires forall a, b :: a in s && b in s ==> a == b
    ensures |s| <= 1
  {
    if s != {} {
      var x :| x in s;
      assert s == {x};
    }
  }

  /** A message delivered twice leaves at most one order for its user and
      voucher, and no order for them other than its own is added. */
  lemma RedeliveryPlacesAtMostOnce(t: Tables, o: VoucherOrder)
    requires OneOrderPerUserAndVoucher(t)
    ensures var twice := Consume(Consume(t, o), o);
            && |OrdersOf(twice, o.userId, o.voucherId)| <= 1
            && OrdersOf(twice, o.userId, o.voucherId) - {o} == OrdersOf(t, o.userId, o.voucherId) - {o}
  {
    ConsumeIdempotent(t, o);
    ConsumeKeepsOneOrderPerUserAndVoucher(t, o);
    ConsumeEffect(t, o);
    var twice := Consume(Consume(t, o), o);
    AtMostOne(OrdersOf(twice, o.userId, o.voucherId));
  }

  /** All three invariants survive any sequence of deliveries. */
  lemma {:induction false} ConsumeAllKeepsInvariants(t: Tables, os: seq<VoucherOrder>, v: int)
    requires StockNonNegative(t) && OneOrderPerUserAndVoucher(t)
    ensures var t' := ConsumeAll(t, os);
            && StockNonNegative(t') && OneOrderPerUserAndVoucher(t')
            && Supply(t', v) == Supply(t, v)
    decreases |os|
  {
    if os != [] {
      ConsumeKeepsStockNonNegative(t, os[0]);
      ConsumeKeepsOneOrderPerUserAndVoucher(t, os[0]);
      ConsumeConserves(t, os[0], v);
      ConsumeAllKeepsInvariants(Consume(t, os[0]), os[1..], v);
    }
  }

  /** The sale end to end: `k` distinct users who have not bought voucher
      `v` each deliver one order for it while `n` units are in stock; then
      `min(n, k)` orders are added and `max(0, n - k)` units remain. */
  lemma {:induction false} ConsumeAllSells(t: Tables, os: seq<VoucherOrder>, v: int)
    requires v in t.stock && t.stock[v] >= 0
    requires forall i :: 0 <= i < |os| ==> os[i].voucherId == v && OrdersOf(t, os[i].userId, v) == {}
    requires forall i, j :: 0 <= i < j < |os| ==> os[i].userId != os[j].userId
    ensures var t' := ConsumeAll(t, os);
            && v in t'.stock
            && t'.stock[v] == (if t.stock[v] >= |os| then t.stock[v] - |os| else 0)
            && |OrdersFor(t', v)| == |OrdersFor(t, v)| + (if t.stock[v] >= |os| then |os| else t.stock[v])
    decreases |os|
  {
    if os != [] {
      var o := os[0];
      var t1 := Consume(t, o);
      ConsumeEffect(t, o);
      ConsumeConserves(t, o, v);
      forall i | 0 <= i < |os[1..]|
        ensures os[1..][i].voucherId == v && OrdersOf(t1, os[1..][i].userId, v) == {}
      {
        var u := os[i + 1].userId;
        assert u != o.userId;
        assert OrdersOf(t1, u, v) <= OrdersOf(t, u, v);
      }
      ConsumeAllSells(t1, os[1..], v);
    }
  }

  // ---------------------------------------------------------------------
  // The synchronous order path

  /** An order that passes `createOrder`'s guards keeps every user at one
      order at most, the stock non-negative and the supply unchanged. */
  lemma PlaceKeepsInvariants(t: Tables, id: int, userId: int, voucherId: int, v: int)
    requires StockNonNegative(t) && OneOrderPerUser(t)
    requires PlaceRejection(t, voucherId, userId).None?
    ensures var t' := Placed(t, VoucherOrder(id, userId, voucherId));
            && StockNonNegative(t') && OneOrderPerUser(t')
            && Supply(t', v) == Supply(t, v)
  {
    var o := VoucherOrder(id, userId, voucherId);
    var t' := Placed(t, o);
    assert o in t.orders ==> o in OrdersOfUser(t, userId);
    forall o1, o2 | o1 in t'.orders && o2 in t'.orders && o1.userId == o2.userId
      ensures o1 == o2
    {
      assert o1 in t.orders && o1.userId == userId ==> o1 in OrdersOfUser(t, userId);
      assert o2 in t.orders && o2.userId == userId ==> o2 in OrdersOfUser(t, userId);
    }
    assert OrdersFor(t', v) == if voucherId == v then OrdersFor(t, v) + {o} else OrdersFor(t, v);
  }

  /** The synchronous guard counts the user's orders of every voucher: a
      user who holds an order of any voucher is refused every voucher, even
      one with stock left (the listener's guard is per voucher). */
  lemma PlaceRefusesAnyPriorOrder(t: Tables, prior: VoucherOrder, voucherId: int)
    requires prior in t.orders
    ensures PlaceRejection(t, voucherId, prior.userId) == Some("用户已购买")
  {
    assert prior in OrdersOfUser(t, prior.userId);
  }

  /** The synchronous path's guard is stricter than the listener's: an order
      it lets through would also be inserted by the listener. */
  lemma PlaceAgreesWithConsume(t: Tables, id: int, userId: int, voucherId: int)
    requires PlaceRejection(t, voucherId, userId).None?
    ensures Consume(t, VoucherOrder(id, userId, voucherId)) == Placed(t, VoucherOrder(id, userId, voucherId))
  {
    assert OrdersOf(t, userId, voucherId) <= OrdersOfUser(t, userId);
  }

  // ---------------------------------------------------------------------
  // The database as the services reach it

  class OrderTables {
    var stock: map<int, int>
    var orders: set<VoucherOrder>

    constructor (stock: map<int, int>, orders: set<VoucherOrder>)
      ensures this.stock == stock && this.orders == orders
    {
      this.stock, this.orders := stock, orders;
    }

    function Snapshot(): Tables
      reads this
    {
      Tables(stock, orders)
    }

    /** `query().eq("user_id", u).eq("voucher_id", v).count()`. */
    method CountByUserAndVoucher(userId: int, voucherId: int) returns (count: nat)
      ensures count == |OrdersOf(Snapshot(), userId, voucherId)|
    {
      count := |set o | o in orders && o.userId == userId && o.voucherId == voucherId|;
    }

    /** `query().eq("user_id", u).count()`. */
    method CountByUser(userId: int) returns (count: nat)
      ensures count == |OrdersOfUser(Snapshot(), userId)|
    {
      count := |set o | o in orders && o.userId == userId|;
    }

    /** The conditional decrement; `updated` says whether a row matched. */
    method DecrementStock(voucherId: int) returns (updated: bool)
      modifies this`stock
      ensures updated <==> CanDecrement(old(Snapshot()), voucherId)
      ensures stock == if updated then old(stock)[voucherId := old(stock)[voucherId] - 1] else old(stock)
    {
      updated := voucherId in stock && stock[voucherId] > 0;
      if updated {
        stock := stock[voucherId := stock[voucherId] - 1];
      }
    }

    /** `save(order)`. */
    method Save(o: VoucherOrder)
      modifies this`orders
      ensures orders == old(orders) + {o}
    {
      orders := orders + {o};
    }
  }
}
