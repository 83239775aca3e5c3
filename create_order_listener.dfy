/** `com.hmdp.listener.CreateOrderListener`: the consumer of the order
    queue, which turns each message into at most one order row. */
module OrderListener {
  import opened Json
  import opened Orders

  /** A message the seckill path publishes is consumed as the order it
      describes. */
  lemma PublishedOrderIsConsumed(codec: Codec<VoucherOrder>, t: Tables, o: VoucherOrder)
    requires Lawful(codec)
    ensures Consume(t, codec.decode(codec.encode(o))) == Consume(t, o)
  {
  }

  class CreateOrderListener {
    const db: OrderTables
    const orderCodec: Codec<VoucherOrder>

    constructor (db: OrderTables, orderCodec: Codec<VoucherOrder>)
      ensures this.db == db && this.orderCodec == orderCodec
    {
      this.db, this.orderCodec := db, orderCodec;
    }

    /** `createOrder(String msg)`: decodes the message and hands the order to
        the transactional handler (through the proxy). */
    method CreateOrderFromMessage(msg: string)
      modifies db
      ensures db.Snapshot() == Consume(old(db.Snapshot()), orderCodec.decode(msg))
    {
      var order := orderCodec.decode(msg);
      CreateOrder(order);
    }

    /** `@Transactional createOrder(VoucherOrder)`: the duplicate guard on
        user and voucher, the conditional decrement, then the insert, as
        one atomic step. */
    method CreateOrder(voucherOrder: VoucherOrder)
      modifies db
      ensures db.Snapshot() == Consume(old(db.Snapshot()), voucherOrder)
    {
      var count := db.CountByUserAndVoucher(voucherOrder.userId, voucherOrder.voucherId);
      if count > 0 {
        // log.error: the user already holds this voucher
        return;
      }
      var update := db.DecrementStock(voucherOrder.voucherId);
      if !update {
        // log.error: out of stock
        return;
      }
      db.Save(voucherOrder);
    }
  }
}
