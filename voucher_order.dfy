/** `VoucherOrderServiceImpl`: flash-sale ("seckill") vouchers. A request is
    refused outside the sale window or when the stock is gone; otherwise one
    order per user and voucher is created, with a conditional stock decrement
    and an order id from `RedisIdWorker`. Both database tables are maps; the
    transaction rolls the database back when an exception escapes, while the
    Redis counter, outside the transaction, keeps its increment. */
module VoucherOrder {
  import opened Common
  import opened Store
  import opened IdWorker

  /** A row of `tb_seckill_voucher`; times are epoch seconds. */
  datatype SeckillVoucher = SeckillVoucher(voucherId: Long, stock: int, beginTime: int, endTime: int)

  /** A row of `tb_voucher_order`. */
  datatype VoucherOrder = VoucherOrder(id: Long, userId: Long, voucherId: Long)

  /** The two tables, by primary key. */
  datatype Db = Db(vouchers: map<Long, SeckillVoucher>, orders: map<Long, VoucherOrder>)

  const NOT_STARTED: string := "秒杀尚未开始"
  const ENDED: string := "秒杀已经结束"
  const OUT_OF_STOCK: string := "库存不足"
  const ALREADY_ORDERED: string := "用户已经购买过一次！"
  const DECREMENT_FAILED: string := "库存不足！"
  /** The `keyPrefix` of order ids. */
  const ORDER_PREFIX: string := "order"

  /** The orders of one user for one voucher (`query().eq(user_id).eq(voucher_id)`). */
  function OrdersOf(orders: map<Long, VoucherOrder>, userId: Long, voucherId: Long): set<Long> {
    set k | k in orders && orders[k].userId == userId && orders[k].voucherId == voucherId
  }

  /** The orders of one voucher. */
  function OrdersFor(orders: map<Long, VoucherOrder>, voucherId: Long): set<Long> {
    set k | k in orders && orders[k].voucherId == voucherId
  }

  /** What a request returns, and the tables and store it leaves. */
  datatype Step = Step(outcome: Outcome<Response<Long>>, db: Db, kv: Kv)

  /** `createVoucherOrder(voucherId)` for the user `userId`, at epoch second
      `now` on the day `date` (`yyyy:MM:dd`). An exception rolls the tables
      back but not the Redis counter. */
  function CreateOrder(db: Db, kv: Kv, clock: int, userId: Long, voucherId: Long, now: Long, date: string): (r: Step)
    ensures |OrdersOf(db.orders, userId, voucherId)| > 0 ==> r == Step(Return(Fail(ALREADY_ORDERED)), db, kv)
    ensures r.db != db ==> && voucherId in db.vouchers && db.vouchers[voucherId].stock > 0
                           && r.db.vouchers == db.vouchers[voucherId := db.vouchers[voucherId].(stock := db.vouchers[voucherId].stock - 1)]
                           && r.outcome.Return? && r.outcome.value.Ok? && r.outcome.value.data.Some?
                           && var id := r.outcome.value.data.value;
                              id !in db.orders && r.db.orders == db.orders[id := VoucherOrder(id, userId, voucherId)]
    ensures r.outcome.Return? && r.outcome.value.Ok? ==> r.db != db
    ensures r.kv - {CounterKey(ORDER_PREFIX, date)} == kv - {CounterKey(ORDER_PREFIX, date)}
    ensures |OrdersOf(db.orders, userId, voucherId)| == 0 && (voucherId !in db.vouchers || db.vouchers[voucherId].stock <= 0)
            ==> r == Step(Return(Fail(DECREMENT_FAILED)), db, kv)
    ensures |OrdersOf(db.orders, userId, voucherId)| == 0 && voucherId in db.vouchers && db.vouchers[voucherId].stock > 0 ==>
            var next := NextIdStep(kv, clock, ORDER_PREFIX, now, date);
            && r.kv == next.1
            && (next.0.Throw? ==> r == Step(Throw(next.0.failure), db, next.1))
            && (next.0.Return? && next.0.value in db.orders ==> r == Step(Throw(DuplicateKey), db, next.1))
            && (next.0.Return? && next.0.value !in db.orders ==> r.outcome == Return(Ok(Some(next.0.value))))
  {
    if |OrdersOf(db.orders, userId, voucherId)| > 0 then Step(Return(Fail(ALREADY_ORDERED)), db, kv)
    else if voucherId !in db.vouchers || db.vouchers[voucherId].stock <= 0 then Step(Return(Fail(DECREMENT_FAILED)), db, kv)
    else
      var (orderId, kv1) := NextIdStep(kv, clock, ORDER_PREFIX, now, date);
      match orderId
      case Throw(f) => Step(Throw(f), db, kv1)
      case Return(id) =>
        if id in db.orders then Step(Throw(DuplicateKey), db, kv1)
        else
          var v := db.vouchers[voucherId];
          Step(Return(Ok(Some(id))),
               Db(db.vouchers[voucherId := v.(stock := v.stock - 1)], db.orders[id := VoucherOrder(id, userId, voucherId)]),
               kv1)
  }

  /** `seckillVoucher(voucherId)`: a missing voucher is dereferenced, which throws
      in Java; then the window is checked at both ends, inclusively, and the
      stock; only then is the order created. */
  function Seckill(db: Db, kv: Kv, clock: int, userId: Long, voucherId: Long, now: Long, date: string): (r: Step)
    ensures voucherId !in db.vouchers ==> r == Step(Throw(NullReference), db, kv)
    ensures voucherId in db.vouchers && now < db.vouchers[voucherId].beginTime ==> r == Step(Return(Fail(NOT_STARTED)), db, kv)
    ensures voucherId in db.vouchers && db.vouchers[voucherId].beginTime <= now && db.vouchers[voucherId].endTime < now
            ==> r == Step(Return(Fail(ENDED)), db, kv)
    ensures (voucherId in db.vouchers && db.vouchers[voucherId].beginTime <= now <= db.vouchers[voucherId].endTime
             && db.vouchers[voucherId].stock < 1) ==> r == Step(Return(Fail(OUT_OF_STOCK)), db, kv)
    ensures (voucherId in db.vouchers && db.vouchers[voucherId].beginTime <= now <= db.vouchers[voucherId].endTime
             && db.vouchers[voucherId].stock >= 1) ==> r == CreateOrder(db, kv, clock, userId, voucherId, now, date)
    ensures r.db != db ==> voucherId in db.vouchers && db.vouchers[voucherId].beginTime <= now <= db.vouchers[voucherId].endTime
  {
    if voucherId !in db.vouchers then Step(Throw(NullReference), db, kv)
    else
      var voucher := db.vouchers[voucherId];
      if voucher.beginTime > now then Step(Return(Fail(NOT_STARTED)), db, kv)
      else if voucher.endTime < now then Step(Return(Fail(ENDED)), db, kv)
      else if voucher.stock < 1 then Step(Return(Fail(OUT_OF_STOCK)), db, kv)
      else CreateOrder(db, kv, clock, userId, voucherId, now, date)
  }

  /** Both ends of the window admit: at `beginTime` and at `endTime` the
      request reaches the order logic. */
  lemma WindowInclusive(db: Db, kv: Kv, clock: int, userId: Long, voucherId: Long, date: string)
    requires voucherId in db.vouchers && db.vouchers[voucherId].stock >= 1
    requires var v := db.vouchers[voucherId]; v.beginTime <= v.endTime && LONG_MIN <= v.beginTime && v.endTime <= LONG_MAX
    ensures var v := db.vouchers[voucherId];
            && Seckill(db, kv, clock, userId, voucherId, v.beginTime, date) == CreateOrder(db, kv, clock, userId, voucherId, v.beginTime, date)
            && Seckill(db, kv, clock, userId, voucherId, v.endTime, date) == CreateOrder(db, kv, clock, userId, voucherId, v.endTime, date)
  {
  }

  /** At most one order per user and voucher. */
  predicate OnePerUser(orders: map<Long, VoucherOrder>) {
    forall k1, k2 :: k1 in orders && k2 in orders && k1 != k2 ==>
      (orders[k1].userId, orders[k1].voucherId) != (orders[k2].userId, orders[k2].voucherId)
  }

  /** Every unit of a voucher's initial stock is either left or in exactly one order. */
  predicate StockAccounted(initial: map<Long, int>, db: Db)
    requires db.vouchers.Keys == initial.Keys
  {
    forall v :: v in db.vouchers ==> initial[v] == db.vouchers[v].stock + |OrdersFor(db.orders, v)|
  }

  /** The tables' invariant, against the stock each voucher started with:
      every row under its own key, stock never negative, stock accounted for,
      and at most one order per user and voucher. */
  predicate Consistent(initial: map<Long, int>, db: Db) {
    && db.vouchers.Keys == initial.Keys
    && (forall v :: v in db.vouchers ==> db.vouchers[v].voucherId == v && db.vouchers[v].stock >= 0)
    && (forall k :: k in db.orders ==> db.orders[k].id == k && db.orders[k].voucherId in db.vouchers)
    && StockAccounted(initial, db)
    && OnePerUser(db.orders)
  }

  /** Adding an order of voucher `voucherId` grows that voucher's orders by one
      and no other voucher's. */
  lemma OrdersForInsert(orders: map<Long, VoucherOrder>, id: Long, o: VoucherOrder, v: Long)
    requires id !in orders
    ensures OrdersFor(orders[id := o], v) == OrdersFor(orders, v) + (if o.voucherId == v then {id} else {})
    ensures |OrdersFor(orders[id := o], v)| == |OrdersFor(orders, v)| + (if o.voucherId == v then 1 else 0)
  {
    var after := OrdersFor(orders[id := o], v);
    var before := OrdersFor(orders, v);
    assert after == before + (if o.voucherId == v then {id} else {});
    assert id !in before;
  }

  /** Moving one unit of stock into a new order keeps the stock accounted for. */
  lemma InsertKeepsStockAccounted(initial: map<Long, int>, db: Db, id: Long, o: VoucherOrder)
    requires db.vouchers.Keys == initial.Keys && StockAccounted(initial, db)
    requires o.voucherId in db.vouchers && id !in db.orders
    ensures var v := db.vouchers[o.voucherId];
            StockAccounted(initial, Db(db.vouchers[o.voucherId := v.(stock := v.stock - 1)], db.orders[id := o]))
  {
    var v0 := db.vouchers[o.voucherId];
    var after := Db(db.vouchers[o.voucherId := v0.(stock := v0.stock - 1)], db.orders[id := o]);
    forall v | v in after.vouchers
      ensures initial[v] == after.vouchers[v].stock + |OrdersFor(after.orders, v)|
    {
      OrdersForInsert(db.orders, id, o, v);
    }
  }

  /** An order for a user who has none of that voucher keeps one order per user. */
  lemma InsertKeepsOnePerUser(orders: map<Long, VoucherOrder>, id: Long, o: VoucherOrder)
    requires OnePerUser(orders) && id !in orders && OrdersOf(orders, o.userId, o.voucherId) == {}
    ensures OnePerUser(orders[id := o])
  {
    var after := orders[id := o];
    forall k1, k2 | k1 in after && k2 in after && k1 != k2
      ensures (after[k1].userId, after[k1].voucherId) != (after[k2].userId, after[k2].voucherId)
    {
      if k1 == id {
        assert k2 !in OrdersOf(orders, o.userId, o.voucherId);
      } else if k2 == id {
        assert k1 !in OrdersOf(orders, o.userId, o.voucherId);
      }
    }
  }

  /** Taking one unit of a voucher's stock into a new order, for a user
      without an order of it, keeps the tables consistent. */
  lemma InsertKeepsConsistent(initial: map<Long, int>, db: Db, id: Long, userId: Long, voucherId: Long)
    requires Consistent(initial, db)
    requires voucherId in db.vouchers && db.vouchers[voucherId].stock > 0
    requires id !in db.orders && OrdersOf(db.orders, userId, voucherId) == {}
    ensures var v := db.vouchers[voucherId];
            Consistent(initial, Db(db.vouchers[voucherId := v.(stock := v.stock - 1)], db.orders[id := VoucherOrder(id, userId, voucherId)]))
  {
    var o := VoucherOrder(id, userId, voucherId);
    InsertKeepsStockAccounted(initial, db, id, o);
    InsertKeepsOnePerUser(db.orders, id, o);
  }

  /** Every request keeps the tables consistent: no overselling, no lost
      stock, no second order for a user. */
  lemma SeckillKeepsConsistent(initial: map<Long, int>, db: Db, kv: Kv, clock: int, userId: Long, voucherId: Long, now: Long, date: string)
    requires Consistent(initial, db)
    ensures Consistent(initial, Seckill(db, kv, clock, userId, voucherId, now, date).db)
  {
    var r := Seckill(db, kv, clock, userId, voucherId, now, date);
    if r.db != db {
      assert r == CreateOrder(db, kv, clock, userId, voucherId, now, date);
      assert |OrdersOf(db.orders, userId, voucherId)| == 0;
      InsertKeepsConsistent(initial, db, r.outcome.value.data.value, userId, voucherId);
    }
  }

  /** A request of the sale: who asks, for what, and the clock and date it reads. */
  datatype Request = Request(userId: Long, voucherId: Long, clock: int, now: Long, date: string)

  /** Requests served one after another, each at its own store time and
      seeing the tables and store the previous one left. */
  function RunAll(db: Db, kv: Kv, requests: seq<Request>): (r: (Db, Kv))
    decreases |requests|
  {
    if requests == [] then (db, kv)
    else
      var q := requests[0];
      var s := Seckill(db, kv, q.clock, q.userId, q.voucherId, q.now, q.date);
      RunAll(s.db, s.kv, requests[1..])
  }

  /** Over any run of requests the tables stay consistent: every voucher's
      orders plus its remaining stock equal its initial stock, so a voucher
      never sells more than it had, and no user holds two orders of one voucher. */
  lemma {:induction false} RunKeepsConsistent(initial: map<Long, int>, db: Db, kv: Kv, requests: seq<Request>)
    requires Consistent(initial, db)
    ensures Consistent(initial, RunAll(db, kv, requests).0)
    ensures forall v :: v in initial ==> |OrdersFor(RunAll(db, kv, requests).0.orders, v)| <= initial[v]
    decreases |requests|
  {
    if requests != [] {
      var q := requests[0];
      var s := Seckill(db, kv, q.clock, q.userId, q.voucherId, q.now, q.date);
      SeckillKeepsConsistent(initial, db, kv, q.clock, q.userId, q.voucherId, q.now, q.date);
      RunKeepsConsistent(initial, s.db, s.kv, requests[1..]);
    }
  }

  /** A user's second request for a voucher, after a successful first one, is
      refused and changes nothing. */
  lemma SecondOrderRefused(db: Db, kv: Kv, clock: int, userId: Long, voucherId: Long, now1: Long, now2: Long, date: string)
    requires var first := Seckill(db, kv, clock, userId, voucherId, now1, date);
             first.outcome.Return? && first.outcome.value.Ok?
    ensures var first := Seckill(db, kv, clock, userId, voucherId, now1, date);
            var second := CreateOrder(first.db, first.kv, clock, userId, voucherId, now2, date);
            second == Step(Return(Fail(ALREADY_ORDERED)), first.db, first.kv)
  {
    var first := Seckill(db, kv, clock, userId, voucherId, now1, date);
    var id := first.outcome.value.data.value;
    assert id in OrdersOf(first.db.orders, userId, voucherId);
  }

  /** `VoucherOrderServiceImpl`: the shared store, the id worker on it, and the two tables. */
  class VoucherOrderService {
    const redis: Redis
    const redisIdWorker: RedisIdWorker
    var vouchers: map<Long, SeckillVoucher>
    var orders: map<Long, VoucherOrder>

    constructor(redis: Redis, vouchers: map<Long, SeckillVoucher>)
      ensures this.redis == redis && redisIdWorker.redis == redis
      ensures this.vouchers == vouchers && orders == map[]
    {
      this.redis := redis;
      redisIdWorker := new RedisIdWorker(redis);
      this.vouchers := vouchers;
      orders := map[];
    }

    /** `seckillVoucher(voucherId)` by `userId` (`UserHolder.getUser().getId()`)
        at epoch second `now`, on the day `date`. */
    method SeckillVoucher(userId: Long, voucherId: Long, now: Long, date: string) returns (r: Outcome<Response<Long>>)
      requires redisIdWorker.redis == redis
      modifies this, redis
      ensures var s := Seckill(Db(old(vouchers), old(orders)), old(redis.kv), redis.clock, userId, voucherId, now, date);
              r == s.outcome && Db(vouchers, orders) == s.db && redis.kv == s.kv
      ensures redis.clock == old(redis.clock)
    {
      if voucherId !in vouchers {
        return Throw(NullReference);
      }
      var seckillVoucher := vouchers[voucherId];
      if seckillVoucher.beginTime > now {
        return Return(Fail(NOT_STARTED));
      }
      if seckillVoucher.endTime < now {
        return Return(Fail(ENDED));
      }
      if seckillVoucher.stock < 1 {
        return Return(Fail(OUT_OF_STOCK));
      }
      r := CreateVoucherOrder(userId, voucherId, now, date);
    }

    /** `createVoucherOrder(voucherId)`; the transaction's rollback restores the stock. */
    method CreateVoucherOrder(userId: Long, voucherId: Long, now: Long, date: string) returns (r: Outcome<Response<Long>>)
      requires redisIdWorker.redis == redis
      modifies this, redis
      ensures var s := CreateOrder(Db(old(vouchers), old(orders)), old(redis.kv), redis.clock, userId, voucherId, now, date);
              r == s.outcome && Db(vouchers, orders) == s.db && redis.kv == s.kv
      ensures redis.clock == old(redis.clock)
    {
      var count := |OrdersOf(orders, userId, voucherId)|;
      if count > 0 {
        return Return(Fail(ALREADY_ORDERED));
      }
      var success := voucherId in vouchers && vouchers[voucherId].stock > 0;
      if !success {
        return Return(Fail(DECREMENT_FAILED));
      }
      var snapshot := vouchers;
      vouchers := vouchers[voucherId := vouchers[voucherId].(stock := vouchers[voucherId].stock - 1)];
      var orderId := redisIdWorker.NextId(ORDER_PREFIX, now, date);
      if orderId.Throw? {
        vouchers := snapshot;
        return Throw(orderId.failure);
      }
      var id := orderId.value;
      if id in orders {
        vouchers := snapshot;
        return Throw(DuplicateKey);
      }
      orders := orders[id := VoucherOrder(id, userId, voucherId)];
      r := Return(Ok(Some(id)));
    }
  }
}
