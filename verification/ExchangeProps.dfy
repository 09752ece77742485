// What every exchange operation keeps, and why the price index may replace the full scan.
module ExchangeProps {
  import opened Types
  import opened Arith
  import opened BookL2
  import opened BookL3
  import opened QueueModels
  import opened Exchanges

  // ---- Operations as data --------------------------------------------------------------------

  datatype ExOp =
    | OpL2(l2: L2Update)
    | OpL3(l3: L3Update)
    | OpSubmit(order: Order)
    | OpAckNew(id: int)
    | OpCancel(id: int)
    | OpAckCancel(id: int)
    | OpFillMarket(id: int, fallback: Option<int>)
    | OpForceCancel(id: int)
    | OpRemove(id: int)
    | OpTrade(trade: Tick)

  function Answer(ex: Exchange, r: Option<(Exchange, OrderReport)>): (Exchange, seq<OrderReport>) {
    match r
    case None => (ex, [])
    case Some((ex', report)) => (ex', [report])
  }

  // The exchange after an operation, and the reports it hands back; a refused operation does nothing.
  function Apply(m: QueueModel, ex: Exchange, op: ExOp): (Exchange, seq<OrderReport>) {
    match op
    case OpL2(u) => (UpdateL2(ex, u), [])
    case OpL3(u) => (if UpdateL3(ex, u).Some? then UpdateL3(ex, u).value else ex, [])
    case OpSubmit(order) => (Submit(m, ex, order), [])
    case OpAckNew(id) => Answer(ex, AckNew(ex, id))
    case OpCancel(id) => (if Cancel(ex, id).Some? then Cancel(ex, id).value else ex, [])
    case OpAckCancel(id) => Answer(ex, AckCancel(ex, id))
    case OpFillMarket(id, fallback) => Answer(ex, FillMarket(ex, id, fallback))
    case OpForceCancel(id) => Answer(ex, ForceCancel(ex, id))
    case OpRemove(id) => (Remove(ex, id), [])
    case OpTrade(trade) => OnTrade(ex, trade)
  }

  // What the engine guarantees when it calls each operation.
  ghost predicate Allowed(ex: Exchange, op: ExOp) {
    match op
    case OpL2(u) => u.qty >= 0
    case OpSubmit(order) => order.qty > 0 && forall id :: id in ex.orders ==> id < order.orderId
    case OpFillMarket(id, _) => id in ex.orders ==> ex.orders[id].state == PendingNew
    case OpForceCancel(id) => id in ex.orders ==> ex.orders[id].state == PartiallyFilled
    case _ => true
  }

  // ---- The invariant ---------------------------------------------------------------------------

  // Filled and remaining quantity always add up to the order, and agree with its state.
  ghost predicate GoodOrder(id: int, o: LiveOrder) {
    && o.order.orderId == id
    && o.filled + o.remaining == o.order.qty
    && o.filled >= 0 && o.remaining >= 0 && o.order.qty > 0
    && GoodQ(o.q) && ClaimOk(o.remaining, o.q)
    && match o.state
       case Created => false
       case PendingNew => o.filled == 0
       case Open => o.filled == 0
       case PartiallyFilled => o.filled > 0 && o.remaining > 0
       case PendingCancel => o.remaining > 0
       case Cancelled => o.remaining > 0
       case Filled => o.remaining == 0
       case Rejected => o.filled == 0
  }

  ghost predicate GoodOrders(orders: OrderMap) {
    forall id :: id in orders ==> GoodOrder(id, orders[id])
  }

  ghost predicate GoodBooks(ex: Exchange) {
    GoodL2(ex.book) && (ex.bookL3.Some? ==> GoodL3(ex.bookL3.value))
  }

  ghost predicate Ascending(ids: seq<int>) {
    forall i, j :: 0 <= i < j < |ids| ==> ids[i] < ids[j]
  }

  // Each bucket lists exactly the orders at its price and side, once, in ascending id order.
  ghost predicate BucketsOk(orders: OrderMap, buckets: Buckets) {
    forall key: (int, Side) :: BucketOk(orders, buckets, key)
  }

  ghost predicate BucketOk(orders: OrderMap, buckets: Buckets, key: (int, Side)) {
    && Ascending(BucketAt(buckets, key))
    && forall id :: id in BucketAt(buckets, key) <==> id in orders && Key(orders[id].order) == key
  }

  ghost predicate GoodExchange(ex: Exchange) {
    GoodOrders(ex.orders) && GoodBooks(ex) && BucketsOk(ex.orders, ex.buckets)
  }

  lemma {:induction false} NewIsGood(l3: bool)
    ensures GoodExchange(NewExchange(l3))
  {
  }

  // ---- One trade, order by order -----------------------------------------------------------

  ghost predicate Distinct(ids: seq<int>) {
    forall i, j :: 0 <= i < j < |ids| ==> ids[i] != ids[j]
  }

  // The reports of a list of orders, each offered the same trade from the same starting state.
  function Collected(orders: OrderMap, trade: Tick, ids: seq<int>): seq<OrderReport> {
    if ids == [] then []
    else (if ids[0] in orders then Offer(orders[ids[0]], trade).1 else []) + Collected(orders, trade, ids[1..])
  }

  lemma {:induction false} CollectedSame(a: OrderMap, b: OrderMap, trade: Tick, ids: seq<int>)
    requires forall id :: id in ids ==> (id in a <==> id in b) && (id in a ==> a[id] == b[id])
    ensures Collected(a, trade, ids) == Collected(b, trade, ids)
  {
    hide Offer;
    if ids != [] {
      var id := ids[0];
      assert id in ids;
      assert (id in a <==> id in b) && (id in a ==> a[id] == b[id]);
      CollectedSame(a, b, trade, ids[1..]);
    }
  }

  // Walking a list of distinct orders changes each of them exactly as offering it alone would.
  lemma {:induction false} FillIdsPointwise(orders: OrderMap, trade: Tick, ids: seq<int>)
    requires Distinct(ids)
    ensures
      var (orders', reports) := FillIds(orders, trade, ids);
      && orders'.Keys == orders.Keys
      && (forall id :: id in orders ==> orders'[id] == if id in ids then Offer(orders[id], trade).0 else orders[id])
      && reports == Collected(orders, trade, ids)
  {
    hide Offer;
    if ids != [] {
      var first := FillOne(orders, trade, ids[0]).0;
      FillIdsPointwise(first, trade, ids[1..]);
      CollectedSame(first, orders, trade, ids[1..]);
    }
  }

  lemma {:induction false} NoHitNoChange(o: LiveOrder, trade: Tick)
    requires !(o.order.price == trade.price && o.order.side == MakerSide(trade.side) && trade.side != NoSide)
    ensures Offer(o, trade) == (o, [])
  {
  }

  lemma {:induction false} AscendingDistinct(ids: seq<int>)
    requires Ascending(ids)
    ensures Distinct(ids)
  {
  }

  // A trade changes every order as if it alone had been offered the trade.
  lemma {:induction false} TradePointwise(ex: Exchange, trade: Tick)
    requires BucketsOk(ex.orders, ex.buckets)
    ensures
      var (ex', reports) := OnTrade(ex, trade);
      && ex' == ex.(orders := ex'.orders)
      && ex'.orders.Keys == ex.orders.Keys
      && (forall id :: id in ex.orders ==> ex'.orders[id] == Offer(ex.orders[id], trade).0)
      && reports == if trade.side == NoSide then []
                    else Collected(ex.orders, trade, BucketAt(ex.buckets, (trade.price, MakerSide(trade.side))))
  {
    hide Offer, FillIds, Collected;
    var key := (trade.price, MakerSide(trade.side));
    var ids := BucketAt(ex.buckets, key);
    assert BucketOk(ex.orders, ex.buckets, key);
    AscendingDistinct(ids);
    FillIdsPointwise(ex.orders, trade, ids);
    forall id | id in ex.orders && (id !in ids || trade.side == NoSide)
      ensures Offer(ex.orders[id], trade) == (ex.orders[id], [])
    {
      NoHitNoChange(ex.orders[id], trade);
    }
  }

  // ---- How much one trade fills in all ------------------------------------------------------

  function TradedQty(rs: seq<OrderReport>): int {
    if rs == [] then 0 else rs[0].lastFillQty + TradedQty(rs[1..])
  }

  // What is left of the whole trade behind the quantity ahead, as far as the order goes.
  function Share(o: LiveOrder, trade: Tick): int {
    if o.remaining > 0 && Matchable(o.state) && Hits(o.order, trade) && !o.q.QNone?
    then Min(o.remaining, Max(0, trade.qty - AheadOf(o.q)))
    else 0
  }

  function Shares(orders: OrderMap, trade: Tick, ids: seq<int>): int {
    if ids == [] then 0
    else (if ids[0] in orders then Share(orders[ids[0]], trade) else 0) + Shares(orders, trade, ids[1..])
  }

  lemma {:induction false} TradedAppend(a: seq<OrderReport>, b: seq<OrderReport>)
    ensures TradedQty(a + b) == TradedQty(a) + TradedQty(b)
  {
    if a == [] {
      assert a + b == b;
    } else {
      assert (a + b)[0] == a[0] && (a + b)[1..] == a[1..] + b;
      TradedAppend(a[1..], b);
    }
  }

  lemma {:induction false} OfferShare(id: int, o: LiveOrder, trade: Tick)
    requires GoodOrder(id, o)
    ensures TradedQty(Offer(o, trade).1) == Share(o, trade)
  {
    if o.remaining > 0 && Hits(o.order, trade) {
      FillsBehindQueue(o.order, o.remaining, trade, o.q);
    }
    hide FillFrom, GoodQ, ClaimOk, AheadOf, Hits;
    var rs := Offer(o, trade).1;
    assert TradedQty([]) == 0;
    if rs != [] {
      assert rs == [rs[0]] && [rs[0]][1..] == [];
    }
  }

  lemma {:induction false} CollectedShares(orders: OrderMap, trade: Tick, ids: seq<int>)
    requires GoodOrders(orders)
    ensures TradedQty(Collected(orders, trade, ids)) == Shares(orders, trade, ids)
  {
    hide Offer, Share, GoodOrder;
    assert TradedQty([]) == 0;
    if ids != [] {
      var first := if ids[0] in orders then Offer(orders[ids[0]], trade).1 else [];
      TradedAppend(first, Collected(orders, trade, ids[1..]));
      CollectedShares(orders, trade, ids[1..]);
      if ids[0] in orders {
        OfferShare(ids[0], orders[ids[0]], trade);
      }
    }
  }

  // Under every queue model a trade fills of the own orders, in all, the sum of their shares over the
  // bucket.
  lemma {:induction false} TradeFillsShares(ex: Exchange, trade: Tick)
    requires GoodExchange(ex) && trade.side != NoSide
    ensures
      var ids := BucketAt(ex.buckets, (trade.price, MakerSide(trade.side)));
      TradedQty(OnTrade(ex, trade).1) == Shares(ex.orders, trade, ids)
  {
    hide OnTrade, Shares, TradedQty, Collected, BucketsOk;
    TradePointwise(ex, trade);
    CollectedShares(ex.orders, trade, BucketAt(ex.buckets, (trade.price, MakerSide(trade.side))));
  }

  // ---- The price index against the full scan ------------------------------------------------

  function SortedIds(ids: set<int>): seq<int> {
    if ids == {} then []
    else
      var least := FirstKey(ids);
      [least] + SortedIds(ids - {least})
  }

  lemma {:induction false} SortedIdsFacts(ids: set<int>)
    ensures Ascending(SortedIds(ids))
    ensures forall id :: id in SortedIds(ids) <==> id in ids
  {
    if ids != {} {
      var least := FirstKey(ids);
      var rest := SortedIds(ids - {least});
      SortedIdsFacts(ids - {least});
      forall i | 0 <= i < |rest| ensures least < rest[i] {
        assert rest[i] in rest;
        assert rest[i] in ids - {least};
      }
    }
  }

  function Keep(ids: seq<int>, orders: OrderMap, key: (int, Side)): seq<int> {
    if ids == [] then []
    else (if ids[0] in orders && Key(orders[ids[0]].order) == key then [ids[0]] else [])
         + Keep(ids[1..], orders, key)
  }

  lemma {:induction false} KeepFacts(ids: seq<int>, orders: OrderMap, key: (int, Side))
    requires Ascending(ids)
    ensures Ascending(Keep(ids, orders, key))
    ensures forall id :: id in Keep(ids, orders, key) <==>
              id in ids && id in orders && Key(orders[id].order) == key
  {
    if ids != [] {
      KeepFacts(ids[1..], orders, key);
      var rest := Keep(ids[1..], orders, key);
      forall i | 0 <= i < |rest| ensures ids[0] < rest[i] {
        assert rest[i] in rest;
        assert rest[i] in ids[1..];
      }
    }
  }

  // An ascending sequence is determined by its elements.
  lemma {:induction false} AscendingUnique(a: seq<int>, b: seq<int>)
    requires Ascending(a) && Ascending(b)
    requires forall id :: id in a <==> id in b
    ensures a == b
  {
    if a != [] {
      assert a[0] in a;
    }
    if b != [] {
      assert b[0] in b;
    }
    if a != [] && b != [] {
      assert a[0] in b && b[0] in a;
      assert a[0] == b[0];
      forall id ensures id in a[1..] <==> id in b[1..] {
        assert id in a[1..] <==> id in a && id != a[0];
        assert id in b[1..] <==> id in b && id != b[0];
      }
      AscendingUnique(a[1..], b[1..]);
    }
  }

  lemma {:induction false} CollectedKeep(orders: OrderMap, trade: Tick, ids: seq<int>)
    requires trade.side != NoSide
    ensures Collected(orders, trade, ids)
            == Collected(orders, trade, Keep(ids, orders, (trade.price, MakerSide(trade.side))))
  {
    hide Offer;
    if ids != [] {
      var key := (trade.price, MakerSide(trade.side));
      CollectedKeep(orders, trade, ids[1..]);
      if ids[0] in orders && Key(orders[ids[0]].order) == key {
        assert Keep(ids, orders, key)[1..] == Keep(ids[1..], orders, key);
      } else {
        assert Keep(ids, orders, key) == Keep(ids[1..], orders, key);
        if ids[0] in orders {
          NoHitNoChange(orders[ids[0]], trade);
        }
      }
    }
  }

  // Offer the trade to every order in ascending id order, with no price filter at all.
  function FullScan(ex: Exchange, trade: Tick): (Exchange, seq<OrderReport>) {
    var (orders, reports) := FillIds(ex.orders, trade, SortedIds(ex.orders.Keys));
    (ex.(orders := orders), reports)
  }

  lemma {:induction false} BucketIsFilteredScan(ex: Exchange, trade: Tick)
    requires BucketsOk(ex.orders, ex.buckets) && trade.side != NoSide
    ensures Collected(ex.orders, trade, SortedIds(ex.orders.Keys))
            == Collected(ex.orders, trade, BucketAt(ex.buckets, (trade.price, MakerSide(trade.side))))
  {
    var ids := SortedIds(ex.orders.Keys);
    var key := (trade.price, MakerSide(trade.side));
    assert BucketOk(ex.orders, ex.buckets, key);
    hide BucketsOk, Collected, SortedIds, Ascending, Keep;
    SortedIdsFacts(ex.orders.Keys);
    CollectedKeep(ex.orders, trade, ids);
    KeepFacts(ids, ex.orders, key);
    AscendingUnique(Keep(ids, ex.orders, key), BucketAt(ex.buckets, key));
  }

  lemma {:induction false} NothingCollected(orders: OrderMap, trade: Tick, ids: seq<int>)
    requires trade.side == NoSide
    ensures Collected(orders, trade, ids) == []
  {
    hide Offer;
    if ids != [] {
      NothingCollected(orders, trade, ids[1..]);
      if ids[0] in orders {
        NoHitNoChange(orders[ids[0]], trade);
      }
    }
  }

  // The indexed trade gives the same reports in the same order, and the same exchange, as the scan.
  lemma {:induction false} IndexEqualsScan(ex: Exchange, trade: Tick)
    requires BucketsOk(ex.orders, ex.buckets)
    ensures OnTrade(ex, trade) == FullScan(ex, trade)
  {
    hide Offer, FillIds, OnTrade, BucketsOk, Collected, SortedIds, Ascending, Distinct;
    var ids := SortedIds(ex.orders.Keys);
    SortedIdsFacts(ex.orders.Keys);
    AscendingDistinct(ids);
    FillIdsPointwise(ex.orders, trade, ids);
    TradePointwise(ex, trade);
    var a, b := OnTrade(ex, trade).0.orders, FillIds(ex.orders, trade, ids).0;
    assert a == b by {
      forall id | id in ex.orders ensures a[id] == b[id] {
        assert id in ids;
      }
    }
    if trade.side == NoSide {
      NothingCollected(ex.orders, trade, ids);
    } else {
      BucketIsFilteredScan(ex, trade);
    }
  }

  // ---- The index stays exact -----------------------------------------------------------------

  lemma {:induction false} SubmitKeepsBuckets(m: QueueModel, ex: Exchange, order: Order)
    requires GoodExchange(ex) && Allowed(ex, OpSubmit(order))
    ensures BucketsOk(Submit(m, ex, order).orders, Submit(m, ex, order).buckets)
  {
    hide Register, DepthOf;
    var ex' := Submit(m, ex, order);
    forall key: (int, Side) ensures BucketOk(ex'.orders, ex'.buckets, key) {
      assert BucketOk(ex.orders, ex.buckets, key);
      var before, after := BucketAt(ex.buckets, key), BucketAt(ex'.buckets, key);
      if key == Key(order) {
        assert after == before + [order.orderId];
        forall i | 0 <= i < |before| ensures before[i] < order.orderId {
          assert before[i] in before;
        }
        forall id ensures id in after <==> id in ex'.orders && Key(ex'.orders[id].order) == key {
          assert id in after <==> id in before || id == order.orderId;
        }
      } else {
        assert after == before;
      }
    }
  }

  lemma {:induction false} DropIdFacts(ids: seq<int>, id: int)
    requires Ascending(ids)
    ensures Ascending(DropId(ids, id))
    ensures forall x :: x in DropId(ids, id) <==> x in ids && x != id
  {
    if ids != [] {
      var tail := ids[1..];
      assert ids == [ids[0]] + tail;
      forall x | x in tail ensures ids[0] < x {}
      if ids[0] != id {
        DropIdFacts(tail, id);
        var rest := DropId(tail, id);
        forall i | 0 <= i < |rest| ensures ids[0] < rest[i] {
          assert rest[i] in rest;
        }
      }
    }
  }

  lemma {:induction false} RemoveKeepsBuckets(ex: Exchange, id: int)
    requires GoodExchange(ex)
    ensures BucketsOk(Remove(ex, id).orders, Remove(ex, id).buckets)
  {
    var ex' := Remove(ex, id);
    forall key: (int, Side) ensures BucketOk(ex'.orders, ex'.buckets, key) {
      assert BucketOk(ex.orders, ex.buckets, key);
      if id in ex.orders && key == Key(ex.orders[id].order) && key in ex.buckets {
        DropIdFacts(ex.buckets[key], id);
      } else {
        assert BucketAt(ex'.buckets, key) == BucketAt(ex.buckets, key);
      }
    }
  }

  // Changing orders without moving them to another price or side leaves the index exact.
  lemma {:induction false} SameKeysSameBuckets(before: OrderMap, after: OrderMap, buckets: Buckets)
    requires BucketsOk(before, buckets) && before.Keys == after.Keys
    requires forall id :: id in before ==> after[id].order == before[id].order
    ensures BucketsOk(after, buckets)
  {
    forall key: (int, Side) ensures BucketOk(after, buckets, key) {
      assert BucketOk(before, buckets, key);
    }
  }

  // ---- Every operation keeps the invariant ---------------------------------------------------

  lemma {:induction false} OfferKeepsOrder(id: int, o: LiveOrder, trade: Tick)
    requires GoodOrder(id, o)
    ensures GoodOrder(id, Offer(o, trade).0)
    ensures Offer(o, trade).0.order == o.order
  {
    hide CheckFill, GoodQ, ClaimOk;
    FillBounds(o.order, o.remaining, trade, o.q);
    CheckFillGood(o.order, o.remaining, trade, o.q);
    ClaimKept(o.order, o.remaining, trade, o.q);
  }

  lemma {:induction false} TradeKeepsGood(ex: Exchange, trade: Tick)
    requires GoodExchange(ex)
    ensures GoodExchange(OnTrade(ex, trade).0)
  {
    hide OnTrade, Offer, GoodOrder, BucketsOk;
    TradePointwise(ex, trade);
    var ex' := OnTrade(ex, trade).0;
    forall id | id in ex.orders
      ensures GoodOrder(id, ex'.orders[id]) && ex'.orders[id].order == ex.orders[id].order
    {
      OfferKeepsOrder(id, ex.orders[id], trade);
    }
    SameKeysSameBuckets(ex.orders, ex'.orders, ex.buckets);
  }

  // A quote always has a positive size when the books are good.
  lemma {:induction false} QuotePositive(ex: Exchange, side: Side, fallback: Option<int>)
    requires GoodBooks(ex)
    ensures MarketQuote(ex, side, fallback).Some? ==> MarketQuote(ex, side, fallback).value.1 > 0
  {
    if ex.bookL3.Some? {
      var b := ex.bookL3.value;
      forall p | p in b.bids ensures Total(b.bids[p]) > 0 {
        TotalPositive(b.bids[p]);
      }
      forall p | p in b.asks ensures Total(b.asks[p]) > 0 {
        TotalPositive(b.asks[p]);
      }
    }
  }

  lemma {:induction false} NotifyKeepsOrder(id: int, o: LiveOrder, u: L3Update)
    requires GoodOrder(id, o)
    ensures GoodOrder(id, Notify(o, u))
  {
    hide OnL3, GoodQ;
    OnL3Good(o.order, o.q, u);
  }

  lemma {:induction false} OneOrderChanged(ex: Exchange, id: int, o: LiveOrder)
    requires GoodExchange(ex) && id in ex.orders && GoodOrder(id, o) && o.order == ex.orders[id].order
    ensures GoodExchange(ex.(orders := ex.orders[id := o]))
  {
    hide GoodOrder, BucketsOk;
    SameKeysSameBuckets(ex.orders, ex.orders[id := o], ex.buckets);
  }

  lemma {:induction false} FillMarketKeepsOrder(ex: Exchange, id: int, fallback: Option<int>)
    requires GoodExchange(ex) && id in ex.orders && ex.orders[id].state == PendingNew
    ensures FillMarket(ex, id, fallback).Some?
    ensures
      var ex' := FillMarket(ex, id, fallback).value.0;
      && ex' == ex.(orders := ex.orders[id := ex'.orders[id]])
      && ex'.orders[id].order == ex.orders[id].order
      && GoodOrder(id, ex'.orders[id])
      && (ex'.orders[id].state == PartiallyFilled || ex'.orders[id].state == Filled || ex'.orders[id].state == Rejected)
  {
    hide MarketQuote, BucketsOk, GoodQ;
    assert GoodOrder(id, ex.orders[id]);
    QuotePositive(ex, ex.orders[id].order.side, fallback);
  }

  lemma {:induction false} SubmitKeepsGood(m: QueueModel, ex: Exchange, order: Order)
    requires GoodExchange(ex) && Allowed(ex, OpSubmit(order))
    ensures GoodExchange(Submit(m, ex, order))
  {
    SubmitKeepsBuckets(m, ex, order);
    hide Register, BucketsOk, GoodQ;
    RegisterGood(m, order, DepthOf(ex));
  }

  lemma {:induction false} NotifySameOrder(o: LiveOrder, u: L3Update)
    ensures Notify(o, u) == o.(q := Notify(o, u).q)
  {
  }

  lemma {:induction false} UpdateL3KeepsGood(ex: Exchange, u: L3Update)
    requires GoodExchange(ex) && UpdateL3(ex, u).Some?
    ensures GoodExchange(UpdateL3(ex, u).value)
  {
    hide GoodOrder, BucketsOk, Notify, GoodL3, ApplyL3, Accepted;
    var ex' := UpdateL3(ex, u).value;
    ApplyL3Good(ex.bookL3.value, u);
    forall id | id in ex.orders ensures GoodOrder(id, ex'.orders[id]) && ex'.orders[id].order == ex.orders[id].order {
      NotifyKeepsOrder(id, ex.orders[id], u);
      NotifySameOrder(ex.orders[id], u);
    }
    SameKeysSameBuckets(ex.orders, ex'.orders, ex.buckets);
  }

  lemma {:induction false} NoOrderNoFill(ex: Exchange, id: int, fallback: Option<int>)
    requires id !in ex.orders
    ensures FillMarket(ex, id, fallback).None?
  {
  }

  lemma {:induction false} StepKeepsGood(m: QueueModel, ex: Exchange, op: ExOp)
    requires GoodExchange(ex) && Allowed(ex, op)
    ensures GoodExchange(Apply(m, ex, op).0)
  {
    hide BucketsOk, GoodQ, OnTrade, UpdateL3, Submit, MarketQuote, FillMarket;
    match op {
      case OpL2(u) =>
      case OpL3(u) =>
        if UpdateL3(ex, u).Some? {
          UpdateL3KeepsGood(ex, u);
        }
      case OpSubmit(order) => SubmitKeepsGood(m, ex, order);
      case OpFillMarket(id, fallback) =>
        if id in ex.orders {
          FillMarketKeepsOrder(ex, id, fallback);
          OneOrderChanged(ex, id, FillMarket(ex, id, fallback).value.0.orders[id]);
        } else {
          NoOrderNoFill(ex, id, fallback);
        }
      case OpRemove(id) => RemoveKeepsBuckets(ex, id);
      case OpTrade(trade) => TradeKeepsGood(ex, trade);
      case OpAckNew(id) =>
        if id in ex.orders && ex.orders[id].state == PendingNew {
          OneOrderChanged(ex, id, ex.orders[id].(state := Open));
        }
      case OpCancel(id) =>
        if id in ex.orders && CanTransitionTo(ex.orders[id].state, PendingCancel) {
          OneOrderChanged(ex, id, ex.orders[id].(state := PendingCancel));
        }
      case OpAckCancel(id) =>
        if id in ex.orders && ex.orders[id].state == PendingCancel {
          OneOrderChanged(ex, id, ex.orders[id].(state := Cancelled));
        }
      case OpForceCancel(id) =>
        if id in ex.orders {
          OneOrderChanged(ex, id, ex.orders[id].(state := Cancelled));
        }
    }
  }

  // ---- State changes ---------------------------------------------------------------------------

  // Allowed state changes: none, one from the documented table, or the one edge it omits.
  predicate LegalChange(s: OrderState, next: OrderState, byTrade: bool) {
    || s == next
    || CanTransitionTo(s, next)
    || (byTrade && s == PendingCancel && next == PartiallyFilled)
  }

  // What rests at an order's own price and side: in the per-order book if there is one, else in the levels.
  function QueuedAt(ex: Exchange, order: Order): int {
    match (ex.bookL3, order.side)
    case (Some(b), Buy) => if order.price in b.bids then BookL3.Total(b.bids[order.price]) else 0
    case (Some(b), Sell) => if order.price in b.asks then BookL3.Total(b.asks[order.price]) else 0
    case (None, Buy) => if order.price in ex.book.bids then ex.book.bids[order.price] else 0
    case (None, Sell) => if order.price in ex.book.asks then ex.book.asks[order.price] else 0
    case (_, NoSide) => 0
  }

  // A submitted order starts unfilled and pending, under the volume models behind all that rests at its price.
  lemma {:induction false} SubmitsBehindBook(m: QueueModel, ex: Exchange, order: Order)
    requires GoodBooks(ex)
    ensures order.orderId in Submit(m, ex, order).orders
    ensures
      var o := Submit(m, ex, order).orders[order.orderId];
      && o.order == order && o.state == PendingNew && o.filled == 0 && o.remaining == order.qty
      && (m == Conservative || m == VolumeClock ==> AheadOf(o.q) == QueuedAt(ex, order))
  {
    RegistersBehindLevel(m, order, DepthOf(ex));
    hide AheadOf, Register, BookL3.Total, GoodL2, GoodL3;
  }

  // A cancel is taken exactly when the order rests: acknowledged, and neither finished nor being cancelled.
  lemma {:induction false} CancelTakenExactly(ex: Exchange, id: int)
    ensures
      Cancel(ex, id).Some? <==>
      id in ex.orders && (ex.orders[id].state == Open || ex.orders[id].state == PartiallyFilled)
    ensures
      Cancel(ex, id).Some? ==>
        Cancel(ex, id).value == ex.(orders := ex.orders[id := ex.orders[id].(state := PendingCancel)])
  {
  }

  lemma {:induction false} OfferTransitions(o: LiveOrder, trade: Tick)
    requires o.remaining >= 0
    ensures
      var o' := Offer(o, trade).0;
      && o'.order == o.order && o.filled <= o'.filled
      && LegalChange(o.state, o'.state, true)
      && (IsTerminal(o.state) ==> o' == o)
  {
    FillBounds(o.order, o.remaining, trade, o.q);
  }

  // An order keeps its terms, moves only along legal edges, and never leaves a terminal state.
  lemma {:induction false} StepTransitions(m: QueueModel, ex: Exchange, op: ExOp, id: int)
    requires GoodExchange(ex) && Allowed(ex, op)
    requires id in ex.orders && id in Apply(m, ex, op).0.orders
    ensures
      var o, o' := ex.orders[id], Apply(m, ex, op).0.orders[id];
      && o'.order == o.order
      && o.filled <= o'.filled
      && LegalChange(o.state, o'.state, op.OpTrade?)
      && (IsTerminal(o.state) ==> o'.state == o.state && o'.filled == o.filled)
  {
    hide BucketsOk, GoodQ, OnTrade, MarketQuote, FillMarket, Register, OnL3, DepthOf;
    assert GoodOrder(id, ex.orders[id]);
    match op {
      case OpTrade(trade) =>
        TradePointwise(ex, trade);
        OfferTransitions(ex.orders[id], trade);
      case OpL3(u) =>
        if UpdateL3(ex, u).Some? {
          NotifySameOrder(ex.orders[id], u);
        }
      case OpFillMarket(other, fallback) =>
        if other in ex.orders {
          FillMarketKeepsOrder(ex, other, fallback);
        } else {
          NoOrderNoFill(ex, other, fallback);
        }
      case _ =>
    }
  }

  // The omitted edge is taken exactly when a trade fills part, and not all, of an order whose
  // cancel is in flight; the pending cancel acknowledgement is then refused.
  lemma {:induction false} CancelRace(ex: Exchange, id: int, trade: Tick)
    requires GoodExchange(ex) && id in ex.orders && ex.orders[id].state == PendingCancel
    ensures
      var o := ex.orders[id];
      var fill := CheckFill(o.order, o.remaining, trade, o.q).1;
      var ex' := OnTrade(ex, trade).0;
      && id in ex'.orders
      && (ex'.orders[id].state == PartiallyFilled <==> 0 < fill < o.remaining)
      && (AckCancel(ex', id).None? <==> fill > 0)
      && !CanTransitionTo(PendingCancel, PartiallyFilled)
  {
    hide CheckFill, OnTrade;
    TradePointwise(ex, trade);
    FillBounds(ex.orders[id].order, ex.orders[id].remaining, trade, ex.orders[id].q);
  }

  // ---- Whole runs of one exchange -----------------------------------------------------------

  ghost predicate AllowedRun(m: QueueModel, ex: Exchange, ops: seq<ExOp>)
    decreases ops
  {
    ops == [] || (Allowed(ex, ops[0]) && AllowedRun(m, Apply(m, ex, ops[0]).0, ops[1..]))
  }

  function RunOps(m: QueueModel, ex: Exchange, ops: seq<ExOp>): (Exchange, seq<OrderReport>)
    decreases ops
  {
    if ops == [] then (ex, [])
    else
      var (ex', rs) := Apply(m, ex, ops[0]);
      var (last, rest) := RunOps(m, ex', ops[1..]);
      (last, rs + rest)
  }

  lemma {:induction false} RunKeepsGood(m: QueueModel, ex: Exchange, ops: seq<ExOp>)
    requires GoodExchange(ex) && AllowedRun(m, ex, ops)
    ensures GoodExchange(RunOps(m, ex, ops).0)
    decreases ops
  {
    hide Apply, GoodExchange, Allowed;
    if ops != [] {
      StepKeepsGood(m, ex, ops[0]);
      RunKeepsGood(m, Apply(m, ex, ops[0]).0, ops[1..]);
    }
  }

  // ---- Two queue models, one exchange ------------------------------------------------------

  // Equal but for queue states that describe the same place in the queue.
  ghost predicate Twins(c: Exchange, v: Exchange) {
    && c.book == v.book && c.bookL3 == v.bookL3 && c.buckets == v.buckets
    && c.orders.Keys == v.orders.Keys
    && forall id :: id in c.orders ==> TwinOrders(c.orders[id], v.orders[id])
  }

  ghost predicate TwinOrders(c: LiveOrder, v: LiveOrder) {
    && c == v.(q := c.q)
    && !c.q.QExact? && !v.q.QExact?
    && (c.remaining > 0 ==> SamePlace(c.q, v.q))
  }

  lemma {:induction false} OfferTwins(c: LiveOrder, v: LiveOrder, trade: Tick)
    requires TwinOrders(c, v)
    ensures TwinOrders(Offer(c, trade).0, Offer(v, trade).0)
    ensures Offer(c, trade).1 == Offer(v, trade).1
  {
    if c.remaining > 0 {
      SamePlaceStep(c.order, c.remaining, trade, c.q, v.q);
    }
  }

  lemma {:induction false} CollectedTwins(c: OrderMap, v: OrderMap, trade: Tick, ids: seq<int>)
    requires c.Keys == v.Keys && forall id :: id in c ==> TwinOrders(c[id], v[id])
    ensures Collected(c, trade, ids) == Collected(v, trade, ids)
  {
    hide Offer, TwinOrders;
    if ids != [] {
      CollectedTwins(c, v, trade, ids[1..]);
      if ids[0] in c {
        OfferTwins(c[ids[0]], v[ids[0]], trade);
      }
    }
  }

  lemma {:induction false} TradeTwins(c: Exchange, v: Exchange, trade: Tick)
    requires Twins(c, v) && BucketsOk(c.orders, c.buckets) && BucketsOk(v.orders, v.buckets)
    ensures Twins(OnTrade(c, trade).0, OnTrade(v, trade).0)
    ensures OnTrade(c, trade).1 == OnTrade(v, trade).1
  {
    hide Offer, TwinOrders, OnTrade, BucketsOk, Collected;
    TradePointwise(c, trade);
    TradePointwise(v, trade);
    if trade.side != NoSide {
      CollectedTwins(c.orders, v.orders, trade, BucketAt(c.buckets, (trade.price, MakerSide(trade.side))));
    }
    forall id | id in c.orders
      ensures TwinOrders(OnTrade(c, trade).0.orders[id], OnTrade(v, trade).0.orders[id])
    {
      OfferTwins(c.orders[id], v.orders[id], trade);
    }
  }

  lemma {:induction false} DepthNonNegative(ex: Exchange, side: Side, price: int)
    requires GoodBooks(ex)
    ensures DepthQty(DepthOf(ex), side, price) >= 0
  {
    if ex.bookL3.Some? {
      TotalPositive(SideLevel(ex.bookL3.value, side, price));
    }
  }

  lemma {:induction false} SubmitTwins(c: Exchange, v: Exchange, order: Order)
    requires Twins(c, v) && GoodBooks(c)
    ensures Twins(Submit(Conservative, c, order), Submit(VolumeClock, v, order))
  {
    hide DepthQty;
    DepthNonNegative(c, order.side, order.price);
  }

  // Give one order of each twin the same new state.
  lemma {:induction false} OneTwinChanged(c: Exchange, v: Exchange, id: int, o: LiveOrder, p: LiveOrder)
    requires Twins(c, v) && TwinOrders(o, p)
    ensures Twins(c.(orders := c.orders[id := o]), v.(orders := v.orders[id := p]))
  {
    hide TwinOrders;
  }

  lemma {:induction false} FillMarketTwins(c: Exchange, v: Exchange, id: int, fallback: Option<int>)
    requires Twins(c, v) && GoodExchange(c) && Allowed(c, OpFillMarket(id, fallback))
    ensures Twins(Apply(Conservative, c, OpFillMarket(id, fallback)).0,
                  Apply(VolumeClock, v, OpFillMarket(id, fallback)).0)
    ensures Apply(Conservative, c, OpFillMarket(id, fallback)).1 == Apply(VolumeClock, v, OpFillMarket(id, fallback)).1
  {
    hide BookL2.BestBid, BookL2.BestAsk, BookL3.BestBid, BookL3.BestAsk, SamePlace;
    if id in c.orders {
      assert GoodOrder(id, c.orders[id]) && TwinOrders(c.orders[id], v.orders[id]);
      OneTwinChanged(c, v, id, FillMarket(c, id, fallback).value.0.orders[id],
                     FillMarket(v, id, fallback).value.0.orders[id]);
    }
  }

  lemma {:induction false} UpdateL3Twins(c: Exchange, v: Exchange, u: L3Update)
    requires Twins(c, v)
    ensures Twins(Apply(Conservative, c, OpL3(u)).0, Apply(VolumeClock, v, OpL3(u)).0)
  {
    hide ApplyL3, Accepted, SamePlace;
    if c.bookL3.Some? && Accepted(u) {
      forall id | id in c.orders ensures TwinOrders(Notify(c.orders[id], u), Notify(v.orders[id], u)) {
        assert TwinOrders(c.orders[id], v.orders[id]);
      }
    }
  }

  lemma {:induction false} RemoveTwins(c: Exchange, v: Exchange, id: int)
    requires Twins(c, v)
    ensures Twins(Remove(c, id), Remove(v, id))
  {
    hide SamePlace;
    if id in c.orders {
      assert TwinOrders(c.orders[id], v.orders[id]);
    }
  }

  lemma {:induction false} StateTwins(c: Exchange, v: Exchange, op: ExOp)
    requires Twins(c, v) && (op.OpAckNew? || op.OpCancel? || op.OpAckCancel? || op.OpForceCancel?)
    ensures Twins(Apply(Conservative, c, op).0, Apply(VolumeClock, v, op).0)
    ensures Apply(Conservative, c, op).1 == Apply(VolumeClock, v, op).1
  {
    hide SamePlace;
    if op.id in c.orders {
      var o, p := c.orders[op.id], v.orders[op.id];
      assert TwinOrders(o, p);
      OneTwinChanged(c, v, op.id, o.(state := Open), p.(state := Open));
      OneTwinChanged(c, v, op.id, o.(state := PendingCancel), p.(state := PendingCancel));
      OneTwinChanged(c, v, op.id, o.(state := Cancelled), p.(state := Cancelled));
    }
  }

  lemma {:induction false} StepTwins(c: Exchange, v: Exchange, op: ExOp)
    requires Twins(c, v) && GoodExchange(c) && GoodExchange(v) && Allowed(c, op)
    ensures Twins(Apply(Conservative, c, op).0, Apply(VolumeClock, v, op).0)
    ensures Apply(Conservative, c, op).1 == Apply(VolumeClock, v, op).1
  {
    hide BucketsOk, OnTrade, TwinOrders, GoodBooks, Submit, UpdateL3, Remove, FillMarket;
    match op {
      case OpL2(_) =>
      case OpL3(u) => UpdateL3Twins(c, v, u);
      case OpTrade(trade) => TradeTwins(c, v, trade);
      case OpSubmit(order) => SubmitTwins(c, v, order);
      case OpFillMarket(id, fallback) => FillMarketTwins(c, v, id, fallback);
      case OpRemove(id) => RemoveTwins(c, v, id);
      case _ => StateTwins(c, v, op);
    }
  }

  lemma {:induction false} TwinsAllowed(c: Exchange, v: Exchange, op: ExOp)
    requires Twins(c, v) && Allowed(c, op)
    ensures Allowed(v, op)
  {
  }

  // However an exchange is driven, choosing ConservativeQueue or VolumeClockQueue makes no
  // observable difference: the same reports come back, in the same order.
  lemma {:induction false} QueueModelsIndistinguishable(c: Exchange, v: Exchange, ops: seq<ExOp>)
    requires Twins(c, v) && GoodExchange(c) && GoodExchange(v)
    requires AllowedRun(Conservative, c, ops)
    ensures RunOps(Conservative, c, ops).1 == RunOps(VolumeClock, v, ops).1
    ensures Twins(RunOps(Conservative, c, ops).0, RunOps(VolumeClock, v, ops).0)
    decreases ops
  {
    hide Apply, GoodExchange, TwinOrders;
    if ops != [] {
      StepTwins(c, v, ops[0]);
      StepKeepsGood(Conservative, c, ops[0]);
      assert Allowed(v, ops[0]) by {
        assert forall id :: id in c.orders ==> TwinOrders(c.orders[id], v.orders[id]);
        TwinsAllowed(c, v, ops[0]);
      }
      StepKeepsGood(VolumeClock, v, ops[0]);
      QueueModelsIndistinguishable(Apply(Conservative, c, ops[0]).0, Apply(VolumeClock, v, ops[0]).0, ops[1..]);
    }
  }

  // ---- The cached queue, inside the exchange ------------------------------------------------

  // Orders that still follow the venue have, cached, a prefix of the queue the book shows.
  ghost predicate CachesMatch(ex: Exchange) {
    ex.bookL3.Some? ==>
      forall id :: id in ex.orders && FollowsVenue(ex.orders[id].state) ==>
        CacheMatches(ex.orders[id].q, SideLevel(ex.bookL3.value, ex.orders[id].order.side, ex.orders[id].order.price))
  }

  lemma {:induction false} OtherCachesTrivial(m: QueueModel, order: Order, d: Depth, level: Level)
    requires m != L3Exact
    ensures CacheMatches(Register(m, order, d), level)
  {
  }

  // Every operation but a trade keeps the caches; a venue message must be for this symbol, and a
  // new order must meet a level with distinct ids.
  lemma {:induction false} StepKeepsCaches(m: QueueModel, ex: Exchange, op: ExOp, symbol: int)
    requires GoodExchange(ex) && CachesMatch(ex) && Allowed(ex, op) && !op.OpTrade?
    requires forall id :: id in ex.orders ==> ex.orders[id].order.symbolId == symbol
    requires op.OpL3? ==> op.l3.symbolId == symbol
    requires op.OpSubmit? && ex.bookL3.Some? ==>
               DistinctIds(SideLevel(ex.bookL3.value, op.order.side, op.order.price))
    ensures CachesMatch(Apply(m, ex, op).0)
  {
    hide BucketsOk, GoodQ, MarketQuote, CacheMatches, OnL3, ApplyL3, Accepted, GoodL3;
    match op {
      case OpL3(u) =>
        if UpdateL3(ex, u).Some? {
          forall id | id in ex.orders && FollowsVenue(ex.orders[id].state) {
            CacheFollowsBook(ex.orders[id].order, ex.orders[id].q, ex.bookL3.value, u);
          }
        }
      case OpSubmit(order) =>
        if ex.bookL3.Some? {
          if m == L3Exact {
            RegisterMatches(order, ex.bookL3.value);
          } else {
            OtherCachesTrivial(m, order, DepthOf(ex), SideLevel(ex.bookL3.value, order.side, order.price));
          }
        }
      case _ =>
    }
  }

  // What the venue and the engine must observe for the caches: trade-free, one symbol, and no order
  // joins a level that shows one venue id twice.
  ghost predicate KeepsQueues(ex: Exchange, op: ExOp, symbol: int) {
    && !op.OpTrade?
    && (op.OpL3? ==> op.l3.symbolId == symbol)
    && (op.OpSubmit? ==>
          && op.order.symbolId == symbol
          && (ex.bookL3.Some? ==> DistinctIds(SideLevel(ex.bookL3.value, op.order.side, op.order.price))))
  }

  ghost predicate KeepsQueuesRun(m: QueueModel, ex: Exchange, ops: seq<ExOp>, symbol: int)
    decreases ops
  {
    ops == [] || (KeepsQueues(ex, ops[0], symbol) && KeepsQueuesRun(m, Apply(m, ex, ops[0]).0, ops[1..], symbol))
  }

  ghost predicate OneSymbol(orders: OrderMap, symbol: int) {
    forall id :: id in orders ==> orders[id].order.symbolId == symbol
  }

  lemma {:induction false} StepKeepsSymbol(m: QueueModel, ex: Exchange, op: ExOp, symbol: int)
    requires OneSymbol(ex.orders, symbol) && KeepsQueues(ex, op, symbol)
    ensures OneSymbol(Apply(m, ex, op).0.orders, symbol)
  {
    hide OnL3, Register, DepthOf, MarketQuote, ApplyL3, Accepted, CanTransitionTo, DropId;
  }

  // In every trade-free run of an exchange the orders that follow the venue have, cached, a prefix of
  // the queue the book shows.
  lemma {:induction false} RunKeepsCaches(m: QueueModel, ex: Exchange, ops: seq<ExOp>, symbol: int)
    requires GoodExchange(ex) && CachesMatch(ex) && OneSymbol(ex.orders, symbol)
    requires AllowedRun(m, ex, ops) && KeepsQueuesRun(m, ex, ops, symbol)
    ensures CachesMatch(RunOps(m, ex, ops).0)
    decreases ops
  {
    hide Apply, GoodExchange, Allowed, CachesMatch;
    if ops != [] {
      StepKeepsCaches(m, ex, ops[0], symbol);
      StepKeepsGood(m, ex, ops[0]);
      StepKeepsSymbol(m, ex, ops[0], symbol);
      RunKeepsCaches(m, Apply(m, ex, ops[0]).0, ops[1..], symbol);
    }
  }

  // An order whose cancel is in flight no longer hears the venue: its cache, so far a prefix of its
  // level, stays one exactly if the message is for another level or touches none of the cached orders.
  lemma {:induction false} PendingCancelGoesStale(ex: Exchange, id: int, u: L3Update)
    requires GoodExchange(ex) && ex.bookL3.Some? && Accepted(u)
    requires id in ex.orders && ex.orders[id].state == PendingCancel && ex.orders[id].q.QExact?
    requires u.symbolId == ex.orders[id].order.symbolId
    requires
      var order := ex.orders[id].order;
      CacheMatches(ex.orders[id].q, SideLevel(ex.bookL3.value, order.side, order.price))
    ensures
      var (order, ex') := (ex.orders[id].order, Apply(L3Exact, ex, OpL3(u)).0);
      && ex'.bookL3.Some? && id in ex'.orders && ex'.orders[id] == ex.orders[id]
      && (CacheMatches(ex'.orders[id].q, SideLevel(ex'.bookL3.value, order.side, order.price))
          <==> !(SameLevel(order, u) && Touches(ex.orders[id].q.ahead, u)))
  {
    var order, b, ahead := ex.orders[id].order, ex.bookL3.value, ex.orders[id].q.ahead;
    var level := SideLevel(b, order.side, order.price);
    assert level == ahead + level[|ahead|..];
    assert GoodLevel(level);
    hide BucketsOk, GoodOrders, OnL3, Touches;
    if SameLevel(order, u) {
      assert SideLevel(ApplyL3(b, u), order.side, order.price) == LevelAfter(level, u);
      UntoldCache(ahead, level[|ahead|..], u);
    } else {
      assert SideLevel(ApplyL3(b, u), order.side, order.price) == level;
    }
  }
}
