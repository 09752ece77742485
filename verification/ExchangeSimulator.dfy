// The matching side of the simulation: the order lifecycle, market fills, cancel races, and the
// (price, side) index that spares a trade from visiting every order.
module Exchanges {
  import opened Types
  import opened Arith
  import opened BookL2
  import opened BookL3
  import opened QueueModels

  datatype LiveOrder = LiveOrder(order: Order, state: OrderState, filled: int, remaining: int, q: QState)

  type OrderMap = map<int, LiveOrder>
  type Buckets = map<(int, Side), seq<int>>

  datatype Exchange = Exchange(book: L2, bookL3: Option<L3>, orders: OrderMap, buckets: Buckets)

  function NewExchange(l3: bool): Exchange {
    Exchange(EMPTY_L2, if l3 then Some(EMPTY_L3) else None, map[], map[])
  }

  function DepthOf(ex: Exchange): Depth {
    match ex.bookL3
    case Some(b) => DepthL3(b)
    case None => DepthL2(ex.book)
  }

  function Key(order: Order): (int, Side) {
    (order.price, order.side)
  }

  function BucketAt(buckets: Buckets, key: (int, Side)): seq<int> {
    if key in buckets then buckets[key] else []
  }

  // The report that describes an order as it now stands.
  function ReportOf(o: LiveOrder, lastQty: int, lastPrice: int, reason: Option<Reason>): OrderReport {
    OrderReport(o.order.orderId, o.order.clientOrderId, o.order.symbolId, o.state,
                lastQty, lastPrice, o.filled, o.remaining, reason)
  }

  function UpdateL2(ex: Exchange, u: L2Update): Exchange {
    ex.(book := ApplyL2(ex.book, u))
  }

  predicate FollowsVenue(s: OrderState) {
    s == PendingNew || s == Open || s == PartiallyFilled
  }

  function Notify(o: LiveOrder, u: L3Update): LiveOrder {
    if FollowsVenue(o.state) then o.(q := OnL3(o.order, o.q, u)) else o
  }

  // None stands for the error that stops the run: no per-order book, or a refused message.
  function UpdateL3(ex: Exchange, u: L3Update): Option<Exchange> {
    match ex.bookL3
    case None => None
    case Some(b) =>
      if Accepted(u) then
        Some(ex.(orders := map id | id in ex.orders :: Notify(ex.orders[id], u), bookL3 := Some(ApplyL3(b, u))))
      else None
  }

  function Submit(m: QueueModel, ex: Exchange, order: Order): Exchange {
    var live := LiveOrder(order, PendingNew, 0, order.qty, Register(m, order, DepthOf(ex)));
    ex.(buckets := ex.buckets[Key(order) := BucketAt(ex.buckets, Key(order)) + [order.orderId]],
        orders := ex.orders[order.orderId := live])
  }

  function AckNew(ex: Exchange, id: int): Option<(Exchange, OrderReport)> {
    if id !in ex.orders || ex.orders[id].state != PendingNew then None
    else
      var o := ex.orders[id].(state := Open);
      var r := OrderReport(o.order.orderId, o.order.clientOrderId, o.order.symbolId, Open, 0, 0, 0, o.remaining, None);
      Some((ex.(orders := ex.orders[id := o]), r))
  }

  function Cancel(ex: Exchange, id: int): Option<Exchange> {
    if id !in ex.orders || !CanTransitionTo(ex.orders[id].state, PendingCancel) then None
    else Some(ex.(orders := ex.orders[id := ex.orders[id].(state := PendingCancel)]))
  }

  // Refused unless the order is still waiting for its cancel: a fill may have come first.
  function AckCancel(ex: Exchange, id: int): Option<(Exchange, OrderReport)> {
    if id !in ex.orders || ex.orders[id].state != PendingCancel then None
    else
      var o := ex.orders[id].(state := Cancelled);
      Some((ex.(orders := ex.orders[id := o]), ReportOf(o, 0, 0, None)))
  }

  // The other side's best price and size, from the per-order book first, then the level book.
  function BestAgainst(ex: Exchange, side: Side): Option<(int, int)> {
    match side
    case NoSide => None
    case Buy =>
      var exact := if ex.bookL3.Some? then BookL3.BestAsk(ex.bookL3.value) else None;
      if exact.Some? then exact else BookL2.BestAsk(ex.book)
    case Sell =>
      var exact := if ex.bookL3.Some? then BookL3.BestBid(ex.bookL3.value) else None;
      if exact.Some? then exact else BookL2.BestBid(ex.book)
  }

  // A fallback price fills the whole quantity, with no limit on depth but the 64-bit one.
  function MarketQuote(ex: Exchange, side: Side, fallback: Option<int>): Option<(int, int)> {
    var best := BestAgainst(ex, side);
    if best.Some? then best
    else if fallback.Some? then Some((fallback.value, I64_MAX))
    else None
  }

  function FillMarket(ex: Exchange, id: int, fallback: Option<int>): Option<(Exchange, OrderReport)> {
    if id !in ex.orders then None
    else
      var o := ex.orders[id];
      match MarketQuote(ex, o.order.side, fallback)
      case Some((price, available)) =>
        var fill := Min(o.order.qty, available);
        var left := o.order.qty - fill;
        var o' := o.(filled := fill, remaining := left, state := if left == 0 then Filled else PartiallyFilled);
        Some((ex.(orders := ex.orders[id := o']), ReportOf(o', fill, price, None)))
      case None =>
        var r := OrderReport(o.order.orderId, o.order.clientOrderId, o.order.symbolId, Rejected,
                             0, 0, 0, o.order.qty, Some(BookEmpty));
        Some((ex.(orders := ex.orders[id := o.(state := Rejected)]), r))
  }

  function ForceCancel(ex: Exchange, id: int): Option<(Exchange, OrderReport)> {
    if id !in ex.orders then None
    else
      var o := ex.orders[id].(state := Cancelled);
      Some((ex.(orders := ex.orders[id := o]), ReportOf(o, 0, 0, Some(RemainderCancelled))))
  }

  // Drop the first occurrence of an id.
  function DropId(ids: seq<int>, id: int): seq<int> {
    if ids == [] then []
    else if ids[0] == id then ids[1..]
    else [ids[0]] + DropId(ids[1..], id)
  }

  function Remove(ex: Exchange, id: int): Exchange {
    if id !in ex.orders then ex
    else
      var key := Key(ex.orders[id].order);
      ex.(orders := ex.orders - {id},
          buckets := if key in ex.buckets then ex.buckets[key := DropId(ex.buckets[key], id)] else ex.buckets)
  }

  predicate Matchable(s: OrderState) {
    s == Open || s == PartiallyFilled || s == PendingCancel
  }

  // Offer a trade to one resting order: the order afterwards, and its report if it filled.
  function Offer(o: LiveOrder, trade: Tick): (LiveOrder, seq<OrderReport>) {
    if o.remaining <= 0 || !Matchable(o.state) then (o, [])
    else
      var (q, fill) := CheckFill(o.order, o.remaining, trade, o.q);
      if fill <= 0 then (o.(q := q), [])
      else
        var left := o.remaining - fill;
        var o' := LiveOrder(o.order, if left == 0 then Filled else PartiallyFilled, o.filled + fill, left, q);
        (o', [ReportOf(o', fill, trade.price, None)])
  }

  function FillOne(orders: OrderMap, trade: Tick, id: int): (OrderMap, seq<OrderReport>) {
    if id !in orders then (orders, [])
    else
      var (o, r) := Offer(orders[id], trade);
      (orders[id := o], r)
  }

  function FillIds(orders: OrderMap, trade: Tick, ids: seq<int>): (OrderMap, seq<OrderReport>)
    decreases ids
  {
    if ids == [] then (orders, [])
    else
      var (first, r) := FillOne(orders, trade, ids[0]);
      var (rest, rs) := FillIds(first, trade, ids[1..]);
      (rest, r + rs)
  }

  // Only the bucket at the trade's price on the resting side is visited.
  function OnTrade(ex: Exchange, trade: Tick): (Exchange, seq<OrderReport>) {
    if trade.side == NoSide then (ex, [])
    else
      var (orders, reports) := FillIds(ex.orders, trade, BucketAt(ex.buckets, (trade.price, MakerSide(trade.side))));
      (ex.(orders := orders), reports)
  }

  function MarkPrice(ex: Exchange): Option<int> {
    var bid := if ex.bookL3.Some? then BookL3.BestBid(ex.bookL3.value) else BookL2.BestBid(ex.book);
    var ask := if ex.bookL3.Some? then BookL3.BestAsk(ex.bookL3.value) else BookL2.BestAsk(ex.book);
    match (bid, ask)
    case (Some(b), Some(a)) => Some(TruncDiv(SatAdd(b.0, a.0), 2))
    case (Some(b), None) => Some(b.0)
    case (None, Some(a)) => Some(a.0)
    case (None, None) => None
  }

  type Venues = map<int, Exchange>

  // The exchange of a symbol, or the empty one it starts from.
  function VenueAt(xs: Venues, symbol: int, l3: bool): Exchange {
    if symbol in xs then xs[symbol] else NewExchange(l3)
  }

  // The simulator as the engine owns it, updated in place.
  class ExchangeSimulator {
    const book: OrderBookL2
    const bookL3: OrderBookL3?
    const model: QueueModel
    var orders: OrderMap
    var buckets: Buckets

    ghost function Repr(): set<object> {
      {this, book} + if bookL3 == null then {} else {bookL3}
    }

    function State(): Exchange
      reads Repr()
    {
      Exchange(book.State(), if bookL3 == null then None else Some(bookL3.State()), orders, buckets)
    }

    constructor (l3: bool, model: QueueModel)
      ensures State() == NewExchange(l3) && this.model == model
      ensures fresh(Repr())
    {
      book := new OrderBookL2();
      if l3 {
        bookL3 := new OrderBookL3();
      } else {
        bookL3 := null;
      }
      this.model := model;
      orders, buckets := map[], map[];
    }

    method ApplyL2Update(u: L2Update)
      modifies Repr()
      ensures State() == UpdateL2(old(State()), u)
    {
      book.Apply(u);
    }

    method ApplyL3Update(u: L3Update) returns (ok: bool)
      modifies Repr()
      ensures ok == UpdateL3(old(State()), u).Some?
      ensures ok ==> Some(State()) == UpdateL3(old(State()), u)
    {
      var ids := orders.Keys;
      ghost var before := orders;
      while ids != {}
        invariant ids <= orders.Keys == before.Keys
        invariant buckets == old(buckets) && book.State() == old(book.State())
        invariant bookL3 != null ==> bookL3.State() == old(bookL3.State())
        invariant forall id :: id in before ==>
                    orders[id] == if id in ids then before[id] else Notify(before[id], u)
        decreases ids
      {
        if forall id :: id !in ids {
          assert false;
        }
        var id :| id in ids;
        var live := orders[id];
        if live.state == PendingNew || live.state == Open || live.state == PartiallyFilled {
          orders := orders[id := live.(q := OnL3(live.order, live.q, u))];
        }
        ids := ids - {id};
      }
      if bookL3 == null {
        return false;
      }
      ghost var notified := map id | id in before :: Notify(before[id], u);
      assert ids == {};
      forall id | id in before ensures orders[id] == Notify(before[id], u) {
        assert id !in ids;
      }
      assert orders == notified;
      ok := bookL3.Apply(u);
    }

    method SubmitOrder(order: Order)
      modifies this
      ensures State() == Submit(model, old(State()), order)
    {
      var q := Register(model, order, DepthOf(State()));
      buckets := buckets[Key(order) := BucketAt(buckets, Key(order)) + [order.orderId]];
      orders := orders[order.orderId := LiveOrder(order, PendingNew, 0, order.qty, q)];
    }

    method AcknowledgeNew(id: int) returns (report: Option<OrderReport>)
      modifies this
      ensures AckNew(old(State()), id) ==
              if report.Some? then Some((State(), report.value)) else None
      ensures report.None? ==> State() == old(State())
    {
      if id !in orders || orders[id].state != PendingNew {
        return None;
      }
      var o := orders[id].(state := Open);
      orders := orders[id := o];
      report := Some(OrderReport(o.order.orderId, o.order.clientOrderId, o.order.symbolId, Open, 0, 0, 0, o.remaining,
                                 None));
    }

    method CancelOrder(id: int) returns (ok: bool)
      modifies this
      ensures Cancel(old(State()), id) == if ok then Some(State()) else None
      ensures !ok ==> State() == old(State())
    {
      if id !in orders || !CanTransitionTo(orders[id].state, PendingCancel) {
        return false;
      }
      orders := orders[id := orders[id].(state := PendingCancel)];
      return true;
    }

    method AcknowledgeCancel(id: int) returns (report: Option<OrderReport>)
      modifies this
      ensures AckCancel(old(State()), id) ==
              if report.Some? then Some((State(), report.value)) else None
      ensures report.None? ==> State() == old(State())
    {
      if id !in orders {
        return None;
      }
      match orders[id].state {
        case PendingCancel =>
          orders := orders[id := orders[id].(state := Cancelled)];
          report := Some(ReportOf(orders[id], 0, 0, None));
        case _ =>
          report := None;
      }
    }

    method FillMarketImmediately(id: int, fallback: Option<int>) returns (report: Option<OrderReport>)
      modifies this
      ensures FillMarket(old(State()), id, fallback) ==
              if report.Some? then Some((State(), report.value)) else None
      ensures report.None? ==> State() == old(State())
    {
      if id !in orders {
        return None;
      }
      var o := orders[id];
      match MarketQuote(State(), o.order.side, fallback) {
        case Some((price, available)) =>
          var fill := Min(o.order.qty, available);
          o := o.(filled := fill, remaining := o.order.qty - fill);
          if o.remaining == 0 {
            o := o.(state := Filled);
          } else {
            o := o.(state := PartiallyFilled);
          }
          report := Some(ReportOf(o, fill, price, None));
        case None =>
          o := o.(state := Rejected);
          report := Some(OrderReport(o.order.orderId, o.order.clientOrderId, o.order.symbolId, Rejected,
                                     0, 0, 0, o.order.qty, Some(BookEmpty)));
      }
      orders := orders[id := o];
    }

    method ForceCancelPartialFill(id: int) returns (report: Option<OrderReport>)
      modifies this
      ensures ForceCancel(old(State()), id) ==
              if report.Some? then Some((State(), report.value)) else None
      ensures report.None? ==> State() == old(State())
    {
      if id !in orders {
        return None;
      }
      var o := orders[id].(state := Cancelled);
      orders := orders[id := o];
      report := Some(ReportOf(o, 0, 0, Some(RemainderCancelled)));
    }

    method RemoveOrder(id: int)
      modifies this
      ensures State() == Remove(old(State()), id)
    {
      if id !in orders {
        return;
      }
      var key := Key(orders[id].order);
      orders := orders - {id};
      if key in buckets {
        buckets := buckets[key := DropId(buckets[key], id)];
      }
    }

    // Offer the trade to one resting order.
    method OfferTrade(trade: Tick, id: int) returns (reports: seq<OrderReport>)
      modifies this`orders
      ensures (orders, reports) == FillOne(old(orders), trade, id)
    {
      reports := [];
      if id !in orders {
        return;
      }
      var o := orders[id];
      assert orders[id := o] == orders;
      if o.remaining <= 0 || !(o.state == Open || o.state == PartiallyFilled || o.state == PendingCancel) {
        return;
      }
      var q, fill := CheckFillInPlace(o.order, o.remaining, trade, o.q);
      o := o.(q := q);
      if fill > 0 {
        o := o.(filled := o.filled + fill, remaining := o.remaining - fill);
        o := o.(state := if o.remaining == 0 then Filled else PartiallyFilled);
        reports := [ReportOf(o, fill, trade.price, None)];
      }
      orders := orders[id := o];
    }

    method ProcessTrade(trade: Tick) returns (reports: seq<OrderReport>)
      modifies this`orders
      ensures (State(), reports) == OnTrade(old(State()), trade)
    {
      hide FillOne;
      reports := [];
      if trade.side == NoSide {
        return;
      }
      var ids := BucketAt(buckets, (trade.price, MakerSide(trade.side)));
      ghost var before := orders;
      for i := 0 to |ids|
        invariant FillIds(before, trade, ids).0 == FillIds(orders, trade, ids[i..]).0
        invariant FillIds(before, trade, ids).1 == reports + FillIds(orders, trade, ids[i..]).1
      {
        assert ids[i..][1..] == ids[i + 1..];
        var more := OfferTrade(trade, ids[i]);
        reports := reports + more;
      }
      assert ids[|ids|..] == [] && FillIds(orders, trade, []) == (orders, []);
      assert reports + [] == reports;
      assert State() == old(State()).(orders := orders);
    }
  }
}
