// The money side of every step: the three ledgers stay in step, one PnL total is kept, and under a
// one-order limit the position bound holds.
module EngineMoney {
  import opened Types
  import opened Accounts
  import opened Stats
  import opened RiskGuards
  import opened Ledgers
  import opened RiskFigures
  import opened QueueModels
  import opened Exchanges
  import opened ExchangeProps
  import opened EventQueues
  import opened EngineSpec
  import opened Lifecycle
  import opened LifecycleSteps
  import opened LifecycleRun

  ghost predicate MoneyOk(l: Ledger) {
    BooksAgree(l) && OneTotal(l) && FiguresOk(l.log)
  }

  lemma {:induction false} NewMoneyOk(cfg: Config)
    ensures MoneyOk(Ledger(EMPTY_ACCOUNT, NewLog(cfg.logMode),
                           NewGuard(cfg.maxOpenOrders, cfg.maxPosition, cfg.maxLoss)))
  {
    NewFigures(cfg.logMode);
    hide FiguresOk;
  }

  lemma {:induction false} RecordMoney(l: Ledger, jobs: seq<FillJob>)
    requires MoneyOk(l) && GoodJobs(jobs)
    ensures MoneyOk(Record(l, jobs))
  {
    hide Record, BooksAgree, OneTotal, FiguresOk;
    RecordKeepsFigures(l, jobs);
    RecordKeepsBooks(l, jobs);
    RecordKeepsTotal(l, jobs);
  }

  lemma {:induction false} FundMoney(l: Ledger, event: FundingEvent, mark: int)
    requires MoneyOk(l)
    ensures MoneyOk(Fund(l, event, mark))
  {
    hide Fund, BooksAgree, OneTotal, FiguresOk;
    FundKeepsFigures(l, event, mark);
    FundKeepsBooks(l, event, mark);
    FundKeepsTotal(l, event, mark);
  }

  // ---- The fills of a trade ------------------------------------------------------------------------

  // A report that names an order of the exchange and its symbol.
  ghost predicate Names(orders: OrderMap, r: OrderReport) {
    r.orderId in orders && orders[r.orderId].order.symbolId == r.symbolId
  }

  lemma {:induction false} OfferNeedsHit(o: LiveOrder, trade: Tick)
    ensures Offer(o, trade).1 != [] ==> trade.price == o.order.price
  {
  }

  lemma {:induction false} OfferNames(id: int, o: LiveOrder, trade: Tick, r: OrderReport)
    requires GoodOrder(id, o) && r in Offer(o, trade).1
    ensures r.orderId == id && r.symbolId == o.order.symbolId && 0 < r.lastFillQty <= o.remaining
    ensures r.lastFillPrice == o.order.price && r.status != Rejected
    ensures Offer(o, trade).0.remaining == o.remaining - r.lastFillQty
  {
    FillBounds(o.order, o.remaining, trade, o.q);
    OfferNeedsHit(o, trade);
    hide CheckFill, GoodQ;
  }

  lemma {:induction false} CollectedNames(orders: OrderMap, trade: Tick, ids: seq<int>, r: OrderReport)
    requires GoodOrders(orders) && r in Collected(orders, trade, ids)
    ensures Names(orders, r) && r.orderId in ids && r in Offer(orders[r.orderId], trade).1
  {
    hide Offer, GoodOrder;
    if ids != [] {
      var first := ids[0];
      if first in orders && r in Offer(orders[first], trade).1 {
        assert GoodOrder(first, orders[first]);
        OfferNames(first, orders[first], trade, r);
      } else {
        assert r in Collected(orders, trade, ids[1..]);
        CollectedNames(orders, trade, ids[1..], r);
      }
    }
  }

  // Every report of a trade names a live order, fills part of it, and does so at the order's price.
  lemma {:induction false} TradeNames(ex: Exchange, trade: Tick, r: OrderReport)
    requires GoodExchange(ex) && r in OnTrade(ex, trade).1
    ensures Names(ex.orders, r) && Names(OnTrade(ex, trade).0.orders, r)
    ensures 0 < r.lastFillQty <= ex.orders[r.orderId].remaining
    ensures r.lastFillPrice == ex.orders[r.orderId].order.price
    ensures OnTrade(ex, trade).0.orders[r.orderId].order == ex.orders[r.orderId].order
    ensures OnTrade(ex, trade).0.orders[r.orderId].remaining == ex.orders[r.orderId].remaining - r.lastFillQty
  {
    TradePointwise(ex, trade);
    hide OnTrade, Offer, GoodOrder, BucketsOk, Collected;
    CollectedNames(ex.orders, trade, BucketAt(ex.buckets, (trade.price, MakerSide(trade.side))), r);
    assert GoodOrder(r.orderId, ex.orders[r.orderId]);
    OfferNames(r.orderId, ex.orders[r.orderId], trade, r);
    OfferKeepsTerms(ex.orders[r.orderId], trade);
  }

  // The report describes the order as it now stands, under the ids that it was submitted with.
  ghost predicate Describes(r: OrderReport, o: LiveOrder) {
    && r.orderId == o.order.orderId && r.clientOrderId == o.order.clientOrderId && r.symbolId == o.order.symbolId
    && r.status == o.state && r.filledQty == o.filled && r.remainingQty == o.remaining
  }

  lemma {:induction false} OfferDescribes(id: int, o: LiveOrder, trade: Tick, r: OrderReport)
    requires GoodOrder(id, o) && r in Offer(o, trade).1
    ensures Describes(r, Offer(o, trade).0) && SaysWhy(OpTrade(trade), r)
  {
    hide CheckFill;
  }

  // What an operation reports besides: trades fill at their own price, acknowledgements fill nothing, and
  // what a market order leaves over is cancelled for that reason.
  predicate SaysWhy(op: ExOp, r: OrderReport) {
    match op
    case OpTrade(trade) => r.reason.None? && r.lastFillQty > 0 && r.lastFillPrice == trade.price
    case OpAckNew(_) => r.reason.None? && r.lastFillQty == 0
    case OpAckCancel(_) => r.reason.None? && r.lastFillQty == 0
    case OpForceCancel(_) => r.reason == Some(RemainderCancelled) && r.lastFillQty == 0
    case OpFillMarket(_, _) => r.reason == (if r.status == Rejected then Some(BookEmpty) else None)
    case _ => false
  }

  // Whatever an exchange is asked to do, each report that it hands back describes one of its orders.
  lemma {:induction false} ReportsDescribeOrders(m: QueueModel, ex: Exchange, op: ExOp, r: OrderReport)
    requires GoodExchange(ex) && Allowed(ex, op) && r in Apply(m, ex, op).1
    ensures r.orderId in Apply(m, ex, op).0.orders && Describes(r, Apply(m, ex, op).0.orders[r.orderId])
    ensures SaysWhy(op, r)
  {
    hide OnTrade, Offer, BucketsOk, Collected, MarketQuote;
    match op {
      case OpTrade(trade) =>
        TradePointwise(ex, trade);
        CollectedNames(ex.orders, trade, BucketAt(ex.buckets, (trade.price, MakerSide(trade.side))), r);
        assert GoodOrder(r.orderId, ex.orders[r.orderId]);
        OfferDescribes(r.orderId, ex.orders[r.orderId], trade, r);
      case OpL2(_) =>
      case OpL3(_) =>
      case OpSubmit(_) =>
      case OpCancel(_) =>
      case OpRemove(_) =>
      case _ =>
        if op.id in ex.orders {
          assert GoodOrder(op.id, ex.orders[op.id]);
        }
    }
  }

  lemma {:induction false} JobsGood(ex: Exchange, rs: seq<OrderReport>, ts: int, bps: int)
    requires forall r :: r in rs ==> Names(ex.orders, r)
    ensures GoodJobs(JobsOf(ex, rs, ts, bps))
  {
    if rs != [] {
      assert rs[0] in rs;
      FeeNonNegative(rs[0].lastFillPrice, rs[0].lastFillQty, bps);
      JobsGood(ex, rs[1..], ts, bps);
      hide ComputeFee;
    }
  }

  lemma {:induction false} TradeJobsGood(ex: Exchange, trade: Tick, ts: int, bps: int)
    requires GoodExchange(ex)
    ensures GoodJobs(JobsOf(OnTrade(ex, trade).0, OnTrade(ex, trade).1, ts, bps))
  {
    hide OnTrade, GoodExchange;
    forall r | r in OnTrade(ex, trade).1 ensures Names(OnTrade(ex, trade).0.orders, r) {
      TradeNames(ex, trade, r);
    }
    JobsGood(OnTrade(ex, trade).0, OnTrade(ex, trade).1, ts, bps);
  }

  // The report of a market fill names its order and fills at most what was asked.
  lemma {:induction false} MarketNames(ex: Exchange, id: int, fallback: Option<int>)
    requires GoodExchange(ex) && id in ex.orders && ex.orders[id].state == PendingNew
    ensures FillMarket(ex, id, fallback).Some?
    ensures
      var (ex1, r) := FillMarket(ex, id, fallback).value;
      && r.orderId == id && r.symbolId == ex.orders[id].order.symbolId
      && 0 <= r.lastFillQty <= ex.orders[id].remaining && id in ex1.orders
      && ex1.orders[id].remaining == ex.orders[id].remaining - r.lastFillQty
      && ex1.orders[id].order == ex.orders[id].order
  {
    assert GoodOrder(id, ex.orders[id]);
    QuotePositive(ex, ex.orders[id].order.side, fallback);
    hide GoodExchange, MarketQuote;
  }

  // ---- Handlers -------------------------------------------------------------------------------------

  lemma {:induction false} CallLedger<S>(env: Env<S>, c: Core<S>, ts: int, payload: Payload)
    ensures Call(env, c, ts, payload).Effect? ==> Call(env, c, ts, payload).core.ledger == c.ledger
  {
    hide Commands;
  }

  lemma {:induction false} FlushLedger<S>(env: Env<S>, c: Core<S>, ts: int)
    ensures Flush(env, c, ts).Effect? ==> Flush(env, c, ts).core.ledger == c.ledger
  {
    hide Commands, HandOver;
  }

  // The fills that an event records, in order.
  function EventJobs<S>(env: Env<S>, c: Core<S>, kind: EventKind): seq<FillJob> {
    match kind
    case EvTick(tick) =>
      var (ex, rs) := OnTrade(ExchangeAt(c, tick.symbolId), tick);
      JobsOf(ex, rs, tick.tsExchange, env.cfg.makerBps)
    case EvAck(id) =>
      if id !in c.routes then []
      else
        var s := c.routes[id];
        var ex := ExchangeAt(c, s);
        if id in ex.orders && ex.orders[id].order.orderType == Market then
          var r := FillMarket(ex, id, if s in c.truth then Some(c.truth[s].price) else None).value.1;
          if r.lastFillQty > 0 then [JobOf(ex.orders[id].order, r, c.now, env.cfg.takerBps, true)] else []
        else []
    case _ => []
  }

  lemma {:induction false} RecordNothing(l: Ledger)
    ensures Record(l, []) == l
  {
  }

  // What an event does to the ledger: record its fills, or book a funding payment, or nothing.
  lemma {:induction false} EventLedger<S>(env: Env<S>, c: Core<S>, kind: EventKind)
    ensures
      var eff := Handle(env, c, kind);
      eff.Effect? ==>
        eff.core.ledger ==
          match kind
          case EvFunding(event) =>
            var mark := FundingMark(c, event.symbolId);
            if mark.Some? then Fund(c.ledger, event, mark.value) else c.ledger
          case _ => Record(c.ledger, EventJobs(env, c, kind))
  {
    RecordNothing(c.ledger);
    hide Call, OnTrade, Record, JobsOf, UpdateL3, Submit, FillMarket, ForceCancel, AckNew, Cancel, AckCancel,
      ExchangeAt, Remove, Fund, FundingMark, ComputeFee, UpdateL2;
    match kind {
      case EvDelivery(tick) => CallLedger(env, c.(market := c.market[tick.symbolId := tick]), tick.tsLocal,
                                          OnTick(tick));
      case EvReport(r) => CallLedger(env, Retire(c, r), c.now, OnReport(r));
      case EvFunding(event) =>
        var mark := FundingMark(c, event.symbolId);
        CallLedger(env, if mark.Some? then c.(ledger := Fund(c.ledger, event, mark.value)) else c, c.now,
                   OnFunding(event));
      case _ =>
    }
  }

  lemma {:induction false} EventJobsGood<S>(env: Env<S>, c: Core<S>, e: Event, q: Queue)
    requires LifeAt(c, [e] + q)
    ensures GoodJobs(EventJobs(env, c, e.kind))
  {
    if e.kind.EvTick? {
      ExchangeFacts(c, e.kind.tick.symbolId);
      hide GoodExchange, OnTrade, ExchangeAt, JobsOf;
      TradeJobsGood(ExchangeAt(c, e.kind.tick.symbolId), e.kind.tick, e.kind.tick.tsExchange, env.cfg.makerBps);
    } else if e.kind.EvAck? && e.kind.id in c.routes {
      var id, s := e.kind.id, c.routes[e.kind.id];
      AckFindsOrder(c.exchanges, DeskOf(c), e, q);
      ExchangeFacts(c, s);
      var ex := ExchangeAt(c, s);
      var fallback := if s in c.truth then Some(c.truth[s].price) else None;
      MarketNames(ex, id, fallback);
      var r := FillMarket(ex, id, fallback).value.1;
      FeeNonNegative(r.lastFillPrice, r.lastFillQty, env.cfg.takerBps);
      hide GoodExchange, FillMarket, ExchangeAt, ComputeFee, LifeOk;
    }
  }

  // Every event keeps the ledgers in step and the PnL total single.
  lemma {:induction false} HandleMoney<S>(env: Env<S>, c: Core<S>, e: Event, q: Queue)
    requires LifeAt(c, [e] + q) && MoneyOk(c.ledger)
    ensures Handle(env, c, e.kind).Effect? ==> MoneyOk(Handle(env, c, e.kind).core.ledger)
  {
    EventLedger(env, c, e.kind);
    EventJobsGood(env, c, e, q);
    hide Handle, Record, Fund, FundingMark, EventJobs, MoneyOk, LifeAt;
    if e.kind.EvFunding? {
      var mark := FundingMark(c, e.kind.funding.symbolId);
      if mark.Some? {
        FundMoney(c.ledger, e.kind.funding, mark.value);
      }
    } else {
      RecordMoney(c.ledger, EventJobs(env, c, e.kind));
    }
  }
}
