// The position bound through every event handler.
module PositionSteps {
  import opened Types
  import opened Accounts
  import opened Ledgers
  import opened QueueModels
  import opened Exchanges
  import opened ExchangeProps
  import opened EventQueues
  import opened EngineSpec
  import opened EngineClock
  import opened QueueViews
  import opened Lifecycle
  import opened LifecycleSteps
  import opened LifecycleRun
  import opened StreamSteps
  import opened EngineMoney
  import opened PositionBound

  // ---- The one order that fills -------------------------------------------------------------------

  lemma {:induction false} AllMine(rs: seq<OrderReport>, id: int, ts: int)
    requires forall r :: r in rs ==> r.orderId == id
    ensures ReportsPushed(ReportPushes(ts, rs), id) == rs
  {
    if rs == [] {
      NothingPushed(ts, id);
    } else {
      assert rs[0] in rs && rs == [rs[0]] + rs[1..];
      AllMine(rs[1..], id, ts);
      ReportsOfPushes(ts, [rs[0]], rs[1..], id);
      var ps := ReportPushes(ts, [rs[0]]);
      assert ps == [ps[0]];
      OnePushed(ps[0], id);
    }
  }

  lemma {:induction false} SilentOffer(o: LiveOrder, trade: Tick)
    requires Offer(o, trade).1 == []
    ensures Offer(o, trade).0.order == o.order && Offer(o, trade).0.remaining == o.remaining
  {
    hide CheckFill;
  }

  lemma {:induction false} SilentTrade(ex: Exchange, trade: Tick)
    requires GoodExchange(ex) && OnTrade(ex, trade).1 == []
    ensures SameRest(ex.orders, OnTrade(ex, trade).0.orders)
  {
    TradePointwise(ex, trade);
    hide OnTrade, Offer, GoodExchange;
    forall id | id in ex.orders
      ensures Offer(ex.orders[id], trade).0.order == ex.orders[id].order
              && Offer(ex.orders[id], trade).0.remaining == ex.orders[id].remaining
    {
      TradeReportsFor(ex, trade, 0, id);
      NothingPushed(0, id);
      SilentOffer(ex.orders[id], trade);
    }
  }

  // When the exchange holds a single order, a trade gives at most that order's one report.
  lemma {:induction false} SoleReport(ex: Exchange, trade: Tick, id: int)
    requires GoodExchange(ex) && id in ex.orders && (forall other :: other in ex.orders ==> other == id)
    ensures |OnTrade(ex, trade).1| <= 1
  {
    var rs := OnTrade(ex, trade).1;
    hide OnTrade, GoodExchange;
    forall r | r in rs ensures r.orderId == id {
      TradeNames(ex, trade, r);
    }
    AllMine(rs, id, 0);
    TradeReportsFor(ex, trade, 0, id);
    OfferPushed(ex.orders[id], trade, 0, id);
  }

  lemma {:induction false} OneJob(ex: Exchange, r: OrderReport, ts: int, bps: int)
    requires r.lastFillQty > 0 && r.orderId in ex.orders
    ensures JobsOf(ex, [r], ts, bps) == [JobOf(ex.orders[r.orderId].order, r, ts, bps, false)]
  {
    hide ComputeFee;
    assert [r][1..] == [];
    assert JobsOf(ex, [], ts, bps) == [];
  }

  // The only order in the system is replaced by one that is still covered.
  lemma {:induction false} SoleCovered(
    a: AccountState, limit: int, xs: Venues, s: int, id: int, orders: OrderMap, ex: Exchange)
    requires forall t, other :: t in xs && other in xs[t].orders ==> other == id && t == s
    requires ex.orders == orders && (forall other :: other in orders ==> other == id)
    requires id in orders ==> Covered(a, limit, s, orders[id].order.side, orders[id].remaining)
    ensures VenuesCovered(a, limit, xs[s := ex])
  {
    var xs' := xs[s := ex];
    hide Covered;
    forall t | t in xs' ensures OrdersCovered(a, limit, t, xs'[t].orders) {
      assert t != s ==> xs'[t] == xs[t];
    }
  }

  lemma {:induction false} RecordLimits(cfg: Config, l: Ledger, jobs: seq<FillJob>)
    requires Limits(cfg, l.guard)
    ensures Limits(cfg, Record(l, jobs).guard)
  {
    SettleFrame(l.(log := LogFills(l.log, jobs)), jobs);
  }

  lemma {:induction false} FilledPosition(
    cfg: Config, l: Ledger, xs: Venues, d: Desk, e: Event, q: Queue, q': Queue, s: int, id: int, ex: Exchange,
    job: FillJob)
    requires OneOrderLimit(cfg) && LifeOk(xs, d, [e] + q) && PositionOk(cfg, l, xs, d, [e] + q)
    requires id in d.routes && d.routes[id] == s && LiveIn(xs, s, id).Some?
    requires !e.kind.EvOrder? && OrdersIn(q') == OrdersIn(q)
    requires
      var o := LiveIn(xs, s, id).value;
      && job.order == o.order && 0 < job.fill.qty <= o.remaining
      && ex.orders.Keys == OrdersAt(xs, s).Keys
      && ex.orders[id].order == o.order && ex.orders[id].remaining == o.remaining - job.fill.qty
    ensures PositionOk(cfg, Record(l, [job]), xs[s := ex], d, q')
  {
    var o := LiveIn(xs, s, id).value;
    Alone(xs, d, [e] + q, id);
    PopViews(e, q, id);
    Assoc(OrdersIn(q), [], []);
    OwnedHere(xs, d, s);
    assert OrdersCovered(l.account, cfg.maxPosition, s, OrdersAt(xs, s));
    var mid := l.(log := LogFills(l.log, [job]));
    SettleFrame(mid, [job]);
    RecordOne(l, job);
    hide AfterFill, OrdersIn, LifeOk, Record, Settle, Covered, Bounded;
    FillWithin(l.account, o.order, o.remaining, job.fill.qty, job.fill.price, cfg.maxPosition);
    SoleCovered(Record(l, [job]).account, cfg.maxPosition, xs, s, id, ex.orders, ex);
    RecordLimits(cfg, l, [job]);
  }

  // ---- Handlers --------------------------------------------------------------------------------------

  // Everything a position step starts from.
  ghost predicate Placed<S>(env: Env<S>, c: Core<S>, e: Event, q: Queue, next: int) {
    Ready(env, c, e, q, next) && OneOrderLimit(env.cfg) && PositionAt(env.cfg, c, [e] + q)
  }

  lemma {:induction false} SameSelf(a: AccountState)
    ensures SamePositions(a, a)
  {
  }

  lemma {:induction false} TradeKeys(ex: Exchange, tick: Tick)
    requires GoodExchange(ex)
    ensures OnTrade(ex, tick).0.orders.Keys == ex.orders.Keys
  {
    TradePointwise(ex, tick);
  }

  lemma {:induction false} AloneHere(xs: Venues, d: Desk, q: Queue, s: int, id: int, cfg: Config, l: Ledger)
    requires LifeOk(xs, d, q) && PositionOk(cfg, l, xs, d, q) && id in OrdersAt(xs, s)
    ensures id in d.routes && d.routes[id] == s && LiveIn(xs, s, id).Some?
    ensures forall other :: other in OrdersAt(xs, s) ==> other == id
  {
    OwnedHere(xs, d, s);
    hide GoodExchange, OrdersIn, VenuesCovered, ArrivalsCovered, Bounded;
    Alone(xs, d, q, id);
  }

  // An event that fills nothing, and changes at most one exchange without changing what is left of
  // any order in it.
  lemma {:induction false} QuietPosition(
    cfg: Config, l: Ledger, xs: Venues, d: Desk, e: Event, q: Queue, l': Ledger, s: int, ex: Exchange, d': Desk,
    q': Queue)
    requires PositionOk(cfg, l, xs, d, [e] + q) && Limits(cfg, l'.guard) && SamePositions(l.account, l'.account)
    requires |d'.routes| <= 1 && SameRest(OrdersAt(xs, s), ex.orders) && OrdersIn(q') == OrdersIn(q)
    ensures PositionOk(cfg, l', xs[s := ex], d', q')
  {
    PopViews(e, q, 0);
    hide OrdersIn, VenuesCovered, Bounded, ArrivalsCovered;
    forall i | 0 <= i < |OrdersIn(q')| ensures OrdersIn(q')[i] in OrdersIn([e] + q) {
      assert OrdersIn(q)[i] == OrdersIn([e] + q)[|QueuedOrder(e.kind)| + i];
    }
    PositionKept(cfg, l, xs, d, [e] + q, l', xs[s := ex], d', q');
  }

  lemma {:induction false} TradePosition(
    cfg: Config, l: Ledger, xs: Venues, d: Desk, e: Event, q: Queue, next: int, now: int, ex: Exchange, tick: Tick,
    ps: seq<Push>, ts: int)
    requires OneOrderLimit(cfg) && LifeOk(xs, d, [e] + q) && PositionOk(cfg, l, xs, d, [e] + q)
    requires e.kind.EvTick? && Room(cfg, q, next, now) && FreshPushes(cfg, now, ps) && NoOrder(ps)
    requires GoodExchange(ex) && ex.orders == OrdersAt(xs, tick.symbolId)
    ensures
      var (ex', rs) := OnTrade(ex, tick);
      PositionOk(cfg, Record(l, JobsOf(ex', rs, ts, cfg.makerBps)), xs[tick.symbolId := ex'], d, PushAll(q, next, ps))
  {
    var s, q' := tick.symbolId, PushAll(q, next, ps);
    var (ex', rs) := OnTrade(ex, tick);
    NoOrdersPushed(ps);
    PopViews(e, q, 0);
    Assoc(OrdersIn(q), [], []);
    OwnedHere(xs, d, s);
    hide PushAll, Room, FreshPushes, NoOrder, OnTrade, GoodExchange, LifeOk, OrdersIn, Record, PositionOk;
    RoomViews(cfg, q, next, now, ps, 0);
    if rs == [] {
      SilentTrade(ex, tick);
      RecordNothing(l);
      assert JobsOf(ex', rs, ts, cfg.makerBps) == [];
      QuietPosition(cfg, l, xs, d, e, q, l, s, ex', d, q');
    } else {
      var r := rs[0];
      assert r in rs;
      TradeNames(ex, tick, r);
      var id := r.orderId;
      AloneHere(xs, d, [e] + q, s, id, cfg, l);
      SoleReport(ex, tick, id);
      assert rs == [r];
      TradeKeys(ex, tick);
      OneJob(ex', r, ts, cfg.makerBps);
      var job := JobOf(ex'.orders[id].order, r, ts, cfg.makerBps, false);
      hide JobsOf, ComputeFee, World;
      FilledPosition(cfg, l, xs, d, e, q, q', s, id, ex', job);
    }
  }

  lemma {:induction false} TickPosition<S>(env: Env<S>, c: Core<S>, e: Event, q: Queue, next: int)
    requires Placed(env, c, e, q, next) && e.kind.EvTick?
    ensures
      var eff := Handle(env, c, e.kind);
      PositionAt(env.cfg, eff.core, PushAll(q, next, eff.pushes))
  {
    var tick, d := e.kind.tick, DeskOf(c);
    var s := tick.symbolId;
    var ex := ExchangeAt(c, s);
    HandleFresh(env, c, e.kind);
    ExchangeFacts(c, s);
    EventLedger(env, c, e.kind);
    var eff := Handle(env, c, e.kind);
    var (ex', rs) := OnTrade(ex, tick);
    var jobs := JobsOf(ex', rs, tick.tsExchange, env.cfg.makerBps);
    assert eff.core.exchanges == c.exchanges[s := ex'] && DeskOf(eff.core) == d;
    assert eff.core.ledger == Record(c.ledger, jobs);
    assert eff.pushes == ReportPushes(tick.tsExchange + env.cfg.reportLatency, rs);
    ReportPushesQuiet(tick.tsExchange + env.cfg.reportLatency, rs);
    hide Handle, ExchangeAt, LifeOk, GoodExchange, OnTrade, PushAll, Room, FreshPushes, ReportPushes, Record,
      PositionOk, NoOrder,
      JobsOf, EventJobs;
    TradePosition(env.cfg, c.ledger, c.exchanges, d, e, q, next, c.now, ex, tick, eff.pushes, tick.tsExchange);
  }

  lemma {:induction false} PositionLimits(cfg: Config, l: Ledger, xs: Venues, d: Desk, q: Queue)
    requires PositionOk(cfg, l, xs, d, q)
    ensures Limits(cfg, l.guard) && |d.routes| <= 1
  {
  }

  lemma {:induction false} OrdersStay(cfg: Config, q: Queue, next: int, now: int, ps: seq<Push>)
    requires Room(cfg, q, next, now) && FreshPushes(cfg, now, ps) && NoOrder(ps)
    ensures OrdersIn(PushAll(q, next, ps)) == OrdersIn(q)
  {
    NoOrdersPushed(ps);
    RoomViews(cfg, q, next, now, ps, 0);
    Assoc(OrdersIn(q), [], []);
  }

  lemma {:induction false} JobTerms(order: Order, r: OrderReport, ts: int, bps: int)
    ensures JobOf(order, r, ts, bps, true).order == order && JobOf(order, r, ts, bps, true).fill.qty == r.lastFillQty
  {
    hide ComputeFee;
  }

  lemma {:induction false} UnfilledRest(a: OrderMap, b: OrderMap, id: int)
    requires OnlyChanges(a, b, id) && id in a && b[id].order == a[id].order && b[id].remaining == a[id].remaining
    ensures SameRest(a, b)
  {
  }

  // What acknowledging a market order leaves: one order filled by what its first report says.
  lemma {:induction false} MarketAckShape<S>(env: Env<S>, c: Core<S>, s: int, id: int)
    requires
      var ex := ExchangeAt(c, s);
      && GoodExchange(ex) && id in ex.orders && ex.orders[id].state == PendingNew
         && ex.orders[id].order.orderType == Market
    ensures
      var (ex, r, eff) := (ExchangeAt(c, s), MarketReport(c, s, id), MarketAck(env, c, s, id));
      && eff.Effect? && DeskOf(eff.core) == DeskOf(c) && NoOrder(eff.pushes)
      && s in eff.core.exchanges && eff.core.exchanges == c.exchanges[s := eff.core.exchanges[s]]
      && eff.core.ledger == Record(c.ledger,
           if r.lastFillQty > 0 then [JobOf(ex.orders[id].order, r, c.now, env.cfg.takerBps, true)] else [])
      && 0 <= r.lastFillQty <= ex.orders[id].remaining
      && OnlyChanges(ex.orders, eff.core.exchanges[s].orders, id)
      && eff.core.exchanges[s].orders[id].order == ex.orders[id].order
      && eff.core.exchanges[s].orders[id].remaining == ex.orders[id].remaining - r.lastFillQty
  {
    var ex := ExchangeAt(c, s);
    var fallback := if s in c.truth then Some(c.truth[s].price) else None;
    MarketEffect(env, c, s, id);
    MarketOutcome(ex, id, fallback);
    MarketNames(ex, id, fallback);
    RecordNothing(c.ledger);
    var eff := MarketAck(env, c, s, id);
    var (ex1, r) := FillMarket(ex, id, fallback).value;
    assert eff.core.ledger == Record(c.ledger,
      if r.lastFillQty > 0 then [JobOf(ex.orders[id].order, r, c.now, env.cfg.takerBps, true)] else []);
    hide ExchangeAt, GoodExchange, FillMarket, MarketAck, Record, JobOf, OnlyChanges, NoOrder;
    if r.status == PartiallyFilled {
      TwoReports(eff.pushes, r, ForceCancel(ex1, id).value.1);
      assert ForceCancel(ex1, id).value.0.orders[id].remaining == ex1.orders[id].remaining;
    } else {
      OneReport(eff.pushes, r);
    }
  }

  lemma {:induction false} MarketAckPosition<S>(env: Env<S>, c: Core<S>, e: Event, q: Queue, next: int)
    requires Placed(env, c, e, q, next) && e.kind.EvAck? && e.kind.id in c.routes
    requires
      var (id, s) := (e.kind.id, c.routes[e.kind.id]);
      var ex := ExchangeAt(c, s);
      && GoodExchange(ex) && ex.orders == OrdersAt(c.exchanges, s)
      && id in ex.orders && ex.orders[id].state == PendingNew && ex.orders[id].order.orderType == Market
    ensures
      var eff := Handle(env, c, e.kind);
      PositionAt(env.cfg, eff.core, PushAll(q, next, eff.pushes))
  {
    var (id, s, d) := (e.kind.id, c.routes[e.kind.id], DeskOf(c));
    var ex := ExchangeAt(c, s);
    HandleFresh(env, c, e.kind);
    MarketAckShape(env, c, s, id);
    var eff := Handle(env, c, e.kind);
    assert eff == MarketAck(env, c, s, id);
    var r := MarketReport(c, s, id);
    var ex2 := eff.core.exchanges[s];
    var q' := PushAll(q, next, eff.pushes);
    hide Handle, ExchangeAt, LifeOk, GoodExchange, PushAll, Room, FreshPushes, MarketAck, NoOrder, Record, PositionOk,
      JobOf, MarketReport;
    OrdersStay(env.cfg, q, next, c.now, eff.pushes);
    if r.lastFillQty > 0 {
      var job := JobOf(ex.orders[id].order, r, c.now, env.cfg.takerBps, true);
      JobTerms(ex.orders[id].order, r, c.now, env.cfg.takerBps);
      FilledPosition(env.cfg, c.ledger, c.exchanges, d, e, q, q', s, id, ex2, job);
    } else {
      RecordNothing(c.ledger);
      SameSelf(c.ledger.account);
      PositionLimits(env.cfg, c.ledger, c.exchanges, d, [e] + q);
      UnfilledRest(ex.orders, ex2.orders, id);
      QuietPosition(env.cfg, c.ledger, c.exchanges, d, e, q, c.ledger, s, ex2, d, q');
    }
  }

  lemma {:induction false} AckPosition<S>(env: Env<S>, c: Core<S>, e: Event, q: Queue, next: int)
    requires Placed(env, c, e, q, next) && e.kind.EvAck?
    ensures
      var eff := Handle(env, c, e.kind);
      PositionAt(env.cfg, eff.core, PushAll(q, next, eff.pushes))
  {
    var id, d := e.kind.id, DeskOf(c);
    AckFindsOrder(c.exchanges, d, e, q);
    var s := c.routes[id];
    var ex := ExchangeAt(c, s);
    ExchangeFacts(c, s);
    HandleFresh(env, c, e.kind);
    EventLedger(env, c, e.kind);
    var eff := Handle(env, c, e.kind);
    var l' := Record(c.ledger, EventJobs(env, c, e.kind));
    assert eff.core.ledger == l';
    if ex.orders[id].order.orderType == Market {
      MarketAckPosition(env, c, e, q, next);
    } else {
      LimitEffect(env, c, id);
      assert EventJobs(env, c, e.kind) == [];
      RecordNothing(c.ledger);
      SameSelf(c.ledger.account);
      OneReport(eff.pushes, AckNew(ex, id).value.1);
      var ex' := AckNew(ex, id).value.0;
      assert SameRest(OrdersAt(c.exchanges, s), ex'.orders);
      hide Handle, ExchangeAt, LifeOk, GoodExchange, PushAll, Room, FreshPushes, AckNew, NoOrder, Record, EventJobs,
        PositionOk;
      OrdersStay(env.cfg, q, next, c.now, eff.pushes);
      PositionLimits(env.cfg, c.ledger, c.exchanges, d, [e] + q);
      QuietPosition(env.cfg, c.ledger, c.exchanges, d, e, q, c.ledger, s, ex', d, PushAll(q, next, eff.pushes));
    }
  }

  function MarketReport<S>(c: Core<S>, s: int, id: int): OrderReport
    requires id in ExchangeAt(c, s).orders
  {
    FillMarket(ExchangeAt(c, s), id, if s in c.truth then Some(c.truth[s].price) else None).value.1
  }

  // ---- Events without fills -----------------------------------------------------------------------

  lemma {:induction false} SettledPosition<S>(
    env: Env<S>, c: Core<S>, e: Event, q: Queue, next: int, s: Option<int>, eff: Effect<S>)
    requires Placed(env, c, e, q, next) && eff.Effect? && FreshPushes(env.cfg, c.now, eff.pushes) && NoOrder(eff.pushes)
    requires SamePositions(c.ledger.account, eff.core.ledger.account) && Limits(env.cfg, eff.core.ledger.guard)
    requires |eff.core.routes| <= 1
    requires s.None? ==> eff.core.exchanges == c.exchanges
    requires s.Some? ==>
               && s.value in eff.core.exchanges
               && eff.core.exchanges == c.exchanges[s.value := eff.core.exchanges[s.value]]
               && SameRest(OrdersAt(c.exchanges, s.value), eff.core.exchanges[s.value].orders)
    ensures PositionAt(env.cfg, eff.core, PushAll(q, next, eff.pushes))
  {
    hide PushAll, Room, FreshPushes, LifeAt, PositionOk, NoOrder;
    var q' := PushAll(q, next, eff.pushes);
    OrdersStay(env.cfg, q, next, c.now, eff.pushes);
    if s.Some? {
      QuietPosition(env.cfg, c.ledger, c.exchanges, DeskOf(c), e, q, eff.core.ledger, s.value,
                    eff.core.exchanges[s.value], DeskOf(eff.core), q');
    } else {
      PopViews(e, q, 0);
      hide OrdersIn;
      forall i | 0 <= i < |OrdersIn(q')| ensures OrdersIn(q')[i] in OrdersIn([e] + q) {
        assert OrdersIn(q)[i] == OrdersIn([e] + q)[|QueuedOrder(e.kind)| + i];
      }
      PositionKept(env.cfg, c.ledger, c.exchanges, DeskOf(c), [e] + q, eff.core.ledger, eff.core.exchanges,
                   DeskOf(eff.core), q');
    }
  }

  lemma {:induction false} BookNoOrder<S>(env: Env<S>, c: Core<S>, kind: EventKind)
    requires kind.EvL2? || kind.EvL3? || kind.EvCancel?
    ensures Handle(env, c, kind).Effect? ==> NoOrder(Handle(env, c, kind).pushes)
  {
    hide UpdateL2, UpdateL3, Cancel, ExchangeAt, Delay;
  }

  lemma {:induction false} NotifiedRest(ex: Exchange, u: L3Update)
    ensures UpdateL3(ex, u).Some? ==> SameRest(ex.orders, UpdateL3(ex, u).value.orders)
  {
    hide OnL3;
  }

  lemma {:induction false} BookRest<S>(env: Env<S>, c: Core<S>, kind: EventKind, s: int)
    requires kind.EvL2? || kind.EvL3? || kind.EvCancel?
    requires Handle(env, c, kind).Effect? && BookSymbol(c, kind) == Some(s) && s in Handle(env, c, kind).core.exchanges
    ensures SameRest(OrdersAt(c.exchanges, s), Handle(env, c, kind).core.exchanges[s].orders)
  {
    if kind.EvL3? {
      NotifiedRest(ExchangeAt(c.(l3Symbols := c.l3Symbols + {s}), s), kind.l3);
      hide UpdateL3;
    } else {
      hide Delay;
    }
  }

  lemma {:induction false} BookPosition<S>(env: Env<S>, c: Core<S>, e: Event, q: Queue, next: int)
    requires Placed(env, c, e, q, next) && (e.kind.EvL2? || e.kind.EvL3? || e.kind.EvCancel?)
    ensures
      var eff := Handle(env, c, e.kind);
      eff.Effect? ==> PositionAt(env.cfg, eff.core, PushAll(q, next, eff.pushes))
  {
    HandleFresh(env, c, e.kind);
    EventLedger(env, c, e.kind);
    RecordNothing(c.ledger);
    SameSelf(c.ledger.account);
    BookEffect(env, c, e.kind);
    PositionLimits(env.cfg, c.ledger, c.exchanges, DeskOf(c), [e] + q);
    var eff := Handle(env, c, e.kind);
    if eff.Effect? {
      var s := BookSymbol(c, e.kind);
      assert NoOrder(eff.pushes) by {
        BookNoOrder(env, c, e.kind);
      }
      if s.Some? {
        BookRest(env, c, e.kind, s.value);
      }
      hide Handle, LifeAt, Room, FreshPushes, PushAll, NoOrder, Record, EventJobs, PositionOk;
      SettledPosition(env, c, e, q, next, s, eff);
    }
  }

  lemma {:induction false} CancelAckShape<S>(env: Env<S>, c: Core<S>, id: int)
    ensures
      var eff := Handle(env, c, EvCancelAck(id));
      && eff.Effect? && NoOrder(eff.pushes) && DeskOf(eff.core) == DeskOf(c)
      && if id in c.routes then
           var s := c.routes[id];
           && s in eff.core.exchanges && eff.core.exchanges == c.exchanges[s := eff.core.exchanges[s]]
           && SameRest(OrdersAt(c.exchanges, s), eff.core.exchanges[s].orders)
         else eff.core.exchanges == c.exchanges
  {
  }

  lemma {:induction false} CancelAckPosition<S>(env: Env<S>, c: Core<S>, e: Event, q: Queue, next: int)
    requires Placed(env, c, e, q, next) && e.kind.EvCancelAck?
    ensures
      var eff := Handle(env, c, e.kind);
      PositionAt(env.cfg, eff.core, PushAll(q, next, eff.pushes))
  {
    var id := e.kind.id;
    HandleFresh(env, c, e.kind);
    EventLedger(env, c, e.kind);
    RecordNothing(c.ledger);
    SameSelf(c.ledger.account);
    PositionLimits(env.cfg, c.ledger, c.exchanges, DeskOf(c), [e] + q);
    CancelAckShape(env, c, id);
    var eff := Handle(env, c, e.kind);
    hide Handle, LifeAt, Room, FreshPushes, PushAll, NoOrder, Record, EventJobs, PositionOk;
    SettledPosition(env, c, e, q, next, if id in c.routes then Some(c.routes[id]) else None, eff);
  }

  lemma {:induction false} SubmitRest(m: QueueModel, ex: Exchange, order: Order)
    ensures
      var ex' := Submit(m, ex, order);
      && OnlyChanges(ex.orders, ex'.orders, order.orderId)
      && ex'.orders[order.orderId].order == order && ex'.orders[order.orderId].remaining == order.qty
  {
    hide Register, DepthOf;
  }

  lemma {:induction false} ArrivedCovered(
    cfg: Config, l: Ledger, xs: Venues, d: Desk, e: Event, q: Queue, ex: Exchange, q': Queue)
    requires PositionOk(cfg, l, xs, d, [e] + q) && e.kind.EvOrder? && OrdersIn(q') == OrdersIn(q)
    requires OrdersIn([e] + q) == [e.kind.order] + OrdersIn(q)
    requires
      var o := e.kind.order;
      && OnlyChanges(OrdersAt(xs, o.symbolId), ex.orders, o.orderId)
      && ex.orders[o.orderId].order == o && ex.orders[o.orderId].remaining == o.qty
    ensures PositionOk(cfg, l, xs[e.kind.order.symbolId := ex], d, q')
  {
    var o, s, a := e.kind.order, e.kind.order.symbolId, l.account;
    hide OrdersIn, Covered, Bounded;
    assert OrdersIn([e] + q)[0] == o;
    assert Covered(a, cfg.maxPosition, s, o.side, o.qty);
    assert OrdersCovered(a, cfg.maxPosition, s, OrdersAt(xs, s));
    forall id | id in ex.orders ensures Covered(a, cfg.maxPosition, s, ex.orders[id].order.side,
                                                ex.orders[id].remaining) {
      assert id == o.orderId || id in OrdersAt(xs, s);
    }
    forall i | 0 <= i < |OrdersIn(q)| ensures OrdersIn(q)[i] == OrdersIn([e] + q)[i + 1] {}
  }

  // An arriving order brings its cover with it.
  lemma {:induction false} OrderPosition<S>(env: Env<S>, c: Core<S>, e: Event, q: Queue, next: int)
    requires Placed(env, c, e, q, next) && e.kind.EvOrder?
    ensures
      var eff := Handle(env, c, e.kind);
      PositionAt(env.cfg, eff.core, PushAll(q, next, eff.pushes))
  {
    var order, d := e.kind.order, DeskOf(c);
    var s := order.symbolId;
    var ex := ExchangeAt(c, s);
    HandleFresh(env, c, e.kind);
    EventLedger(env, c, e.kind);
    RecordNothing(c.ledger);
    ExchangeFacts(c, s);
    var eff := Handle(env, c, e.kind);
    var ex' := Submit(env.cfg.model, ex, order);
    assert eff.core.exchanges == c.exchanges[s := ex'] && DeskOf(eff.core) == d;
    assert NoOrder(eff.pushes);
    SubmitRest(env.cfg.model, ex, order);
    PopViews(e, q, 0);
    assert OrdersIn([e] + q)[0] == order;
    hide Handle, ExchangeAt, LifeOk, GoodExchange, PushAll, Room, FreshPushes, Submit, NoOrder, Record, EventJobs,
      OrdersIn;
    OrdersStay(env.cfg, q, next, c.now, eff.pushes);
    ArrivedCovered(env.cfg, c.ledger, c.exchanges, d, e, q, ex', PushAll(q, next, eff.pushes));
  }

  lemma {:induction false} ReportLedger<S>(env: Env<S>, c: Core<S>, r: OrderReport)
    ensures env.cfg.mode == BatchMode ==> Handle(env, c, EvReport(r)).core.ledger == Retire(c, r).ledger
  {
    hide Retire;
  }

  lemma {:induction false} RetireShape<S>(c: Core<S>, r: OrderReport)
    ensures
      var c1 := Retire(c, r);
      && c1.ledger == c.ledger && c1.now == c.now && c1.routes.Keys <= c.routes.Keys
      && if r.orderId in c.routes && IsTerminal(r.status) then
           var s := c.routes[r.orderId];
           && s in c1.exchanges && c1.exchanges == c.exchanges[s := c1.exchanges[s]]
           && SameRest(OrdersAt(c.exchanges, s), c1.exchanges[s].orders)
         else c1.exchanges == c.exchanges
  {
  }

  lemma {:induction false} ReportPosition<S>(env: Env<S>, c: Core<S>, e: Event, q: Queue, next: int)
    requires Placed(env, c, e, q, next) && e.kind.EvReport?
    ensures
      var eff := Handle(env, c, e.kind);
      eff.Effect? ==> PositionAt(env.cfg, eff.core, PushAll(q, next, eff.pushes))
  {
    var r := e.kind.report;
    var c1 := Retire(c, r);
    RetireShape(c, r);
    SameSelf(c.ledger.account);
    PositionLimits(env.cfg, c.ledger, c.exchanges, DeskOf(c), [e] + q);
    assert |c1.routes| <= 1 by {
      SubsetSize(c1.routes.Keys, c.routes.Keys);
    }
    ReportEffect(env, c, r);
    ReportLedger(env, c, r);
    var s := if r.orderId in c.routes && IsTerminal(r.status) then Some(c.routes[r.orderId]) else None;
    assert PushAll(q, next, []) == q;
    hide Handle, LifeAt, Room, PositionOk, Retire, PushAll, Call;
    SettledPosition(env, c, e, q, next, s, Effect(c1, [], [], false, false));
    if env.cfg.mode == TickMode {
      CallPosition(env, c1, q, next, OnReport(r));
    }
  }

  lemma {:induction false} AskedLedger<S>(env: Env<S>, c: Core<S>, kind: EventKind)
    requires kind.EvDelivery? || kind.EvFunding?
    ensures
      var c1 := Asked(env, c, kind).0;
      && SamePositions(c.ledger.account, c1.ledger.account)
      && c1.ledger.guard.maxOpenOrders == c.ledger.guard.maxOpenOrders
      && c1.ledger.guard.maxPosition == c.ledger.guard.maxPosition
  {
    SameSelf(c.ledger.account);
    hide Fund, FundingMark;
    if kind.EvFunding? && FundingMark(c, kind.funding.symbolId).Some? {
      FundPositions(c.ledger, kind.funding, FundingMark(c, kind.funding.symbolId).value);
    }
  }

  lemma {:induction false} OtherPosition<S>(env: Env<S>, c: Core<S>, e: Event, q: Queue, next: int)
    requires Placed(env, c, e, q, next) && (e.kind.EvDelivery? || e.kind.EvFunding? || e.kind.EvTimer?)
    ensures
      var eff := Handle(env, c, e.kind);
      eff.Effect? ==> PositionAt(env.cfg, eff.core, PushAll(q, next, eff.pushes))
  {
    HandleFresh(env, c, e.kind);
    EventLedger(env, c, e.kind);
    RecordNothing(c.ledger);
    SameSelf(c.ledger.account);
    PositionLimits(env.cfg, c.ledger, c.exchanges, DeskOf(c), [e] + q);
    OtherEffect(env, c, e.kind);
    var eff := Handle(env, c, e.kind);
    if eff.Effect? {
      if Quietly(env, e.kind) {
        assert NoOrder(eff.pushes);
        hide Handle, LifeAt, Room, FreshPushes, PushAll, NoOrder, Record, EventJobs, PositionOk;
        SettledPosition(env, c, e, q, next, None, eff);
      } else {
        var (c1, payload) := Asked(env, c, e.kind);
        AskedLedger(env, c, e.kind);
        assert PushAll(q, next, []) == q;
        hide Handle, LifeAt, Room, FreshPushes, PushAll, Record, EventJobs, PositionOk, Call, Asked;
        SettledPosition(env, c, e, q, next, None, Effect(c1, [], [], false, false));
        CallPosition(env, c1, q, next, payload);
      }
    }
  }

  // Whatever event is handled, every position stays within the limit.
  lemma {:induction false} HandlePosition<S>(env: Env<S>, c: Core<S>, e: Event, q: Queue, next: int)
    requires Placed(env, c, e, q, next)
    ensures
      var eff := Handle(env, c, e.kind);
      eff.Effect? ==> PositionAt(env.cfg, eff.core, PushAll(q, next, eff.pushes))
  {
    hide Placed, Handle, PushAll, PositionAt;
    match e.kind {
      case EvTick(_) => TickPosition(env, c, e, q, next);
      case EvAck(_) => AckPosition(env, c, e, q, next);
      case EvCancelAck(_) => CancelAckPosition(env, c, e, q, next);
      case EvReport(_) => ReportPosition(env, c, e, q, next);
      case EvL2(_) => BookPosition(env, c, e, q, next);
      case EvL3(_) => BookPosition(env, c, e, q, next);
      case EvOrder(_) => OrderPosition(env, c, e, q, next);
      case EvCancel(_) => BookPosition(env, c, e, q, next);
      case _ => OtherPosition(env, c, e, q, next);
    }
  }
}
