// What the trade log says about one order: over a whole run the quantities logged for it add up to
// what it has filled, and a limit order is charged, piece by piece, what it would be charged whole.
module OrderFees {
  import opened Types
  import opened Arith
  import opened Accounts
  import opened RiskGuards
  import opened Stats
  import opened Ledgers
  import opened QueueModels
  import opened Exchanges
  import opened ExchangeProps
  import opened EventQueues
  import opened Feeds
  import opened EngineSpec
  import opened EngineClock
  import opened QueueViews
  import opened Lifecycle
  import opened LifecycleSteps
  import opened LifecycleRun
  import opened ReportStreams
  import opened StreamSteps
  import opened EngineMoney
  import opened PositionBound
  import opened PositionSteps
  import opened EngineInvariant
  import opened EngineGuarantees
  import opened OrderHistories

  // The fills of one order, in the order in which they were logged.
  function Mine(fills: seq<TradeFill>, id: int): seq<TradeFill> {
    if fills == [] then [] else (if fills[0].orderId == id then [fills[0]] else []) + Mine(fills[1..], id)
  }

  function Quantities(fills: seq<TradeFill>): (qs: seq<int>)
    ensures |qs| == |fills| && forall i :: 0 <= i < |qs| ==> qs[i] == fills[i].qty
  {
    seq(|fills|, i requires 0 <= i < |fills| => fills[i].qty)
  }

  function LoggedQty(fills: seq<TradeFill>): int {
    Sum(Quantities(fills))
  }

  function Fees(fills: seq<TradeFill>): int {
    if fills == [] then 0 else Fees(fills[..|fills| - 1]) + fills[|fills| - 1].fee
  }

  // Some quantity, on the order's side; and for a limit order, as a maker, at its own price and fee.
  predicate OwnTerms(order: Order, bps: int, f: TradeFill) {
    && f.qty > 0 && f.side == order.side && f.symbolId == order.symbolId
    && (order.orderType != Market ==>
          !f.isTaker && f.price == order.price && f.fee == ComputeFee(order.price, f.qty, bps))
  }

  ghost predicate Terms(order: Order, bps: int, fills: seq<TradeFill>) {
    forall f :: f in fills ==> OwnTerms(order, bps, f)
  }

  ghost predicate Booked(bps: int, o: LiveOrder, fills: seq<TradeFill>) {
    LoggedQty(fills) == o.filled && Terms(o.order, bps, fills)
  }

  // An id not yet given, or given to an order that has not reached its exchange.
  ghost predicate Unborn(xs: Venues, d: Desk, id: int) {
    id >= d.nextOrderId || (id in d.routes && LiveIn(xs, d.routes[id], id).None?)
  }

  ghost predicate LogOk(bps: int, fills: seq<TradeFill>, xs: Venues, d: Desk) {
    && (forall s, id :: s in xs && id in xs[s].orders ==> Booked(bps, xs[s].orders[id], Mine(fills, id)))
    && (forall id :: Unborn(xs, d, id) ==> Mine(fills, id) == [])
  }

  // ---- Sequences of fills ------------------------------------------------------------------------

  lemma {:induction false} MineAppend(a: seq<TradeFill>, b: seq<TradeFill>, id: int)
    ensures Mine(a + b, id) == Mine(a, id) + Mine(b, id)
  {
    Assoc(Mine(b, id), [], []);
    if a == [] {
      assert a + b == b;
    } else {
      var first := if a[0].orderId == id then [a[0]] else [];
      assert (a + b)[0] == a[0] && (a + b)[1..] == a[1..] + b;
      MineAppend(a[1..], b, id);
      Assoc(first, Mine(a[1..], id), Mine(b, id));
    }
  }

  lemma {:induction false} LoggedAppend(a: seq<TradeFill>, b: seq<TradeFill>)
    ensures LoggedQty(a + b) == LoggedQty(a) + LoggedQty(b)
  {
    assert Quantities(a + b) == Quantities(a) + Quantities(b);
    SumAppend(Quantities(a), Quantities(b));
  }

  lemma {:induction false} NothingLogged()
    ensures LoggedQty([]) == 0 && forall id :: Mine([], id) == []
  {
  }

  lemma {:induction false} OneLogged(f: TradeFill)
    ensures LoggedQty([f]) == f.qty && Mine([f], f.orderId) == [f]
    ensures forall id :: id != f.orderId ==> Mine([f], id) == []
  {
    assert [f][1..] == [] && Quantities([f]) == [f.qty] && [f.qty][..0] == [];
    NothingLogged();
    assert Sum([]) == 0;
  }

  lemma {:induction false} FillsAppend(a: seq<FillJob>, b: seq<FillJob>)
    ensures FillsOf(a + b) == FillsOf(a) + FillsOf(b)
  {
  }

  // ---- What a trade logs for one order ------------------------------------------------------------

  lemma {:induction false} JobsAppend(ex: Exchange, a: seq<OrderReport>, b: seq<OrderReport>, ts: int, bps: int)
    ensures JobsOf(ex, a + b, ts, bps) == JobsOf(ex, a, ts, bps) + JobsOf(ex, b, ts, bps)
  {
    hide JobOf;
    if a == [] {
      assert a + b == b;
    } else {
      assert (a + b)[1..] == a[1..] + b;
      JobsAppend(ex, a[1..], b, ts, bps);
    }
  }

  lemma {:induction false} OneReportMine(ex: Exchange, r: OrderReport, ts: int, bps: int, id: int)
    ensures Mine(FillsOf(JobsOf(ex, [r], ts, bps)), id)
            == FillsOf(JobsOf(ex, ReportsPushed(ReportPushes(0, [r]), id), ts, bps))
  {
    var ps := ReportPushes(0, [r]);
    assert ps == [Push(0, EvReport(r))];
    OnePushed(ps[0], id);
    NothingLogged();
    assert [r][1..] == [] && JobsOf(ex, [], ts, bps) == [];
    if r.lastFillQty > 0 && r.orderId in ex.orders {
      var job := JobOf(ex.orders[r.orderId].order, r, ts, bps, false);
      assert JobsOf(ex, [r], ts, bps) == [job] && FillsOf([job]) == [job.fill];
      OneLogged(job.fill);
    }
  }

  // The fills logged for an order are those of its own reports.
  lemma {:induction false} JobsMine(ex: Exchange, rs: seq<OrderReport>, ts: int, bps: int, id: int)
    ensures Mine(FillsOf(JobsOf(ex, rs, ts, bps)), id)
            == FillsOf(JobsOf(ex, ReportsPushed(ReportPushes(0, rs), id), ts, bps))
  {
    if rs == [] {
      NothingPushed(0, id);
      NothingLogged();
    } else {
      var r, rest := rs[0], rs[1..];
      assert rs == [r] + rest;
      JobsMine(ex, rest, ts, bps, id);
      ReportsOfPushes(0, [r], rest, id);
      OneReportMine(ex, r, ts, bps, id);
      hide ReportsPushed, ReportPushes, JobsOf, Mine, FillsOf;
      JobsAppend(ex, [r], rest, ts, bps);
      FillsAppend(JobsOf(ex, [r], ts, bps), JobsOf(ex, rest, ts, bps));
      MineAppend(FillsOf(JobsOf(ex, [r], ts, bps)), FillsOf(JobsOf(ex, rest, ts, bps)), id);
      var mine, later := ReportsPushed(ReportPushes(0, [r]), id), ReportsPushed(ReportPushes(0, rest), id);
      JobsAppend(ex, mine, later, ts, bps);
      FillsAppend(JobsOf(ex, mine, ts, bps), JobsOf(ex, later, ts, bps));
    }
  }

  lemma {:induction false} OfferIsOne(o: LiveOrder, trade: Tick)
    requires Offer(o, trade).1 != []
    ensures Offer(o, trade).1 == [Offer(o, trade).1[0]]
  {
    hide CheckFill;
  }

  lemma {:induction false} OfferLogs(ex: Exchange, o: LiveOrder, trade: Tick, ts: int, bps: int)
    requires GoodOrder(o.order.orderId, o) && GoodOrder(o.order.orderId, Offer(o, trade).0)
    requires o.order.orderId in ex.orders && ex.orders[o.order.orderId].order == o.order
    ensures
      var fs := FillsOf(JobsOf(ex, Offer(o, trade).1, ts, bps));
      Offer(o, trade).0.order == o.order && Offer(o, trade).0.filled == o.filled + LoggedQty(fs)
          && Terms(o.order, bps, fs)
  {
    var rs := Offer(o, trade).1;
    OfferKeepsTerms(o, trade);
    NothingLogged();
    if rs == [] {
      SilentOffer(o, trade);
    } else {
      OfferIsOne(o, trade);
      var r := rs[0];
      assert r in rs;
      OfferNames(o.order.orderId, o, trade, r);
      var job := JobOf(o.order, r, ts, bps, false);
      OneJob(ex, r, ts, bps);
      assert FillsOf([job]) == [job.fill];
      OneLogged(job.fill);
    }
    hide Offer, ComputeFee;
  }

  // A trade logs for a live order exactly what it filled of it, at the order's own terms.
  lemma {:induction false} TradeLogs(ex: Exchange, trade: Tick, ts: int, bps: int, id: int)
    requires GoodExchange(ex) && id in ex.orders
    ensures
      var (ex', rs) := OnTrade(ex, trade);
      var fs := Mine(FillsOf(JobsOf(ex', rs, ts, bps)), id);
      && id in ex'.orders && ex'.orders[id].order == ex.orders[id].order
      && ex'.orders[id].filled == ex.orders[id].filled + LoggedQty(fs) && Terms(ex.orders[id].order, bps, fs)
  {
    var (ex', rs) := OnTrade(ex, trade);
    JobsMine(ex', rs, ts, bps, id);
    TradeReportsFor(ex, trade, 0, id);
    TradePointwise(ex, trade);
    assert GoodOrder(id, ex.orders[id]);
    OfferKeepsOrder(id, ex.orders[id], trade);
    OfferLogs(ex', ex.orders[id], trade, ts, bps);
  }

  lemma {:induction false} OthersLogNothing(ex: Exchange, trade: Tick, ts: int, bps: int, id: int)
    requires GoodExchange(ex) && id !in ex.orders
    ensures Mine(FillsOf(JobsOf(OnTrade(ex, trade).0, OnTrade(ex, trade).1, ts, bps)), id) == []
  {
    JobsMine(OnTrade(ex, trade).0, OnTrade(ex, trade).1, ts, bps, id);
    TradeReportsFor(ex, trade, 0, id);
    hide OnTrade, GoodExchange;
  }

  // ---- What an event logs for one order -----------------------------------------------------------

  lemma {:induction false} MarketLogs<S>(env: Env<S>, c: Core<S>, s: int, id: int)
    requires
      var ex := ExchangeAt(c, s);
      GoodExchange(ex) && id in ex.orders && ex.orders[id].state == PendingNew
          && ex.orders[id].order.orderType == Market
    ensures
      var (ex, eff) := (ExchangeAt(c, s), MarketAck(env, c, s, id));
      var r := MarketReport(c, s, id);
      var jobs := if r.lastFillQty > 0 then [JobOf(ex.orders[id].order, r, c.now, env.cfg.takerBps, true)] else [];
      && eff.Effect? && s in eff.core.exchanges && id in eff.core.exchanges[s].orders
      && eff.core.exchanges[s].orders[id].filled == ex.orders[id].filled + LoggedQty(Mine(FillsOf(jobs), id))
      && eff.core.exchanges[s].orders[id].order == ex.orders[id].order
      && Terms(ex.orders[id].order, env.cfg.makerBps, Mine(FillsOf(jobs), id))
      && (forall other :: other != id ==> Mine(FillsOf(jobs), other) == [])
  {
    var ex, r := ExchangeAt(c, s), MarketReport(c, s, id);
    MarketAckShape(env, c, s, id);
    var fallback := if s in c.truth then Some(c.truth[s].price) else None;
    MarketOutcome(ex, id, fallback);
    MarketNames(ex, id, fallback);
    MarketEffect(env, c, s, id);
    assert GoodOrder(id, ex.orders[id]);
    var ex' := MarketAck(env, c, s, id).core.exchanges[s];
    assert GoodOrder(id, ex'.orders[id]);
    NothingLogged();
    var job := JobOf(ex.orders[id].order, r, c.now, env.cfg.takerBps, true);
    assert FillsOf([job]) == [job.fill];
    OneLogged(job.fill);
    hide MarketAck, FillMarket, ForceCancel, ExchangeAt, GoodExchange, ComputeFee, Mine;
  }

  // Whatever is neither a trade nor a market fill leaves every order's fills alone.
  lemma {:induction false} OpKeepsFilled(m: QueueModel, ex: Exchange, op: ExOp, id: int)
    requires !op.OpTrade? && !op.OpFillMarket? && id in ex.orders && id in Apply(m, ex, op).0.orders
    requires op.OpSubmit? ==> op.order.orderId != id
    ensures Apply(m, ex, op).0.orders[id].order == ex.orders[id].order
    ensures Apply(m, ex, op).0.orders[id].filled == ex.orders[id].filled
  {
    hide OnL3, Register, DepthOf;
  }

  ghost predicate LoggedFor<S>(env: Env<S>, c: Core<S>, kind: EventKind, s: int, id: int)
    requires Handle(env, c, kind).Effect?
    requires LiveIn(c.exchanges, s, id).Some? && LiveIn(Handle(env, c, kind).core.exchanges, s, id).Some?
  {
    var (o, o') := (LiveIn(c.exchanges, s, id).value, LiveIn(Handle(env, c, kind).core.exchanges, s, id).value);
    var fs := Mine(FillsOf(EventJobs(env, c, kind)), id);
    o'.order == o.order && o'.filled == o.filled + LoggedQty(fs) && Terms(o.order, env.cfg.makerBps, fs)
  }

  lemma {:induction false} TickLogs<S>(env: Env<S>, c: Core<S>, e: Event, q: Queue, s: int, id: int)
    requires LifeAt(c, [e] + q) && e.kind.EvTick?
    requires LiveIn(c.exchanges, s, id).Some? && LiveIn(Handle(env, c, e.kind).core.exchanges, s, id).Some?
    requires forall id :: id in OrdersAt(c.exchanges, s) ==> id in c.routes && c.routes[id] == s
    ensures LoggedFor(env, c, e.kind, s, id)
  {
    var tick := e.kind.tick;
    var t := tick.symbolId;
    ExchangeFacts(c, t);
    OwnedHere(c.exchanges, DeskOf(c), t);
    var ex := ExchangeAt(c, t);
    var eff := Handle(env, c, e.kind);
    assert eff.core.exchanges == c.exchanges[t := OnTrade(ex, tick).0];
    assert EventJobs(env, c, e.kind)
           == JobsOf(OnTrade(ex, tick).0, OnTrade(ex, tick).1, tick.tsExchange, env.cfg.makerBps);
    NothingLogged();
    hide Handle, ExchangeAt, OnTrade, JobsOf, EventJobs, LifeOk, GoodExchange, Mine;
    if s == t {
      TradeLogs(ex, tick, tick.tsExchange, env.cfg.makerBps, id);
    } else {
      assert id !in ex.orders;
      OthersLogNothing(ex, tick, tick.tsExchange, env.cfg.makerBps, id);
    }
  }

  lemma {:induction false} MarketJobs<S>(env: Env<S>, c: Core<S>, id: int)
    requires id in c.routes && id in ExchangeAt(c, c.routes[id]).orders
    requires ExchangeAt(c, c.routes[id]).orders[id].order.orderType == Market
    ensures Handle(env, c, EvAck(id)) == MarketAck(env, c, c.routes[id], id)
    ensures
      var (o, r) := (ExchangeAt(c, c.routes[id]).orders[id], MarketReport(c, c.routes[id], id));
      EventJobs(env, c, EvAck(id))
      == if r.lastFillQty > 0 then [JobOf(o.order, r, c.now, env.cfg.takerBps, true)] else []
  {
    hide ExchangeAt, MarketAck, JobOf;
  }

  lemma {:induction false} OthersKept(before: OrderMap, after: OrderMap, id: int, other: int)
    requires OnlyChanges(before, after, id) && other in before && other != id
    ensures other in after && after[other] == before[other]
  {
  }

  lemma {:induction false} MarketAckLogs<S>(env: Env<S>, c: Core<S>, e: Event, s: int, id: int)
    requires AckAt(env, c, e, s, id)
    requires ExchangeAt(c, c.routes[e.kind.id]).orders[e.kind.id].order.orderType == Market
    ensures LoggedFor(env, c, e.kind, s, id)
  {
    hide Handle, ExchangeAt, MarketAck, MarketReport, EventJobs, GoodExchange, Mine, JobOf, LoggedQty, OwnTerms,
      OnlyChanges;
    var mine := e.kind.id;
    var t := c.routes[mine];
    NothingLogged();
    MarketJobs(env, c, mine);
    MarketLogs(env, c, t, mine);
    MarketAckShape(env, c, t, mine);
    if s == t && id != mine {
      OthersKept(ExchangeAt(c, t).orders, MarketAck(env, c, t, mine).core.exchanges[t].orders, mine, id);
    }
  }

  lemma {:induction false} LimitAckLogs<S>(env: Env<S>, c: Core<S>, e: Event, s: int, id: int)
    requires AckAt(env, c, e, s, id)
    requires ExchangeAt(c, c.routes[e.kind.id]).orders[e.kind.id].order.orderType != Market
    ensures LoggedFor(env, c, e.kind, s, id)
  {
    var mine := e.kind.id;
    var t := c.routes[mine];
    var ex := ExchangeAt(c, t);
    NothingLogged();
    assert EventJobs(env, c, e.kind) == [];
    LimitEffect(env, c, mine);
    var ex' := AckNew(ex, mine).value.0;
    assert Apply(env.cfg.model, ex, OpAckNew(mine)).0 == ex';
    hide Handle, ExchangeAt, EventJobs, GoodExchange, Mine, AckNew;
    if s == t {
      OpKeepsFilled(env.cfg.model, ex, OpAckNew(mine), id);
    }
  }

  lemma {:induction false} AckLogs<S>(env: Env<S>, c: Core<S>, e: Event, q: Queue, s: int, id: int)
    requires LifeAt(c, [e] + q) && e.kind.EvAck? && Handle(env, c, e.kind).Effect?
    requires LiveIn(c.exchanges, s, id).Some? && LiveIn(Handle(env, c, e.kind).core.exchanges, s, id).Some?
    requires forall id :: id in OrdersAt(c.exchanges, s) ==> id in c.routes && c.routes[id] == s
    ensures LoggedFor(env, c, e.kind, s, id)
  {
    AckFindsOrder(c.exchanges, DeskOf(c), e, q);
    ExchangeFacts(c, c.routes[e.kind.id]);
    hide Handle, ExchangeAt, EventJobs, LifeOk, GoodExchange, LoggedFor;
    if ExchangeAt(c, c.routes[e.kind.id]).orders[e.kind.id].order.orderType == Market {
      MarketAckLogs(env, c, e, s, id);
    } else {
      LimitAckLogs(env, c, e, s, id);
    }
  }

  lemma {:induction false} QuietWork<S>(c: Core<S>, kind: EventKind)
    requires !kind.EvTick? && !kind.EvAck?
    ensures
      var w := WorkOf(c, kind);
      w.Work? ==>
        && |w.ops| == 1 && !w.ops[0].OpTrade? && !w.ops[0].OpFillMarket?
        && (w.ops[0].OpSubmit? ==> kind.EvOrder? && w.ops[0].order == kind.order && w.symbol == kind.order.symbolId)
  {
    hide ExchangeAt;
  }

  lemma {:induction false} QuietLogs<S>(env: Env<S>, c: Core<S>, e: Event, q: Queue, s: int, id: int)
    requires LifeAt(c, [e] + q) && LevelOk(e.kind) && Handle(env, c, e.kind).Effect? && !e.kind.EvTick?
             && !e.kind.EvAck?
    requires LiveIn(c.exchanges, s, id).Some? && LiveIn(Handle(env, c, e.kind).core.exchanges, s, id).Some?
    ensures
      var (o, o') := (LiveIn(c.exchanges, s, id).value, LiveIn(Handle(env, c, e.kind).core.exchanges, s, id).value);
      o'.order == o.order && o'.filled == o.filled
  {
    HandleWork(env, c, e.kind);
    WorkIsAllowed(env.cfg.model, c, e, q);
    if e.kind.EvOrder? {
      ArrivingOrder(c.exchanges, DeskOf(c), e, q);
    }
    var w := WorkOf(c, e.kind);
    QuietWork(c, e.kind);
    hide Handle, WorkOf, LifeOk, GoodExchange, AllowedRun, RunOps;
    if w.Work? && w.symbol == s {
      OneOp(env.cfg.model, w.start, w.ops[0]);
      assert w.ops == [w.ops[0]];
      OpKeepsFilled(env.cfg.model, w.start, w.ops[0], id);
    }
  }

  // The fills an event logs for an order that is live before and after are what it has filled of it.
  lemma {:induction false} EventLogs<S>(env: Env<S>, c: Core<S>, e: Event, q: Queue, s: int, id: int)
    requires LifeAt(c, [e] + q) && LevelOk(e.kind) && Handle(env, c, e.kind).Effect?
    requires LiveIn(c.exchanges, s, id).Some? && LiveIn(Handle(env, c, e.kind).core.exchanges, s, id).Some?
    ensures LoggedFor(env, c, e.kind, s, id)
  {
    OwnedHere(c.exchanges, DeskOf(c), s);
    if e.kind.EvTick? {
      TickLogs(env, c, e, q, s, id);
    } else if e.kind.EvAck? {
      AckLogs(env, c, e, q, s, id);
    } else {
      NothingLogged();
      assert EventJobs(env, c, e.kind) == [];
      QuietLogs(env, c, e, q, s, id);
    }
  }

  // The order's own acknowledgement, or another one of the same exchange.
  ghost predicate AckAt<S>(env: Env<S>, c: Core<S>, e: Event, s: int, id: int) {
    && e.kind.EvAck? && e.kind.id in c.routes && Handle(env, c, e.kind).Effect?
    && GoodExchange(ExchangeAt(c, c.routes[e.kind.id]))
    && ExchangeAt(c, c.routes[e.kind.id]).orders == OrdersAt(c.exchanges, c.routes[e.kind.id])
    && e.kind.id in ExchangeAt(c, c.routes[e.kind.id]).orders
    && ExchangeAt(c, c.routes[e.kind.id]).orders[e.kind.id].state == PendingNew
    && LiveIn(c.exchanges, s, id).Some? && LiveIn(Handle(env, c, e.kind).core.exchanges, s, id).Some?
    && (forall id :: id in OrdersAt(c.exchanges, s) ==> id in c.routes && c.routes[id] == s)
  }

  // An event logs nothing for an order that is not live.
  lemma {:induction false} NotLiveLogsNothing<S>(env: Env<S>, c: Core<S>, e: Event, q: Queue, id: int)
    requires LifeAt(c, [e] + q) && Handle(env, c, e.kind).Effect?
    requires forall s :: LiveIn(c.exchanges, s, id).None?
    ensures Mine(FillsOf(EventJobs(env, c, e.kind)), id) == []
  {
    NothingLogged();
    if e.kind.EvTick? {
      var t := e.kind.tick.symbolId;
      ExchangeFacts(c, t);
      assert LiveIn(c.exchanges, t, id).None?;
      hide ExchangeAt, OnTrade, LifeOk, GoodExchange, Mine, JobsOf;
      OthersLogNothing(ExchangeAt(c, t), e.kind.tick, e.kind.tick.tsExchange, env.cfg.makerBps, id);
    } else if e.kind.EvAck? {
      var mine := e.kind.id;
      AckFindsOrder(c.exchanges, DeskOf(c), e, q);
      var t := c.routes[mine];
      ExchangeFacts(c, t);
      assert LiveIn(c.exchanges, t, id).None? && id != mine;
      if ExchangeAt(c, t).orders[mine].order.orderType == Market {
        MarketLogs(env, c, t, mine);
        var r := MarketReport(c, t, mine);
        assert EventJobs(env, c, e.kind)
               == if r.lastFillQty > 0
                   then [JobOf(ExchangeAt(c, t).orders[mine].order, r, c.now, env.cfg.takerBps, true)] else [];
        hide ExchangeAt, MarketAck, MarketReport, EventJobs, LifeOk, GoodExchange, Mine, JobOf;
      } else {
        assert EventJobs(env, c, e.kind) == [];
      }
    } else {
      assert EventJobs(env, c, e.kind) == [];
    }
  }

  // ---- The log after an event -----------------------------------------------------------------------

  lemma {:induction false} FundKeepsFills(l: Ledger, event: FundingEvent, mark: int)
    ensures Fund(l, event, mark).log.fills == l.log.fills && Fund(l, event, mark).log.mode == l.log.mode
  {
    hide SatAdd, FundingPnl, SummaryPnl;
  }

  lemma {:induction false} RecordAddsFills(l: Ledger, jobs: seq<FillJob>)
    requires l.log.mode == All && BooksAgree(l)
    ensures Record(l, jobs).log.fills == l.log.fills + FillsOf(jobs) && Record(l, jobs).log.mode == All
  {
    LogFillsReplay(l.log, jobs);
    SettleFrame(l.(log := LogFills(l.log, jobs)), jobs);
  }

  lemma {:induction false} EventFills<S>(env: Env<S>, c: Core<S>, kind: EventKind)
    requires c.ledger.log.mode == All && BooksAgree(c.ledger) && Handle(env, c, kind).Effect?
    ensures
      var l := Handle(env, c, kind).core.ledger;
      l.log.fills == c.ledger.log.fills + FillsOf(EventJobs(env, c, kind)) && l.log.mode == All
  {
    EventLedger(env, c, kind);
    RecordAddsFills(c.ledger, EventJobs(env, c, kind));
    if kind.EvFunding? {
      assert FillsOf(EventJobs(env, c, kind)) == [];
      var mark := FundingMark(c, kind.funding.symbolId);
      hide Handle, Record, Fund, FundingMark, EventJobs, BooksAgree;
      if mark.Some? {
        FundKeepsFills(c.ledger, kind.funding, mark.value);
      }
    } else {
      hide Handle, Record, Fund, FundingMark, EventJobs, BooksAgree;
    }
  }

  // ---- Routes -----------------------------------------------------------------------------------------

  // Old routes stay or go; new ones are for new ids.
  ghost predicate RoutesGrow(d: Desk, d': Desk) {
    && d'.nextOrderId >= d.nextOrderId
    && forall id :: id in d'.routes ==> (id in d.routes && d'.routes[id] == d.routes[id]) || id >= d.nextOrderId
  }

  lemma {:induction false} CommandsRoutes(cfg: Config, l: Ledger, d: Desk, cmds: seq<Command>, ts: int)
    ensures RoutesGrow(d, Commands(cfg, l, d, cmds, ts).0)
    decreases cmds
  {
    hide CheckOrder;
    if cmds != [] {
      CommandsRoutes(cfg, l, OneCommand(cfg, l, d, cmds[0], ts).0, cmds[1..], ts);
    }
  }

  lemma {:induction false} CallRoutes<S>(env: Env<S>, c: Core<S>, ts: int, payload: Payload)
    ensures Call(env, c, ts, payload).Effect? ==> RoutesGrow(DeskOf(c), DeskOf(Call(env, c, ts, payload).core))
  {
    hide Commands, RoutesGrow;
    match env.strategy(c.strategy, Callback(ts, c.market, payload)) {
      case Reply(s, cmds) => CommandsRoutes(env.cfg, c.ledger, Desk(c.routes, c.nextOrderId), cmds, ts);
      case _ =>
    }
  }

  lemma {:induction false} FlushRoutes<S>(env: Env<S>, c: Core<S>, ts: int)
    ensures Flush(env, c, ts).Effect? ==>
              RoutesGrow(DeskOf(c), DeskOf(Flush(env, c, ts).core)) && Flush(env, c, ts).core.ledger == c.ledger
  {
    hide Commands, HandOver;
    match HandOver(env, c.strategy, c.market, c.batch, ts) {
      case Handover(s, cmds, calls) => CommandsRoutes(env.cfg, c.ledger, Desk(c.routes, c.nextOrderId), cmds, ts);
      case Refused =>
    }
  }

  lemma {:induction false} MarketAckRoutes<S>(env: Env<S>, c: Core<S>, s: int, id: int)
    requires id in ExchangeAt(c, s).orders
    ensures MarketAck(env, c, s, id).Effect? && DeskOf(MarketAck(env, c, s, id).core) == DeskOf(c)
  {
    hide Record, JobOf, FillMarket, ForceCancel, ExchangeAt;
  }

  lemma {:induction false} HandleRoutes<S>(env: Env<S>, c: Core<S>, kind: EventKind)
    ensures Handle(env, c, kind).Effect? ==> RoutesGrow(DeskOf(c), DeskOf(Handle(env, c, kind).core))
  {
    hide Call, OnTrade, Record, JobsOf, UpdateL3, Submit, FillMarket, ForceCancel, AckNew, Cancel, AckCancel,
      ExchangeAt, Remove, Fund, FundingMark, ComputeFee, UpdateL2, MarketAck, JobOf, Delay;
    if kind.EvDelivery? {
      CallRoutes(env, c.(market := c.market[kind.tick.symbolId := kind.tick]), kind.tick.tsLocal, OnTick(kind.tick));
    } else if kind.EvReport? {
      CallRoutes(env, Retire(c, kind.report), c.now, OnReport(kind.report));
    } else if kind.EvFunding? {
      var mark := FundingMark(c, kind.funding.symbolId);
      CallRoutes(env, if mark.Some? then c.(ledger := Fund(c.ledger, kind.funding, mark.value)) else c, c.now,
                 OnFunding(kind.funding));
    } else if kind.EvAck? && kind.id in c.routes && kind.id in ExchangeAt(c, c.routes[kind.id]).orders {
      MarketAckRoutes(env, c, c.routes[kind.id], kind.id);
    }
  }

  lemma {:induction false} WorkRemoves<S>(c: Core<S>, kind: EventKind)
    ensures
      var w := WorkOf(c, kind);
      w.Work? ==> forall i :: 0 <= i < |w.ops| && w.ops[i].OpRemove? ==>
                    kind.EvReport? && IsTerminal(kind.report.status) && w.ops[i].id == kind.report.orderId
  {
    hide ExchangeAt, FillMarket;
  }

  lemma {:induction false} OpKeeps(m: QueueModel, ex: Exchange, op: ExOp, id: int)
    requires GoodExchange(ex) && id in ex.orders && (op.OpRemove? ==> op.id != id)
    ensures id in Apply(m, ex, op).0.orders
  {
    if op.OpTrade? {
      TradePointwise(ex, op.trade);
    }
    hide OnTrade, GoodExchange, MarketQuote, Register, OnL3, DepthOf;
  }

  lemma {:induction false} OpsKeep(m: QueueModel, ex: Exchange, ops: seq<ExOp>, id: int)
    requires GoodExchange(ex) && id in ex.orders && 1 <= |ops| <= 2
    requires forall i :: 0 <= i < |ops| && ops[i].OpRemove? ==> ops[i].id != id
    requires |ops| == 2 ==> ops[0].OpFillMarket? && ops[1] == OpForceCancel(ops[0].id)
    ensures id in RunOps(m, ex, ops).0.orders
  {
    if |ops| == 1 {
      OneOp(m, ex, ops[0]);
      assert ops == [ops[0]];
      hide RunOps;
      OpKeeps(m, ex, ops[0], id);
    } else {
      assert ops == [ops[0], ops[1]];
      TwoOps(m, ex, ops[0], ops[1]);
      MarketKeepsKeys(m, ex, ops[0]);
      hide RunOps, FillMarket;
    }
  }

  // An order leaves its exchange only when its terminal report retires it.
  lemma {:induction false} StaysLive<S>(env: Env<S>, c: Core<S>, e: Event, q: Queue, s: int, id: int)
    requires LifeAt(c, [e] + q) && LevelOk(e.kind) && Handle(env, c, e.kind).Effect?
    requires LiveIn(c.exchanges, s, id).Some?
    requires e.kind.EvReport? && IsTerminal(e.kind.report.status) ==> e.kind.report.orderId != id
    ensures LiveIn(Handle(env, c, e.kind).core.exchanges, s, id).Some?
  {
    HandleWork(env, c, e.kind);
    WorkIsAllowed(env.cfg.model, c, e, q);
    WorkShape(c, e.kind);
    WorkRemoves(c, e.kind);
    var w := WorkOf(c, e.kind);
    hide Handle, WorkOf, LifeOk, GoodExchange, AllowedRun, RunOps;
    if w.Work? && w.symbol == s {
      OpsKeep(env.cfg.model, w.start, w.ops, id);
    }
  }

  // ---- One iteration ----------------------------------------------------------------------------------

  ghost predicate LogAt<S>(bps: int, c: Core<S>) {
    c.ledger.log.mode == All && LogOk(bps, c.ledger.log.fills, c.exchanges, DeskOf(c))
  }

  lemma {:induction false} BookedMore(bps: int, o: LiveOrder, o': LiveOrder, a: seq<TradeFill>, b: seq<TradeFill>)
    requires Booked(bps, o, a) && o'.order == o.order && o'.filled == o.filled + LoggedQty(b) && Terms(o.order, bps, b)
    ensures Booked(bps, o', a + b)
  {
    LoggedAppend(a, b);
    hide LoggedQty, OwnTerms;
  }

  lemma {:induction false} Newborn<S>(env: Env<S>, c: Core<S>, e: Event, q: Queue, s: int, id: int)
    requires LifeAt(c, [e] + q) && LevelOk(e.kind) && Handle(env, c, e.kind).Effect?
    requires LiveIn(c.exchanges, s, id).None? && LiveIn(Handle(env, c, e.kind).core.exchanges, s, id).Some?
    ensures e.kind.EvOrder? && e.kind.order.orderId == id && Unborn(c.exchanges, DeskOf(c), id)
    ensures LiveIn(Handle(env, c, e.kind).core.exchanges, s, id).value.filled == 0
    ensures forall t :: LiveIn(c.exchanges, t, id).None?
  {
    if !(e.kind.EvOrder? && e.kind.order.orderId == id) {
      NothingAppears(env, c, e, q, s, id);
      assert false;
    }
    var o := e.kind.order;
    ArrivingOrder(c.exchanges, DeskOf(c), e, q);
    forall t ensures LiveIn(c.exchanges, t, id).None? {
      OwnedHere(c.exchanges, DeskOf(c), t);
    }
    assert Handle(env, c, e.kind).core.exchanges
           == c.exchanges[o.symbolId := Submit(env.cfg.model, ExchangeAt(c, o.symbolId), o)];
    hide Handle, ExchangeAt, LifeOk, Register, DepthOf;
  }

  // One live order's log after an event.
  lemma {:induction false} LiveLog<S>(env: Env<S>, c: Core<S>, e: Event, q: Queue, s: int, id: int)
    requires LifeAt(c, [e] + q) && LevelOk(e.kind) && BooksAgree(c.ledger) && LogAt(env.cfg.makerBps, c)
    requires Handle(env, c, e.kind).Effect? && LiveIn(Handle(env, c, e.kind).core.exchanges, s, id).Some?
    ensures
      var c' := Handle(env, c, e.kind).core;
      Booked(env.cfg.makerBps, LiveIn(c'.exchanges, s, id).value, Mine(c'.ledger.log.fills, id))
  {
    EventFills(env, c, e.kind);
    var jobs := EventJobs(env, c, e.kind);
    MineAppend(c.ledger.log.fills, FillsOf(jobs), id);
    if LiveIn(c.exchanges, s, id).Some? {
      assert Booked(env.cfg.makerBps, LiveIn(c.exchanges, s, id).value, Mine(c.ledger.log.fills, id));
      EventLogs(env, c, e, q, s, id);
      hide Handle, LifeOk, Booked, Mine, LogOk, LoggedQty, Terms, EventJobs, BooksAgree;
      BookedMore(env.cfg.makerBps, LiveIn(c.exchanges, s, id).value,
                 LiveIn(Handle(env, c, e.kind).core.exchanges, s, id).value,
                 Mine(c.ledger.log.fills, id), Mine(FillsOf(jobs), id));
    } else {
      Newborn(env, c, e, q, s, id);
      assert Mine(c.ledger.log.fills, id) == [];
      NothingLogged();
      hide Handle, LifeOk, Mine, LogOk, LoggedQty, EventJobs, BooksAgree;
      NotLiveLogsNothing(env, c, e, q, id);
    }
  }

  lemma {:induction false} RetiredGone<S>(env: Env<S>, c: Core<S>, r: OrderReport)
    requires IsTerminal(r.status) && r.orderId < c.nextOrderId
    ensures Handle(env, c, EvReport(r)).Effect? ==> r.orderId !in Handle(env, c, EvReport(r)).core.routes
  {
    var c1 := Retire(c, r);
    assert r.orderId !in c1.routes && c1.nextOrderId == c.nextOrderId;
    CallRoutes(env, c1, c1.now, OnReport(r));
    hide Call, Retire;
  }

  // An id that is unborn after an event was unborn before it.
  lemma {:induction false} UnbornBefore<S>(env: Env<S>, c: Core<S>, e: Event, q: Queue, id: int)
    requires LifeAt(c, [e] + q) && LevelOk(e.kind) && Handle(env, c, e.kind).Effect?
    requires Unborn(Handle(env, c, e.kind).core.exchanges, DeskOf(Handle(env, c, e.kind).core), id)
    ensures Unborn(c.exchanges, DeskOf(c), id) && forall s :: LiveIn(c.exchanges, s, id).None?
  {
    var c' := Handle(env, c, e.kind).core;
    HandleRoutes(env, c, e.kind);
    LiveIdsIssued(c.exchanges, DeskOf(c), [e] + q);
    if id < c.nextOrderId {
      var s := c.routes[id];
      if LiveIn(c.exchanges, s, id).Some? {
        if e.kind.EvReport? && IsTerminal(e.kind.report.status) && e.kind.report.orderId == id {
          RetiredGone(env, c, e.kind.report);
        } else {
          StaysLive(env, c, e, q, s, id);
        }
        assert false;
      }
      forall t ensures LiveIn(c.exchanges, t, id).None? {
        OwnedHere(c.exchanges, DeskOf(c), t);
      }
    }
    hide Handle, LifeOk;
  }

  lemma {:induction false} UnbornLog<S>(env: Env<S>, c: Core<S>, e: Event, q: Queue, id: int)
    requires LifeAt(c, [e] + q) && LevelOk(e.kind) && BooksAgree(c.ledger) && LogAt(env.cfg.makerBps, c)
    requires Handle(env, c, e.kind).Effect?
    requires Unborn(Handle(env, c, e.kind).core.exchanges, DeskOf(Handle(env, c, e.kind).core), id)
    ensures Mine(Handle(env, c, e.kind).core.ledger.log.fills, id) == []
  {
    UnbornBefore(env, c, e, q, id);
    assert Mine(c.ledger.log.fills, id) == [];
    EventFills(env, c, e.kind);
    hide Handle, LifeOk, Mine, LogOk, EventJobs, BooksAgree;
    MineAppend(c.ledger.log.fills, FillsOf(EventJobs(env, c, e.kind)), id);
    NotLiveLogsNothing(env, c, e, q, id);
  }

  lemma {:induction false} HandleLog<S>(env: Env<S>, c: Core<S>, e: Event, q: Queue)
    requires LifeAt(c, [e] + q) && LevelOk(e.kind) && BooksAgree(c.ledger) && LogAt(env.cfg.makerBps, c)
    ensures Handle(env, c, e.kind).Effect? ==> LogAt(env.cfg.makerBps, Handle(env, c, e.kind).core)
  {
    var eff := Handle(env, c, e.kind);
    if eff.Effect? {
      EventFills(env, c, e.kind);
      var c' := eff.core;
      var xs, fills := c'.exchanges, c'.ledger.log.fills;
      hide Handle, LifeAt, Booked, Mine, Unborn, BooksAgree, EventJobs;
      forall s, id | s in xs && id in xs[s].orders ensures Booked(env.cfg.makerBps, xs[s].orders[id], Mine(fills, id)) {
        LiveLog(env, c, e, q, s, id);
      }
      forall id | Unborn(xs, DeskOf(c'), id) ensures Mine(fills, id) == [] {
        UnbornLog(env, c, e, q, id);
      }
    }
  }

  // Handing over a batch changes neither the exchanges nor the log.
  lemma {:induction false} FlushLog<S>(env: Env<S>, c: Core<S>, ts: int)
    requires LogAt(env.cfg.makerBps, c)
    ensures Flush(env, c, ts).Effect? ==> LogAt(env.cfg.makerBps, Flush(env, c, ts).core)
  {
    FlushRoutes(env, c, ts);
    FlushIds(env, c, ts);
    hide Flush, Booked, Mine, LiveIn;
  }

  lemma {:induction false} SameLog<S>(bps: int, c: Core<S>, c': Core<S>)
    requires LogAt(bps, c) && c'.ledger == c.ledger && c'.exchanges == c.exchanges && DeskOf(c') == DeskOf(c)
    ensures LogAt(bps, c')
  {
  }

  lemma {:induction false} FinishLog<S>(env: Env<S>, eff: Effect<S>, f: Feed, event: Event)
    requires eff.Effect? && LogAt(env.cfg.makerBps, eff.core)
    ensures Finish(env, eff, f, event).Stepped? ==> LogAt(env.cfg.makerBps, Finish(env, eff, f, event).engine.core)
  {
    FlushLog(env, eff.core, eff.core.now);
    hide Flush, LogOk;
  }

  lemma {:induction false} ProcessLog<S>(env: Env<S>, history: seq<OrderReport>, c: Core<S>, f: Feed, event: Event)
    requires Popped(env, history, c.(now := event.ts), event, f) && LogAt(env.cfg.makerBps, c)
    ensures Process(env, c, f, event).Stepped? ==> LogAt(env.cfg.makerBps, Process(env, c, f, event).engine.core)
  {
    var c1 := c.(now := event.ts);
    SameLog(env.cfg.makerBps, c, c1);
    hide Handle, Finish, LogAt, Room, LifeAt, StreamsAt, PositionAt, LevelsOk, LevelOk, BooksAgree, OneTotal;
    HandleLog(env, c1, event, f.queue);
    var eff := Handle(env, c1, event.kind);
    if eff.Effect? {
      FinishLog(env, eff, f, event);
    }
  }

  lemma {:induction false} StepLog<S>(env: Env<S>, history: seq<OrderReport>, e: Engine<S>)
    requires GoodConfig(env.cfg) && Sound(env.cfg, history, e) && LogAt(env.cfg.makerBps, e.core)
    ensures
      var o := Advance(env, e);
      o.Stepped? || o.Flushed? ==> LogAt(env.cfg.makerBps, o.engine.core)
  {
    hide Handle, Finish, Flush, Sound, LogAt, PopFeed, Ingest;
    match PopFeed(env.cfg.feedLatency, e.feed) {
      case Some((event, f)) =>
        PopSound(env, history, e);
        ProcessSteps(env, e.core, f, event);
        ProcessLog(env, history, e.core, f, event);
      case None => FlushLog(env, e.core, e.core.now);
    }
  }

  // ---- Whole runs ----------------------------------------------------------------------------------------

  lemma {:induction false} RunLog<S(!new)>(env: Env<S>, e: Engine<S>, n: nat)
    requires Reaches(env, e, n) && LogAt(env.cfg.makerBps, e.core)
    ensures LogAt(env.cfg.makerBps, After(env, e, n).value.core)
    decreases n
  {
    hide Advance, Sound, GoodStrategy, LogAt, ReportsDelivered;
    if n > 0 {
      RunLog(env, e, n - 1);
      RunKeepsSound(env, e, n - 1);
      StepLog(env, ReportsDelivered(env, e, n - 1), After(env, e, n - 1).value);
    }
  }

  lemma {:induction false} FeesAreOwn(order: Order, bps: int, fills: seq<TradeFill>)
    requires order.orderType != Market && Terms(order, bps, fills)
    ensures Fees(fills) == TotalFee(order.price, Quantities(fills), bps)
  {
    hide ComputeFee;
    if fills != [] {
      var n := |fills| - 1;
      assert Quantities(fills)[..n] == Quantities(fills[..n]);
      assert fills[n] in fills;
      FeesAreOwn(order, bps, fills[..n]);
    } else {
      assert Quantities(fills) == [];
    }
  }
}
