// How the fills of a run are timed and charged, whatever the log keeps of them, and that market orders
// fill only as takers: they never rest at an exchange.
module FillTerms {
  import opened Types
  import opened Stats
  import opened Ledgers
  import opened QueueModels
  import opened Exchanges
  import opened ExchangeProps
  import opened EventQueues
  import opened Feeds
  import opened EngineSpec
  import opened EngineClock
  import opened Lifecycle
  import opened LifecycleSteps
  import opened EngineMoney
  import opened EngineInvariant
  import opened EngineGuarantees
  import opened OrderHistories
  import opened FillLogs

  // ---- Every fill --------------------------------------------------------------------------------------

  // Trades make, and are charged as makers; market orders take.
  ghost predicate AtRates(cfg: Config, f: TradeFill) {
    IsFee(f.price, f.qty, if f.isTaker then cfg.takerBps else cfg.makerBps, f.fee)
  }

  // The fill was booked by the m-th iteration, at the time of its event: a trade, or the acknowledgement
  // of a market order.
  ghost predicate BookedIn<S>(env: Env<S>, e: Engine<S>, m: nat, f: TradeFill) {
    match After(env, e, m)
    case None => false
    case Some(last) =>
      match Advance(env, last)
      case Stepped(_, event, _) =>
        event.ts == f.tsExchange && if f.isTaker then event.kind.EvAck? else event.kind.EvTick?
      case _ => false
  }

  ghost predicate FillOf(j: FillJob, ts: int, bps: int, taker: bool) {
    j.fill.tsExchange == ts && j.fill.isTaker == taker && IsFee(j.fill.price, j.fill.qty, bps, j.fill.fee)
  }

  lemma {:induction false} JobIsFill(order: Order, r: OrderReport, ts: int, bps: int, taker: bool)
    ensures FillOf(JobOf(order, r, ts, bps, taker), ts, bps, taker)
  {
    hide ComputeFee, IsFee;
    FeeIsBasisPoints(r.lastFillPrice, r.lastFillQty, bps);
  }

  lemma {:induction false} JobsAreFills(ex: Exchange, rs: seq<OrderReport>, ts: int, bps: int)
    ensures forall j :: j in JobsOf(ex, rs, ts, bps) ==> FillOf(j, ts, bps, false)
  {
    hide JobOf, FillOf;
    if rs != [] {
      JobsAreFills(ex, rs[1..], ts, bps);
      if rs[0].orderId in ex.orders {
        JobIsFill(ex.orders[rs[0].orderId].order, rs[0], ts, bps, false);
      }
    }
  }

  lemma {:induction false} EventFillTerms<S>(env: Env<S>, c: Core<S>, kind: EventKind, j: FillJob)
    requires TimedAt(c.now, kind) && j in EventJobs(env, c, kind)
    ensures kind.EvTick? || kind.EvAck?
    ensures FillOf(j, c.now, if kind.EvAck? then env.cfg.takerBps else env.cfg.makerBps, kind.EvAck?)
  {
    hide OnTrade, JobsOf, MarketQuote, ExchangeAt, JobOf, FillOf;
    if kind.EvTick? {
      var (ex, rs) := OnTrade(ExchangeAt(c, kind.tick.symbolId), kind.tick);
      JobsAreFills(ex, rs, c.now, env.cfg.makerBps);
    } else if kind.EvAck? {
      var s := c.routes[kind.id];
      var ex := ExchangeAt(c, s);
      var r := FillMarket(ex, kind.id, if s in c.truth then Some(c.truth[s].price) else None).value.1;
      JobIsFill(ex.orders[kind.id].order, r, c.now, env.cfg.takerBps, true);
    }
  }

  lemma {:induction false} BookedTerms<S>(env: Env<S>, c: Core<S>, event: Event, f: TradeFill)
    requires TimedAt(event.ts, event.kind) && f in BookedBy(env, c, event)
    ensures AtRates(env.cfg, f) && f.tsExchange == event.ts
    ensures if f.isTaker then event.kind.EvAck? else event.kind.EvTick?
  {
    hide EventJobs, IsFee;
    var jobs := EventJobs(env, c.(now := event.ts), event.kind);
    var i :| 0 <= i < |jobs| && FillsOf(jobs)[i] == f;
    EventFillTerms(env, c.(now := event.ts), event.kind, jobs[i]);
  }

  lemma {:induction false} PoppedInTime<S>(env: Env<S>, e: Engine<S>)
    requires GoodConfig(env.cfg) && ClockOk(e) && Advance(env, e).Stepped?
    ensures TimedAt(Advance(env, e).event.ts, Advance(env, e).event.kind)
  {
    hide Process, Flush, Ingest, FeedOk, Timed, SourcesOk, TimedAt, PopFeed;
    PopClock(env, e);
    var f := PopFeed(env.cfg.feedLatency, e.feed);
    if f.Some? {
      ProcessSteps(env, e.core, f.value.1, f.value.0);
    }
  }

  // Every fill that a run has booked, in any log mode, carries the time of the event that caused it and
  // the fee of its own value: at the maker rate if a trade caused it, at the taker rate if it is the one
  // fill of a market order.
  lemma {:induction false} EveryFillIsCharged<S>(env: Env<S>, e: Engine<S>, n: nat, f: TradeFill)
    requires GoodConfig(env.cfg) && ClockOk(e) && After(env, e, n).Some? && f in FillsBooked(env, e, n)
    ensures AtRates(env.cfg, f) && exists m: nat :: m < n && BookedIn(env, e, m, f)
    decreases n
  {
    hide Advance, ClockOk, BookedBy, AtRates, TimedAt;
    var last := After(env, e, n - 1).value;
    if f in FillsBooked(env, e, n - 1) {
      EveryFillIsCharged(env, e, n - 1, f);
    } else {
      ClockNeverRunsBack(env, e, n - 1, n - 1);
      PoppedInTime(env, last);
      BookedTerms(env, last.core, Advance(env, last).event, f);
      assert BookedIn(env, e, n - 1, f);
    }
  }

  // ---- Market orders never rest --------------------------------------------------------------------------

  // No market order stands where a trade could reach it.
  ghost predicate NoneRests(orders: OrderMap) {
    forall id :: id in orders && orders[id].order.orderType == Market ==> !Matchable(orders[id].state)
  }

  ghost predicate NoMarketRests(xs: Venues) {
    forall s :: s in xs ==> NoneRests(xs[s].orders)
  }

  lemma {:induction false} TradeSettles(ex: Exchange, trade: Tick)
    requires GoodExchange(ex) && NoneRests(ex.orders)
    ensures NoneRests(OnTrade(ex, trade).0.orders)
  {
    hide OnTrade, BucketsOk, GoodOrders, CheckFill;
    TradePointwise(ex, trade);
  }

  lemma {:induction false} OpSettles(m: QueueModel, ex: Exchange, op: ExOp)
    requires GoodExchange(ex) && NoneRests(ex.orders) && !op.OpFillMarket?
    requires op.OpAckNew? && op.id in ex.orders ==> ex.orders[op.id].order.orderType != Market
    ensures NoneRests(Apply(m, ex, op).0.orders)
  {
    hide OnTrade, OnL3, Register, DepthOf, GoodExchange, BookL3.ApplyL3;
    if op.OpTrade? {
      TradeSettles(ex, op.trade);
    }
  }

  lemma {:induction false} MarketOpsSettle<S>(m: QueueModel, c: Core<S>, s: int, id: int)
    requires id in ExchangeAt(c, s).orders && NoneRests(ExchangeAt(c, s).orders)
    ensures NoneRests(RunOps(m, ExchangeAt(c, s), MarketOps(c, s, id)).0.orders)
  {
    var ex := ExchangeAt(c, s);
    var fallback := if s in c.truth then Some(c.truth[s].price) else None;
    OneOp(m, ex, OpFillMarket(id, fallback));
    TwoOps(m, ex, OpFillMarket(id, fallback), OpForceCancel(id));
    hide RunOps, MarketQuote, ExchangeAt;
  }

  lemma {:induction false} NothingRests()
    ensures NoneRests(map[])
  {
  }

  lemma {:induction false} WorkSettles<S>(m: QueueModel, c: Core<S>, e: Event, q: Queue)
    requires LifeAt(c, [e] + q) && LevelOk(e.kind) && NoMarketRests(c.exchanges) && WorkOf(c, e.kind).Work?
    ensures
      var w := WorkOf(c, e.kind);
      NoneRests(RunOps(m, w.start, w.ops).0.orders)
  {
    WorkIsAllowed(m, c, e, q);
    var w := WorkOf(c, e.kind);
    WorkShape(c, e.kind);
    NothingRests();
    hide LifeOk, GoodExchange, AllowedRun, RunOps, MarketOps, ExchangeAt, NoneRests;
    if e.kind.EvAck? && w.ops != [OpAckNew(e.kind.id)] {
      MarketOpsSettle(m, c, w.symbol, e.kind.id);
    } else {
      OneOp(m, w.start, w.ops[0]);
      assert w.ops == [w.ops[0]];
      OpSettles(m, w.start, w.ops[0]);
    }
  }

  lemma {:induction false} EventSettles<S>(env: Env<S>, c: Core<S>, e: Event, q: Queue)
    requires LifeAt(c, [e] + q) && LevelOk(e.kind) && NoMarketRests(c.exchanges)
    ensures Handle(env, c, e.kind).Effect? ==> NoMarketRests(Handle(env, c, e.kind).core.exchanges)
  {
    hide Handle, LifeAt, RunOps, WorkOf, NoneRests;
    HandleWork(env, c, e.kind);
    if WorkOf(c, e.kind).Work? {
      WorkSettles(env.cfg.model, c, e, q);
    }
  }

  lemma {:induction false} ProcessSettles<S>(env: Env<S>, history: seq<OrderReport>, c: Core<S>, f: Feed, event: Event)
    requires Popped(env, history, c.(now := event.ts), event, f) && NoMarketRests(c.exchanges)
    ensures
      Process(env, c, f, event).Stepped? ==> NoMarketRests(Process(env, c, f, event).engine.core.exchanges)
  {
    var c1 := c.(now := event.ts);
    hide Handle, Flush, Schedule, NoneRests, Room, LifeAt, LevelsOk, LevelOk;
    EventSettles(env, c1, event, f.queue);
    var eff := Handle(env, c1, event.kind);
    if eff.Effect? {
      FlushIds(env, eff.core, eff.core.now);
    }
  }

  lemma {:induction false} StepSettles<S>(env: Env<S>, history: seq<OrderReport>, e: Engine<S>)
    requires GoodConfig(env.cfg) && Sound(env.cfg, history, e) && NoMarketRests(e.core.exchanges)
    ensures
      var o := Advance(env, e);
      o.Stepped? || o.Flushed? ==> NoMarketRests(o.engine.core.exchanges)
  {
    hide Process, Flush, Sound, PopFeed, Ingest, Popped, NoneRests;
    match PopFeed(env.cfg.feedLatency, e.feed) {
      case Some((event, f)) =>
        PopSound(env, history, e);
        ProcessSteps(env, e.core, f, event);
        ProcessSettles(env, history, e.core, f, event);
      case None => FlushIds(env, e.core, e.core.now);
    }
  }

  // In every reachable state no market order can be reached by a trade: it waits for its acknowledgement
  // or is finished. So the fills of market orders are those booked at their acknowledgements.
  lemma {:induction false} MarketOrdersNeverRest<S(!new)>(env: Env<S>, e: Engine<S>, n: nat)
    requires Reaches(env, e, n) && NoMarketRests(e.core.exchanges)
    ensures NoMarketRests(After(env, e, n).value.core.exchanges)
    decreases n
  {
    hide Advance, Sound, NoMarketRests, ReportsDelivered;
    if n > 0 {
      MarketOrdersNeverRest(env, e, n - 1);
      RunKeepsSound(env, e, n - 1);
      StepSettles(env, ReportsDelivered(env, e, n - 1), After(env, e, n - 1).value);
    }
  }
}
