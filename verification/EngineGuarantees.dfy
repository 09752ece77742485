// What every run guarantees, in every state it reaches, for every strategy.
module EngineGuarantees {
  import opened Types
  import opened Arith
  import opened Accounts
  import opened Ledgers
  import opened RiskFigures
  import opened Exchanges
  import opened ExchangeProps
  import opened EventQueues
  import opened Feeds
  import opened EngineSpec
  import opened EngineClock
  import opened QueueViews
  import opened Lifecycle
  import opened LifecycleSteps
  import opened LifecycleRun
  import opened ReportStreams
  import opened EngineMoney
  import opened PositionBound
  import opened EngineInvariant

  // A run that starts soundly, as every run from Start does, and gets through n iterations.
  ghost predicate Reaches<S(!new)>(env: Env<S>, e: Engine<S>, n: nat) {
    GoodConfig(env.cfg) && GoodStrategy(env) && Sound(env.cfg, [], e) && After(env, e, n).Some?
  }

  // ---- Ownership -----------------------------------------------------------------------------------

  function Terminals(rs: seq<OrderReport>): nat {
    if rs == [] then 0 else (if IsTerminal(rs[0].status) then 1 else 0) + Terminals(rs[1..])
  }

  lemma {:induction false} TerminalsCounted(rs: seq<OrderReport>, terminal: bool)
    requires EndsWhen(rs, terminal)
    ensures Terminals(rs) == if terminal then 1 else 0
  {
    if |rs| > 1 {
      assert !IsTerminal(rs[0].status);
      forall i | 0 <= i < |rs[1..]| - 1 ensures !IsTerminal(rs[1..][i].status) {
        assert rs[1..][i] == rs[i + 1];
      }
      TerminalsCounted(rs[1..], terminal);
    } else if |rs| == 1 {
      assert rs[1..] == [];
    }
  }

  // An order that lives in an exchange is tracked, and routed to that exchange and no other.
  lemma {:induction false} LiveOrdersAreTracked<S(!new)>(env: Env<S>, e: Engine<S>, n: nat, s: int, id: int)
    requires Reaches(env, e, n)
    requires
      var c := After(env, e, n).value.core;
      s in c.exchanges && id in c.exchanges[s].orders
    ensures
      var c := After(env, e, n).value.core;
      id in c.routes && c.routes[id] == s && 0 < id < c.nextOrderId
  {
    RunKeepsSound(env, e, n);
    var g := After(env, e, n).value;
    hide After, ReportsDelivered, GoodExchange, Arrivals, TrailOk, Streams;
    assert OwnOrders(g.core.exchanges[s].orders, DeskOf(g.core), s);
    LiveIdsIssued(g.core.exchanges, DeskOf(g.core), g.feed.queue);
  }

  // A tracked order is either on its way or in its exchange, never both. A new one awaits exactly
  // one acknowledgement, one being cancelled awaits at least one cancel acknowledgement, and a
  // finished one has exactly one terminal report queued.
  lemma {:induction false} TrackedOrdersAreOwned<S(!new)>(env: Env<S>, e: Engine<S>, n: nat, id: int)
    requires Reaches(env, e, n) && id in After(env, e, n).value.core.routes
    ensures
      var g := After(env, e, n).value;
      var (q, live) := (g.feed.queue, LiveIn(g.core.exchanges, g.core.routes[id], id));
      && (Arriving(q, id) <==> live.None?)
      && Tally(q, EvAck(id)) == (if live.Some? && live.value.state == PendingNew then 1 else 0)
      && (live.Some? && live.value.state == PendingCancel ==> Tally(q, EvCancelAck(id)) >= 1)
      && Terminals(ReportsFor(q, id)) == (if live.Some? && IsTerminal(live.value.state) then 1 else 0)
  {
    RunKeepsSound(env, e, n);
    var g := After(env, e, n).value;
    var t := TrailOf(g.core.exchanges, DeskOf(g.core), g.feed.queue, id);
    assert TrailOk(t);
    if t.live.Some? {
      TerminalsCounted(t.pending, IsTerminal(t.live.value.state));
    }
  }

  // An untracked id has nothing on its way except, at most, its one terminal report.
  lemma {:induction false} UntrackedOrdersAreGone<S(!new)>(env: Env<S>, e: Engine<S>, n: nat, id: int)
    requires Reaches(env, e, n) && id !in After(env, e, n).value.core.routes
    ensures
      var q := After(env, e, n).value.feed.queue;
      && !Arriving(q, id) && Tally(q, EvAck(id)) == 0
      && |ReportsFor(q, id)| <= 1 && Terminals(ReportsFor(q, id)) == |ReportsFor(q, id)|
  {
    RunKeepsSound(env, e, n);
    var g := After(env, e, n).value;
    var rs := ReportsFor(g.feed.queue, id);
    assert TrailOk(TrailOf(g.core.exchanges, DeskOf(g.core), g.feed.queue, id));
    if rs != [] {
      assert rs[1..] == [];
    }
  }

  lemma {:induction false} NothingQueued(id: int)
    ensures !Arriving([], id) && Tally([], EvAck(id)) == 0 && Tally([], EvCancelAck(id)) == 0
            && ReportsFor([], id) == []
  {
  }

  lemma {:induction false} DoneIsEmpty<S>(env: Env<S>, e: Engine<S>)
    requires Advance(env, e).Done?
    ensures Advance(env, e).engine == Engine(e.core, Ingest(env.cfg.feedLatency, e.feed))
    ensures Advance(env, e).engine.feed.queue == []
  {
    hide Process, Flush, Ingest;
    var f := PopFeed(env.cfg.feedLatency, e.feed);
    if f.Some? {
      ProcessSteps(env, e.core, f.value.1, f.value.0);
    }
  }

  lemma {:induction false} DrainedState(xs: Venues, d: Desk, id: int)
    requires LifeOk(xs, d, []) && id in d.routes && LiveIn(xs, d.routes[id], id).Some?
    ensures
      var o := LiveIn(xs, d.routes[id], id).value;
      o.state == Open || o.state == PartiallyFilled
  {
    NothingQueued(id);
    var s := d.routes[id];
    assert GoodExchange(xs[s]);
    assert GoodOrder(id, xs[s].orders[id]);
    assert TrailOk(TrailOf(xs, d, [], id));
  }

  // When a run has drained, every order that is still tracked rests in its exchange.
  lemma {:induction false} DrainedRunsLeaveRestingOrders<S(!new)>(env: Env<S>, e: Engine<S>, n: nat, id: int)
    requires Reaches(env, e, n) && Advance(env, After(env, e, n).value).Done?
    ensures
      var g := Advance(env, After(env, e, n).value).engine;
      && g.feed.queue == [] && Remaining(g.feed) == 0
      && (id in g.core.routes ==>
            var live := LiveIn(g.core.exchanges, g.core.routes[id], id);
            live.Some? && (live.value.state == Open || live.value.state == PartiallyFilled))
  {
    RunKeepsSound(env, e, n);
    var g0 := After(env, e, n).value;
    DrainSound(env, ReportsDelivered(env, e, n), g0);
    IngestOk(env.cfg.feedLatency, g0.feed, g0.core.now);
    DoneIsEmpty(env, g0);
    hide After, Advance, FeedOk, Ingest, ReportsDelivered, Fifo, LevelsOk;
    var g := Advance(env, g0).engine;
    hide StreamsAt, MoneyOk, World, Arrivals;
    NothingQueued(id);
    var t := TrailOf(g.core.exchanges, DeskOf(g.core), [], id);
    assert TrailOk(t);
    if id in g.core.routes && t.live.Some? {
      DrainedState(g.core.exchanges, DeskOf(g.core), id);
    }
  }

  // Filled and remaining quantity always make up the order.
  lemma {:induction false} QuantityIsConserved<S(!new)>(env: Env<S>, e: Engine<S>, n: nat, s: int, id: int)
    requires Reaches(env, e, n)
    requires
      var c := After(env, e, n).value.core;
      s in c.exchanges && id in c.exchanges[s].orders
    ensures
      var o := After(env, e, n).value.core.exchanges[s].orders[id];
      && o.filled + o.remaining == o.order.qty && o.filled >= 0 && o.remaining >= 0
      && (o.state == Filled <==> o.remaining == 0)
  {
    RunKeepsSound(env, e, n);
    var g := After(env, e, n).value;
    hide After, ReportsDelivered, Arrivals, TrailOk, Streams, BucketsOk, GoodBooks;
    assert GoodExchange(g.core.exchanges[s]);
    assert GoodOrder(id, g.core.exchanges[s].orders[id]);
  }

  // ---- Reports, money, positions --------------------------------------------------------------------

  // At any moment the reports delivered for an order add up, and nothing follows a terminal report.
  lemma {:induction false} DeliveredReportsAreWellTold<S(!new)>(env: Env<S>, e: Engine<S>, n: nat, id: int)
    requires Reaches(env, e, n)
    ensures WellTold(Of(ReportsDelivered(env, e, n), id))
    ensures WellTold(Of(ReportsDelivered(env, e, n), id) + ReportsFor(After(env, e, n).value.feed.queue, id))
  {
    RunKeepsSound(env, e, n);
    var g := After(env, e, n).value;
    var past := Of(ReportsDelivered(env, e, n), id);
    var t := TrailOf(g.core.exchanges, DeskOf(g.core), g.feed.queue, id);
    assert TrailOk(t) && StreamOk(t, past);
    hide After, ReportsDelivered, TrailOk, WellTold;
    if t.routed {
      RoutedWellTold(t, past);
    }
    DeliveredWellTold(past, t.pending);
  }

  // The account, the running summary and the stored fills hold the same positions at the same cost;
  // the guard, the summary and the PnL history hold one and the same total; and trading is cut off
  // exactly when that total has reached the loss limit at some point. The summary's mean, squared
  // deviations and losses, peak and deepest drawdown are those of the whole history.
  lemma {:induction false} LedgersStayInStep<S(!new)>(env: Env<S>, e: Engine<S>, n: nat)
    requires Reaches(env, e, n)
    ensures
      var l := After(env, e, n).value.core.ledger;
      BooksAgree(l) && OneTotal(l) && FiguresOk(l.log)
  {
    RunKeepsSound(env, e, n);
  }

  // With one open order at a time and a position limit, no position ever exceeds the limit.
  lemma {:induction false} PositionNeverExceedsLimit<S(!new)>(env: Env<S>, e: Engine<S>, n: nat, s: int)
    requires Reaches(env, e, n) && OneOrderLimit(env.cfg)
    ensures Abs(PositionQty(After(env, e, n).value.core.ledger.account, s)) <= env.cfg.maxPosition
  {
    RunKeepsSound(env, e, n);
    hide After, ReportsDelivered, PositionQty;
  }

  // ---- The kill switch ------------------------------------------------------------------------------

  ghost predicate NoNewOrder(before: Queue, after: Queue) {
    forall x :: x in after && x.kind.EvOrder? ==> x in before
  }

  // Nothing is sent to an exchange any more, and nothing new is tracked.
  ghost predicate Silenced<S>(a: Engine<S>, b: Engine<S>) {
    && b.core.ledger.guard.killed
    && b.core.routes.Keys <= a.core.routes.Keys
    && NoNewOrder(a.feed.queue, b.feed.queue)
  }

  lemma {:induction false} PushesKeepOrders(q: Queue, next: int, ps: seq<Push>)
    requires NoOrder(ps)
    ensures NoNewOrder(q, PushAll(q, next, ps))
  {
    hide PushAll;
    forall x | x in PushAll(q, next, ps) && x.kind.EvOrder? ensures x in q {
      PushAllMembers(q, next, ps, x);
      if i :| 0 <= i < |ps| && x == Event(ps[i].ts, next + i, ps[i].kind) {
        assert ps[i] in ps;
      }
    }
  }

  lemma {:induction false} KilledCommands(cfg: Config, l: Ledger, d: Desk, cmds: seq<Command>, ts: int)
    requires l.guard.killed
    ensures Commands(cfg, l, d, cmds, ts).0.routes == d.routes && NoOrder(Commands(cfg, l, d, cmds, ts).1)
    decreases cmds
  {
    if cmds != [] {
      KilledCommands(cfg, l, OneCommand(cfg, l, d, cmds[0], ts).0, cmds[1..], ts);
    }
  }

  lemma {:induction false} KilledCall<S>(env: Env<S>, c: Core<S>, ts: int, payload: Payload)
    requires c.ledger.guard.killed
    ensures
      var eff := Call(env, c, ts, payload);
      eff.Effect? ==> eff.core.routes == c.routes && NoOrder(eff.pushes) && eff.core.ledger == c.ledger
  {
    hide Commands, NoOrder;
    match env.strategy(c.strategy, Callback(ts, c.market, payload)) {
      case Reply(s, cmds) => KilledCommands(env.cfg, c.ledger, Desk(c.routes, c.nextOrderId), cmds, ts);
      case _ =>
    }
  }

  lemma {:induction false} KilledFlush<S>(env: Env<S>, c: Core<S>, ts: int)
    requires c.ledger.guard.killed
    ensures
      var eff := Flush(env, c, ts);
      eff.Effect? ==> eff.core.routes == c.routes && NoOrder(eff.pushes) && eff.core.ledger == c.ledger
  {
    hide Commands, HandOver;
    match HandOver(env, c.strategy, c.market, c.batch, ts) {
      case Handover(s, cmds, calls) => KilledCommands(env.cfg, c.ledger, Desk(c.routes, c.nextOrderId), cmds, ts);
      case Refused =>
    }
  }

  lemma {:induction false} FundKilled(l: Ledger, event: FundingEvent, mark: int)
    requires l.guard.killed
    ensures Fund(l, event, mark).guard.killed
  {
    hide SatAdd, FundingPnl;
  }

  lemma {:induction false} KilledLedger<S>(env: Env<S>, c: Core<S>, kind: EventKind)
    requires c.ledger.guard.killed
    ensures Handle(env, c, kind).Effect? ==> Handle(env, c, kind).core.ledger.guard.killed
  {
    EventLedger(env, c, kind);
    KilledStays(c.ledger, EventJobs(env, c, kind));
    hide Handle, Record, Fund, FundingMark, EventJobs;
    if kind.EvFunding? && FundingMark(c, kind.funding.symbolId).Some? {
      FundKilled(c.ledger, kind.funding, FundingMark(c, kind.funding.symbolId).value);
    }
  }

  lemma {:induction false} KilledMarketAck<S>(env: Env<S>, c: Core<S>, s: int, id: int)
    requires id in ExchangeAt(c, s).orders
    ensures
      var eff := MarketAck(env, c, s, id);
      eff.Effect? ==> eff.core.routes == c.routes && NoOrder(eff.pushes)
  {
    hide Record, JobOf, FillMarket, ForceCancel, ExchangeAt;
  }

  lemma {:induction false} KilledHandle<S>(env: Env<S>, c: Core<S>, kind: EventKind)
    requires c.ledger.guard.killed
    ensures
      var eff := Handle(env, c, kind);
      eff.Effect? ==> eff.core.routes.Keys <= c.routes.Keys && NoOrder(eff.pushes)
  {
    hide Call, OnTrade, Record, JobsOf, UpdateL3, Submit, FillMarket, ForceCancel, AckNew, Cancel, AckCancel,
      ExchangeAt, Remove, Fund, FundingMark, ComputeFee, UpdateL2, MarketAck, JobOf;
    match kind {
      case EvDelivery(tick) =>
        KilledCall(env, c.(market := c.market[tick.symbolId := tick]), tick.tsLocal, OnTick(tick));
      case EvReport(r) => KilledCall(env, Retire(c, r), c.now, OnReport(r));
      case EvFunding(event) =>
        var mark := FundingMark(c, event.symbolId);
        if mark.Some? {
          FundKilled(c.ledger, event, mark.value);
        }
        KilledCall(env, if mark.Some? then c.(ledger := Fund(c.ledger, event, mark.value)) else c, c.now,
                   OnFunding(event));
      case EvAck(id) =>
        if id in c.routes && id in ExchangeAt(c, c.routes[id]).orders {
          KilledMarketAck(env, c, c.routes[id], id);
        }
      case _ =>
    }
  }

  lemma {:induction false} KilledFinish<S>(env: Env<S>, eff: Effect<S>, f: Feed, event: Event)
    requires eff.Effect? && eff.core.ledger.guard.killed && NoOrder(eff.pushes)
    ensures
      var o := Finish(env, eff, f, event);
      o.Stepped? ==>
        && o.engine.core.ledger.guard.killed && o.engine.core.routes == eff.core.routes
        && NoNewOrder(f.queue, o.engine.feed.queue)
  {
    var f1 := Schedule(f, eff.pushes);
    PushesKeepOrders(f.queue, f.nextSeq, eff.pushes);
    KilledFlush(env, eff.core, eff.core.now);
    var fl := Flush(env, eff.core, eff.core.now);
    if fl.Effect? {
      PushesKeepOrders(f1.queue, f1.nextSeq, fl.pushes);
    }
    hide Flush, PushAll;
  }

  lemma {:induction false} IngestKeepsOrders(latency: int, f: Feed)
    ensures NoNewOrder(f.queue, Ingest(latency, f).queue)
    decreases Remaining(f)
  {
    hide PushAll, NextItem;
    if CanIngest(f) {
      IngestOneRemaining(latency, f);
      var g := IngestOne(latency, f);
      PushesKeepOrders(f.queue, f.nextSeq, ItemPushes(latency, f));
      IngestKeepsOrders(latency, g);
    }
  }

  lemma {:induction false} KilledStep<S>(env: Env<S>, e: Engine<S>)
    requires e.core.ledger.guard.killed
    ensures
      var o := Advance(env, e);
      (o.Stepped? || o.Flushed?) ==> Silenced(e, o.engine)
  {
    IngestKeepsOrders(env.cfg.feedLatency, e.feed);
    var g := Ingest(env.cfg.feedLatency, e.feed);
    hide Handle, Flush, Finish, PushAll, Ingest;
    match PopFeed(env.cfg.feedLatency, e.feed) {
      case Some((event, f)) =>
        var c := e.core.(now := event.ts);
        ProcessSteps(env, e.core, f, event);
        KilledLedger(env, c, event.kind);
        KilledHandle(env, c, event.kind);
        var eff := Handle(env, c, event.kind);
        if eff.Effect? {
          KilledFinish(env, eff, f, event);
          assert f.queue == g.queue[1..];
          forall x | x in f.queue ensures x in g.queue {}
        }
      case None =>
        KilledFlush(env, e.core, e.core.now);
        var fl := Flush(env, e.core, e.core.now);
        if fl.Effect? {
          PushesKeepOrders(g.queue, g.nextSeq, fl.pushes);
        }
    }
  }

  // Once the loss limit has been hit, trading is off for the rest of the run: no further order is
  // ever sent or tracked, whatever the strategy submits.
  lemma {:induction false} KillSwitchIsFinal<S(!new)>(env: Env<S>, e: Engine<S>, m: nat, n: nat)
    requires m <= n && After(env, e, n).Some? && After(env, e, m).Some?
    requires After(env, e, m).value.core.ledger.guard.killed
    ensures Silenced(After(env, e, m).value, After(env, e, n).value)
    decreases n
  {
    hide Advance;
    if m < n {
      KillSwitchIsFinal(env, e, m, n - 1);
      KilledStep(env, After(env, e, n - 1).value);
    }
  }
}
