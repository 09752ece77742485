// What the risk checks come to: which submits are routed and why the others are refused, and that tracked
// orders never outnumber the limit.
module RiskLimits {
  import opened Types
  import opened Accounts
  import opened Ledgers
  import opened Exchanges
  import opened EventQueues
  import opened Feeds
  import opened EngineSpec
  import opened EngineMoney
  import opened PositionBound
  import opened PositionSteps

  // ---- One command ---------------------------------------------------------------------------------------

  // The position after the whole order has filled.
  function Proposed(position: int, order: Order): int {
    if order.side == Buy then position + order.qty
    else if order.side == Sell then position - order.qty
    else position
  }

  // How a submit is answered: routed and on its way at once, under the next id and the time of the call, if
  // nothing speaks against it; otherwise refused for the first of the reasons that do.
  ghost predicate Decided(cfg: Config, l: Ledger, d: Desk, o: Order, ts: int, d': Desk, p: Push) {
    var (g, position) := (l.guard, PositionQty(l.account, o.symbolId));
    var full := g.maxOpenOrders != 0 && |d.routes| >= g.maxOpenOrders;
    var proposed := Proposed(position, o);
    var large := g.maxPosition > 0 && !(-g.maxPosition <= proposed <= g.maxPosition);
    && d'.nextOrderId == d.nextOrderId + 1
    && if !g.killed && !full && !large then
         && d'.routes == d.routes[d.nextOrderId := o.symbolId]
         && p == Push(ts, EvOrder(o.(orderId := d.nextOrderId, tsSubmit := ts)))
       else
         && d'.routes == d.routes
         && p.ts == ts + cfg.reportLatency && p.kind.EvReport?
         && Refuses(p.kind.report, o, d.nextOrderId, if g.killed then KillSwitch
                                                     else if full then Reason.MaxOpenOrders
                                                     else Reason.MaxPosition)
  }

  ghost predicate Refuses(r: OrderReport, o: Order, id: int, reason: Reason) {
    && r.orderId == id && r.clientOrderId == o.clientOrderId && r.symbolId == o.symbolId
    && r.status == Rejected && r.reason == Some(reason)
    && r.lastFillQty == 0 && r.lastFillPrice == 0 && r.filledQty == 0 && r.remainingQty == o.qty
  }

  // One command: a submit is decided upon, a cancel goes out at once.
  ghost predicate CommandDone(cfg: Config, l: Ledger, d: Desk, cmd: Command, ts: int, d': Desk, p: Push) {
    match cmd
    case SubmitOrder(o) => Decided(cfg, l, d, o, ts, d', p)
    case CancelOrder(id) => d' == d && p == Push(ts, EvCancel(id))
  }

  lemma {:induction false} CommandIsDone(cfg: Config, l: Ledger, d: Desk, cmd: Command, ts: int)
    ensures CommandDone(cfg, l, d, cmd, ts, OneCommand(cfg, l, d, cmd, ts).0, OneCommand(cfg, l, d, cmd, ts).1)
  {
    hide PositionQty;
  }

  lemma {:induction false} CommandsAppend(cfg: Config, l: Ledger, d: Desk, a: seq<Command>, b: seq<Command>, ts: int)
    ensures
      var (d1, ps) := Commands(cfg, l, d, a, ts);
      var (d2, qs) := Commands(cfg, l, d1, b, ts);
      Commands(cfg, l, d, a + b, ts) == (d2, ps + qs)
    decreases a
  {
    hide OneCommand;
    if a == [] {
      assert a + b == b;
      var qs := Commands(cfg, l, d, b, ts).1;
      assert [] + qs == qs;
    } else {
      assert (a + b)[1..] == a[1..] + b && (a + b)[0] == a[0];
      var (d1, p) := OneCommand(cfg, l, d, a[0], ts);
      CommandsAppend(cfg, l, d1, a[1..], b, ts);
      var ps := Commands(cfg, l, d1, a[1..], ts).1;
      var qs := Commands(cfg, l, Commands(cfg, l, d1, a[1..], ts).0, b, ts).1;
      assert [p] + ps + qs == [p] + (ps + qs);
    }
  }

  lemma {:induction false} CommandsLength(cfg: Config, l: Ledger, d: Desk, cmds: seq<Command>, ts: int)
    ensures |Commands(cfg, l, d, cmds, ts).1| == |cmds|
    decreases cmds
  {
    hide OneCommand;
    if cmds != [] {
      CommandsLength(cfg, l, OneCommand(cfg, l, d, cmds[0], ts).0, cmds[1..], ts);
    }
  }

  // Each command of a list is carried out in its turn, at the desk that those before it have left, and
  // schedules exactly one event.
  lemma {:induction false} EachCommandIsDone(cfg: Config, l: Ledger, d: Desk, cmds: seq<Command>, ts: int, i: nat)
    requires i < |cmds|
    ensures |Commands(cfg, l, d, cmds, ts).1| == |cmds|
    ensures
      CommandDone(cfg, l, Commands(cfg, l, d, cmds[..i], ts).0, cmds[i], ts,
                  Commands(cfg, l, d, cmds[..i + 1], ts).0, Commands(cfg, l, d, cmds, ts).1[i])
    decreases cmds
  {
    hide CommandDone, OneCommand;
    var (d1, p) := OneCommand(cfg, l, d, cmds[0], ts);
    CommandIsDone(cfg, l, d, cmds[0], ts);
    if i == 0 {
      assert cmds[..0] == [] && cmds[..1] == [cmds[0]] && [cmds[0]][1..] == [];
      CommandsLength(cfg, l, d, cmds, ts);
    } else {
      assert cmds[..i][1..] == cmds[1..][..i - 1] && cmds[..i + 1][1..] == cmds[1..][..i];
      EachCommandIsDone(cfg, l, d1, cmds[1..], ts, i - 1);
    }
  }

  // ---- Tracked orders --------------------------------------------------------------------------------------

  // The guard has the configured limits, and tracked orders stay within theirs.
  ghost predicate WithinLimit<S>(cfg: Config, c: Core<S>) {
    Limits(cfg, c.ledger.guard) && (cfg.maxOpenOrders > 0 ==> |c.routes| <= cfg.maxOpenOrders)
  }

  lemma {:induction false} CommandsWithin(cfg: Config, l: Ledger, d: Desk, cmds: seq<Command>, ts: int)
    requires Limits(cfg, l.guard) && cfg.maxOpenOrders > 0 && |d.routes| <= cfg.maxOpenOrders
    ensures |Commands(cfg, l, d, cmds, ts).0.routes| <= cfg.maxOpenOrders
    decreases cmds
  {
    hide PositionQty;
    if cmds != [] {
      CommandsWithin(cfg, l, OneCommand(cfg, l, d, cmds[0], ts).0, cmds[1..], ts);
    }
  }

  lemma {:induction false} CallWithin<S>(env: Env<S>, c: Core<S>, ts: int, payload: Payload)
    requires WithinLimit(env.cfg, c)
    ensures Call(env, c, ts, payload).Effect? ==> WithinLimit(env.cfg, Call(env, c, ts, payload).core)
  {
    hide Commands;
    match env.strategy(c.strategy, Callback(ts, c.market, payload)) {
      case Reply(s, cmds) =>
        if env.cfg.maxOpenOrders > 0 {
          CommandsWithin(env.cfg, c.ledger, Desk(c.routes, c.nextOrderId), cmds, ts);
        }
      case _ =>
    }
  }

  lemma {:induction false} FlushWithin<S>(env: Env<S>, c: Core<S>, ts: int)
    requires WithinLimit(env.cfg, c)
    ensures Flush(env, c, ts).Effect? ==> WithinLimit(env.cfg, Flush(env, c, ts).core)
  {
    hide Commands, HandOver;
    match HandOver(env, c.strategy, c.market, c.batch, ts) {
      case Handover(s, cmds, calls) =>
        if env.cfg.maxOpenOrders > 0 {
          CommandsWithin(env.cfg, c.ledger, Desk(c.routes, c.nextOrderId), cmds, ts);
        }
      case Refused =>
    }
  }

  lemma {:induction false} RetireWithin<S>(cfg: Config, c: Core<S>, r: OrderReport)
    requires WithinLimit(cfg, c)
    ensures WithinLimit(cfg, Retire(c, r))
  {
    hide Remove, ExchangeAt;
    SubsetSize((c.routes - {r.orderId}).Keys, c.routes.Keys);
    assert |(c.routes - {r.orderId}).Keys| == |c.routes - {r.orderId}| && |c.routes.Keys| == |c.routes|;
  }

  lemma {:induction false} FundLimits(cfg: Config, l: Ledger, event: FundingEvent, mark: int)
    requires Limits(cfg, l.guard)
    ensures Limits(cfg, Fund(l, event, mark).guard)
  {
    FundPositions(l, event, mark);
    hide Fund;
  }

  lemma {:induction false} NewsWithin<S>(env: Env<S>, c: Core<S>, kind: EventKind)
    requires kind.EvDelivery? || kind.EvReport? || kind.EvFunding? || kind.EvTimer?
    requires WithinLimit(env.cfg, c)
    ensures Handle(env, c, kind).Effect? ==> WithinLimit(env.cfg, Handle(env, c, kind).core)
  {
    hide Call, Retire, Fund, FundingMark, Limits;
    match kind {
      case EvDelivery(tick) =>
        CallWithin(env, c.(market := c.market[tick.symbolId := tick]), tick.tsLocal, OnTick(tick));
      case EvReport(r) =>
        RetireWithin(env.cfg, c, r);
        CallWithin(env, Retire(c, r), Retire(c, r).now, OnReport(r));
      case EvFunding(event) =>
        var mark := FundingMark(c, event.symbolId);
        if mark.Some? {
          FundLimits(env.cfg, c.ledger, event, mark.value);
        }
        CallWithin(env, if mark.Some? then c.(ledger := Fund(c.ledger, event, mark.value)) else c, c.now,
                   OnFunding(event));
      case _ =>
    }
  }

  lemma {:induction false} MarketAckKeepsRoutes<S>(env: Env<S>, c: Core<S>, s: int, id: int)
    requires id in ExchangeAt(c, s).orders
    ensures MarketAck(env, c, s, id).Effect? && MarketAck(env, c, s, id).core.routes == c.routes
  {
    hide Record, ExchangeAt, MarketQuote, ForceCancel, JobOf;
  }

  lemma {:induction false} OthersKeepRoutes<S>(env: Env<S>, c: Core<S>, kind: EventKind)
    requires !(kind.EvDelivery? || kind.EvReport? || kind.EvFunding? || kind.EvTimer?)
    ensures Handle(env, c, kind).Effect? ==> Handle(env, c, kind).core.routes == c.routes
  {
    hide OnTrade, Record, JobsOf, UpdateL3, Submit, MarketAck, AckNew, Cancel, AckCancel, ExchangeAt, UpdateL2, Delay,
      ReportPushes;
    if kind.EvAck? && kind.id in c.routes && kind.id in ExchangeAt(c, c.routes[kind.id]).orders {
      MarketAckKeepsRoutes(env, c, c.routes[kind.id], kind.id);
    }
  }

  lemma {:induction false} HandleWithin<S>(env: Env<S>, c: Core<S>, kind: EventKind)
    requires WithinLimit(env.cfg, c)
    ensures Handle(env, c, kind).Effect? ==> WithinLimit(env.cfg, Handle(env, c, kind).core)
  {
    if kind.EvDelivery? || kind.EvReport? || kind.EvFunding? || kind.EvTimer? {
      hide Handle, Limits;
      NewsWithin(env, c, kind);
    } else {
      EventLedger(env, c, kind);
      RecordLimits(env.cfg, c.ledger, EventJobs(env, c, kind));
      OthersKeepRoutes(env, c, kind);
      hide Handle, Limits, Record, EventJobs;
    }
  }

  lemma {:induction false} StepWithin<S>(env: Env<S>, e: Engine<S>)
    requires WithinLimit(env.cfg, e.core)
    ensures
      var o := Advance(env, e);
      o.Stepped? || o.Flushed? ==> WithinLimit(env.cfg, o.engine.core)
  {
    hide Handle, Flush, Ingest, PopFeed, Schedule, Limits;
    match PopFeed(env.cfg.feedLatency, e.feed) {
      case Some((event, f)) =>
        var c := e.core.(now := event.ts);
        HandleWithin(env, c, event.kind);
        var eff := Handle(env, c, event.kind);
        if eff.Effect? {
          FlushWithin(env, eff.core, eff.core.now);
        }
      case None => FlushWithin(env, e.core, e.core.now);
    }
  }

  // In every reachable state no more orders are tracked than the limit allows, whatever it is and whatever
  // the strategy asks.
  lemma {:induction false} TrackedOrdersStayWithinLimit<S>(env: Env<S>, e: Engine<S>, n: nat)
    requires WithinLimit(env.cfg, e.core) && After(env, e, n).Some?
    ensures WithinLimit(env.cfg, After(env, e, n).value.core)
    decreases n
  {
    hide Advance, WithinLimit;
    if n > 0 {
      TrackedOrdersStayWithinLimit(env, e, n - 1);
      StepWithin(env, After(env, e, n - 1).value);
    }
  }

  lemma {:induction false} StartWithin<S>(
    cfg: Config, s: S, sources: seq<seq<Tick>>, l3Sources: seq<seq<L3Update>>, l3Symbols: set<int>, external: seq<Push>)
    ensures WithinLimit(cfg, Start(cfg, s, sources, l3Sources, l3Symbols, external).core)
  {
  }

  // ---- The commands of a batch -----------------------------------------------------------------------------

  // The strategy is shown the ticks first and the reports second, and what it answers to the ticks is
  // carried out before what it answers to the reports.
  lemma {:induction false} BatchCommandsInOrder<S>(env: Env<S>, c: Core<S>, ts: int)
    requires c.batch.ticks != [] && c.batch.reports != []
    ensures
      var (tickCall, reportCall) :=
        (Callback(ts, c.market, OnTicks(c.batch.ticks)), Callback(ts, c.market, OnReports(c.batch.reports)));
      var first := env.strategy(c.strategy, tickCall);
      if first.StrategyError? || env.strategy(first.state, reportCall).StrategyError? then Flush(env, c, ts).Fault?
      else
        var (second, eff) := (env.strategy(first.state, reportCall), Flush(env, c, ts));
        var (d1, ps) := Commands(env.cfg, c.ledger, Desk(c.routes, c.nextOrderId), first.commands, ts);
        var (d2, qs) := Commands(env.cfg, c.ledger, d1, second.commands, ts);
        && eff.Effect? && eff.calls == [tickCall, reportCall] && eff.core.strategy == second.state
        && eff.pushes == ps + qs && eff.core.routes == d2.routes && eff.core.nextOrderId == d2.nextOrderId
  {
    hide Commands;
    var first := env.strategy(c.strategy, Callback(ts, c.market, OnTicks(c.batch.ticks)));
    if first.Reply? {
      var second := env.strategy(first.state, Callback(ts, c.market, OnReports(c.batch.reports)));
      if second.Reply? {
        CommandsAppend(env.cfg, c.ledger, Desk(c.routes, c.nextOrderId), first.commands, second.commands, ts);
      }
    }
  }
}
