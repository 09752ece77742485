// The life of one order through a whole run: its terms never change, its fills only grow, its state
// moves along the documented edges and one more, and once finished it never changes again.
module OrderHistories {
  import opened Types
  import opened Ledgers
  import opened QueueModels
  import opened Exchanges
  import opened ExchangeProps
  import opened EventQueues
  import opened Feeds
  import opened EngineSpec
  import opened EngineClock
  import opened QueueViews
  import opened Lifecycle
  import opened LifecycleSteps
  import opened LifecycleRun
  import opened ReportStreams
  import opened EngineMoney
  import opened PositionBound
  import opened EngineInvariant
  import opened EngineGuarantees

  // The operations that an event carries out on an exchange, and on which one.
  datatype Work = NoWork | Work(symbol: int, start: Exchange, ops: seq<ExOp>)

  function MarketOps<S>(c: Core<S>, s: int, id: int): seq<ExOp>
    requires id in ExchangeAt(c, s).orders
  {
    var fallback := if s in c.truth then Some(c.truth[s].price) else None;
    if FillMarket(ExchangeAt(c, s), id, fallback).value.1.status == PartiallyFilled
    then [OpFillMarket(id, fallback), OpForceCancel(id)]
    else [OpFillMarket(id, fallback)]
  }

  function WorkOf<S>(c: Core<S>, kind: EventKind): Work {
    match kind
    case EvTick(t) => Work(t.symbolId, ExchangeAt(c, t.symbolId), [OpTrade(t)])
    case EvL2(u) => Work(u.symbolId, ExchangeAt(c, u.symbolId), [OpL2(u)])
    case EvL3(u) => Work(u.symbolId, ExchangeAt(c.(l3Symbols := c.l3Symbols + {u.symbolId}), u.symbolId), [OpL3(u)])
    case EvOrder(o) => Work(o.symbolId, ExchangeAt(c, o.symbolId), [OpSubmit(o)])
    case EvAck(id) =>
      if id !in c.routes then NoWork
      else
        var s := c.routes[id];
        var ex := ExchangeAt(c, s);
        Work(s, ex, if id in ex.orders
             && ex.orders[id].order.orderType == Market then MarketOps(c, s, id) else [OpAckNew(id)])
    case EvCancel(id) => if id !in c.routes then NoWork
                         else Work(c.routes[id], ExchangeAt(c, c.routes[id]), [OpCancel(id)])
    case EvCancelAck(id) => if id !in c.routes then NoWork
                            else Work(c.routes[id], ExchangeAt(c, c.routes[id]), [OpAckCancel(id)])
    case EvReport(r) =>
      if !IsTerminal(r.status) || r.orderId !in c.routes then NoWork
      else Work(c.routes[r.orderId], ExchangeAt(c, c.routes[r.orderId]), [OpRemove(r.orderId)])
    case _ => NoWork
  }

  lemma {:induction false} OneOp(m: QueueModel, ex: Exchange, op: ExOp)
    ensures RunOps(m, ex, [op]).0 == Apply(m, ex, op).0
    ensures Allowed(ex, op) ==> AllowedRun(m, ex, [op])
  {
    hide Apply, Allowed;
    assert [op][1..] == [];
  }

  lemma {:induction false} TwoOps(m: QueueModel, ex: Exchange, op: ExOp, op2: ExOp)
    ensures RunOps(m, ex, [op, op2]).0 == Apply(m, Apply(m, ex, op).0, op2).0
    ensures Allowed(ex, op) && Allowed(Apply(m, ex, op).0, op2) ==> AllowedRun(m, ex, [op, op2])
  {
    OneOp(m, Apply(m, ex, op).0, op2);
    hide Apply, Allowed;
    assert [op, op2][1..] == [op2];
  }

  // The exchanges after an event: one of them has carried out the event's operations.
  ghost predicate WorkDone(m: QueueModel, xs: Venues, w: Work, xs': Venues) {
    match w
    case NoWork => xs' == xs
    case Work(s, ex, ops) => xs' == xs[s := RunOps(m, ex, ops).0]
  }

  lemma {:induction false} IssueExchanges<S>(env: Env<S>, c: Core<S>, ts: int, payload: Payload)
    ensures Call(env, c, ts, payload).Effect? ==> Call(env, c, ts, payload).core.exchanges == c.exchanges
  {
    hide Commands;
  }

  lemma {:induction false} MarketWork<S>(env: Env<S>, c: Core<S>, s: int, id: int)
    requires id in ExchangeAt(c, s).orders
    ensures
      var eff := MarketAck(env, c, s, id);
      eff.Effect? && eff.core.exchanges
          == c.exchanges[s := RunOps(env.cfg.model, ExchangeAt(c, s), MarketOps(c, s, id)).0]
  {
    var ex := ExchangeAt(c, s);
    var fallback := if s in c.truth then Some(c.truth[s].price) else None;
    MarketEffect(env, c, s, id);
    OneOp(env.cfg.model, ex, OpFillMarket(id, fallback));
    TwoOps(env.cfg.model, ex, OpFillMarket(id, fallback), OpForceCancel(id));
    hide MarketAck, FillMarket, ForceCancel, ExchangeAt, RunOps;
  }

  lemma {:induction false} OrderWork<S>(env: Env<S>, c: Core<S>, kind: EventKind)
    requires kind.EvOrder? || kind.EvAck? || kind.EvCancel? || kind.EvCancelAck?
    ensures
      var eff := Handle(env, c, kind);
      eff.Effect? && WorkDone(env.cfg.model, c.exchanges, WorkOf(c, kind), eff.core.exchanges)
  {
    hide MarketAck, FillMarket, ForceCancel, AckNew, AckCancel, Cancel, Submit, ExchangeAt, RunOps, MarketOps, Delay;
    var w := WorkOf(c, kind);
    if w.Work? {
      if kind.EvAck? && kind.id in w.start.orders && w.start.orders[kind.id].order.orderType == Market {
        MarketWork(env, c, w.symbol, kind.id);
      } else {
        OneOp(env.cfg.model, w.start, w.ops[0]);
      }
    }
  }

  lemma {:induction false} MarketDataWork<S>(env: Env<S>, c: Core<S>, kind: EventKind)
    requires kind.EvTick? || kind.EvL2? || kind.EvL3?
    ensures
      var eff := Handle(env, c, kind);
      eff.Effect? ==> WorkDone(env.cfg.model, c.exchanges, WorkOf(c, kind), eff.core.exchanges)
  {
    hide OnTrade, UpdateL2, UpdateL3, RunOps, Record, JobsOf, ReportPushes;
    OneOp(env.cfg.model, WorkOf(c, kind).start, WorkOf(c, kind).ops[0]);
  }

  lemma {:induction false} NewsWork<S>(env: Env<S>, c: Core<S>, kind: EventKind)
    requires kind.EvDelivery? || kind.EvReport? || kind.EvFunding? || kind.EvTimer?
    ensures
      var eff := Handle(env, c, kind);
      eff.Effect? ==> WorkDone(env.cfg.model, c.exchanges, WorkOf(c, kind), eff.core.exchanges)
  {
    hide Call, Remove, ExchangeAt, RunOps, Fund, FundingMark;
    if kind.EvDelivery? {
      IssueExchanges(env, c.(market := c.market[kind.tick.symbolId := kind.tick]), kind.tick.tsLocal,
                     OnTick(kind.tick));
    } else if kind.EvReport? {
      if WorkOf(c, kind).Work? {
        OneOp(env.cfg.model, WorkOf(c, kind).start, OpRemove(kind.report.orderId));
      }
      IssueExchanges(env, Retire(c, kind.report), c.now, OnReport(kind.report));
    } else if kind.EvFunding? {
      var mark := FundingMark(c, kind.funding.symbolId);
      IssueExchanges(env, if mark.Some? then c.(ledger := Fund(c.ledger, kind.funding, mark.value)) else c, c.now,
                     OnFunding(kind.funding));
    }
  }

  lemma {:induction false} HandleWork<S>(env: Env<S>, c: Core<S>, kind: EventKind)
    ensures
      var eff := Handle(env, c, kind);
      eff.Effect? ==> WorkDone(env.cfg.model, c.exchanges, WorkOf(c, kind), eff.core.exchanges)
  {
    hide Handle, WorkDone, WorkOf;
    if kind.EvTick? || kind.EvL2? || kind.EvL3? {
      MarketDataWork(env, c, kind);
    } else if kind.EvOrder? || kind.EvAck? || kind.EvCancel? || kind.EvCancelAck? {
      OrderWork(env, c, kind);
    } else {
      NewsWork(env, c, kind);
    }
  }

  // ---- Only allowed operations ----------------------------------------------------------------------

  lemma {:induction false} AckIsAllowed<S>(m: QueueModel, c: Core<S>, s: int, id: int)
    requires id in ExchangeAt(c, s).orders && ExchangeAt(c, s).orders[id].state == PendingNew
    requires GoodExchange(ExchangeAt(c, s))
    ensures AllowedRun(m, ExchangeAt(c, s), MarketOps(c, s, id)) && AllowedRun(m, ExchangeAt(c, s), [OpAckNew(id)])
  {
    var ex := ExchangeAt(c, s);
    var fallback := if s in c.truth then Some(c.truth[s].price) else None;
    MarketOutcome(ex, id, fallback);
    OneOp(m, ex, OpAckNew(id));
    OneOp(m, ex, OpFillMarket(id, fallback));
    TwoOps(m, ex, OpFillMarket(id, fallback), OpForceCancel(id));
    hide ExchangeAt, GoodExchange, FillMarket, AllowedRun;
  }

  lemma {:induction false} WorkIsAllowed<S>(m: QueueModel, c: Core<S>, e: Event, q: Queue)
    requires LifeAt(c, [e] + q) && LevelOk(e.kind)
    ensures
      var w := WorkOf(c, e.kind);
      w.Work? ==>
        && GoodExchange(w.start) && w.start.orders == OrdersAt(c.exchanges, w.symbol)
        && AllowedRun(m, w.start, w.ops)
  {
    var w := WorkOf(c, e.kind);
    if w.Work? {
      var c1 := if e.kind.EvL3? then c.(l3Symbols := c.l3Symbols + {w.symbol}) else c;
      ExchangeFacts(c1, w.symbol);
      assert w.start == ExchangeAt(c1, w.symbol);
      if e.kind.EvOrder? {
        ArrivingOrder(c.exchanges, DeskOf(c), e, q);
      }
      if e.kind.EvAck? {
        AckFindsOrder(c.exchanges, DeskOf(c), e, q);
        AckIsAllowed(m, c, w.symbol, e.kind.id);
      }
      hide LifeOk, GoodExchange, ExchangeAt, AllowedRun, MarketOps;
      if |w.ops| == 1 && !e.kind.EvAck? {
        OneOp(m, w.start, w.ops[0]);
        assert w.ops == [w.ops[0]];
      }
    }
  }

  // ---- One order ---------------------------------------------------------------------------------------

  // What an event may do to a live order. The edge that the table omits is taken by trades alone; a
  // market order that fills in part is cancelled in the same event.
  predicate Progress(o: LiveOrder, o': LiveOrder, kind: EventKind) {
    && o'.order == o.order && o.filled <= o'.filled
    && (LegalChange(o.state, o'.state, kind.EvTick?) || (kind.EvAck? && o.state == PendingNew && o'.state == Cancelled))
    && (IsTerminal(o.state) ==> o'.state == o.state && o'.filled == o.filled)
  }

  lemma {:induction false} MarketKeepsKeys(m: QueueModel, ex: Exchange, op: ExOp)
    requires op.OpFillMarket?
    ensures Apply(m, ex, op).0.orders.Keys == ex.orders.Keys
    ensures forall id :: id in ex.orders && id != op.id ==> Apply(m, ex, op).0.orders[id] == ex.orders[id]
  {
    hide MarketQuote;
  }

  lemma {:induction false} OpsProgress(m: QueueModel, ex: Exchange, ops: seq<ExOp>, kind: EventKind, id: int)
    requires GoodExchange(ex) && AllowedRun(m, ex, ops) && id in ex.orders && id in RunOps(m, ex, ops).0.orders
    requires 1 <= |ops| <= 2 && (forall i :: 0 <= i < |ops| && ops[i].OpTrade? ==> kind.EvTick?)
    requires |ops| == 2 ==> kind.EvAck? && ops[0].OpFillMarket? && ops[1] == OpForceCancel(ops[0].id)
    ensures Progress(ex.orders[id], RunOps(m, ex, ops).0.orders[id], kind)
  {
    var ex1 := Apply(m, ex, ops[0]).0;
    if |ops| == 1 {
      OneOp(m, ex, ops[0]);
      assert ops == [ops[0]];
      assert Allowed(ex, ops[0]);
      hide Apply, Allowed, RunOps, GoodExchange;
      StepTransitions(m, ex, ops[0], id);
    } else {
      assert ops == [ops[0], ops[1]];
      TwoOps(m, ex, ops[0], ops[1]);
      assert Allowed(ex, ops[0]) && Allowed(ex1, ops[1]);
      MarketKeepsKeys(m, ex, ops[0]);
      StepKeepsGood(m, ex, ops[0]);
      hide RunOps, GoodExchange;
      StepTransitions(m, ex, ops[0], id);
      StepTransitions(m, ex1, ops[1], id);
      hide FillMarket;
    }
  }

  lemma {:induction false} WorkShape<S>(c: Core<S>, kind: EventKind)
    ensures
      var w := WorkOf(c, kind);
      w.Work? ==>
        && 1 <= |w.ops| <= 2 && (forall i :: 0 <= i < |w.ops| && w.ops[i].OpTrade? ==> kind.EvTick?)
        && (|w.ops| == 2 ==> kind.EvAck? && w.ops[0].OpFillMarket? && w.ops[1] == OpForceCancel(w.ops[0].id))
  {
    hide ExchangeAt, FillMarket;
  }

  lemma {:induction false} HandleProgress<S>(env: Env<S>, c: Core<S>, e: Event, q: Queue, s: int, id: int)
    requires LifeAt(c, [e] + q) && LevelOk(e.kind) && Handle(env, c, e.kind).Effect?
    requires LiveIn(c.exchanges, s, id).Some? && LiveIn(Handle(env, c, e.kind).core.exchanges, s, id).Some?
    ensures
      Progress(LiveIn(c.exchanges, s, id).value, LiveIn(Handle(env, c, e.kind).core.exchanges, s, id).value, e.kind)
  {
    HandleWork(env, c, e.kind);
    WorkIsAllowed(env.cfg.model, c, e, q);
    var w := WorkOf(c, e.kind);
    WorkShape(c, e.kind);
    hide Handle, WorkOf, LifeOk, GoodExchange, AllowedRun, RunOps;
    if w.Work? && w.symbol == s {
      OpsProgress(env.cfg.model, w.start, w.ops, e.kind, id);
    }
  }

  // ---- Order ids are never used again -------------------------------------------------------------------

  ghost predicate NewIds(ps: seq<Push>, from: int) {
    forall p :: p in ps && p.kind.EvOrder? ==> p.kind.order.orderId >= from
  }

  // The order has been given its id and is no longer on its way.
  ghost predicate Landed<S>(e: Engine<S>, id: int) {
    id < e.core.nextOrderId && forall x :: x in e.feed.queue && x.kind.EvOrder? ==> x.kind.order.orderId != id
  }

  lemma {:induction false} CommandsIds(cfg: Config, l: Ledger, d: Desk, cmds: seq<Command>, ts: int)
    ensures
      var (d', ps) := Commands(cfg, l, d, cmds, ts);
      d'.nextOrderId >= d.nextOrderId && NewIds(ps, d.nextOrderId)
    decreases cmds
  {
    if cmds != [] {
      CommandsIds(cfg, l, OneCommand(cfg, l, d, cmds[0], ts).0, cmds[1..], ts);
    }
  }

  ghost predicate KeepsIds<S>(c: Core<S>, eff: Effect<S>) {
    eff.Effect? ==> eff.core.nextOrderId >= c.nextOrderId && NewIds(eff.pushes, c.nextOrderId)
  }

  lemma {:induction false} CallIds<S>(env: Env<S>, c: Core<S>, ts: int, payload: Payload)
    ensures KeepsIds(c, Call(env, c, ts, payload))
  {
    hide Commands, NewIds;
    match env.strategy(c.strategy, Callback(ts, c.market, payload)) {
      case Reply(s, cmds) => CommandsIds(env.cfg, c.ledger, Desk(c.routes, c.nextOrderId), cmds, ts);
      case _ =>
    }
  }

  lemma {:induction false} FlushIds<S>(env: Env<S>, c: Core<S>, ts: int)
    ensures KeepsIds(c, Flush(env, c, ts))
    ensures Flush(env, c, ts).Effect? ==> Flush(env, c, ts).core.exchanges == c.exchanges
  {
    hide Commands, HandOver;
    match HandOver(env, c.strategy, c.market, c.batch, ts) {
      case Handover(s, cmds, calls) => CommandsIds(env.cfg, c.ledger, Desk(c.routes, c.nextOrderId), cmds, ts);
      case Refused =>
    }
  }

  lemma {:induction false} MarketAckIds<S>(env: Env<S>, c: Core<S>, s: int, id: int)
    requires id in ExchangeAt(c, s).orders
    ensures KeepsIds(c, MarketAck(env, c, s, id))
  {
    hide Record, JobOf, FillMarket, ForceCancel, ExchangeAt;
  }

  lemma {:induction false} HandleIds<S>(env: Env<S>, c: Core<S>, kind: EventKind)
    ensures KeepsIds(c, Handle(env, c, kind))
  {
    hide Call, OnTrade, Record, JobsOf, UpdateL3, Submit, FillMarket, ForceCancel, AckNew, Cancel, AckCancel,
      ExchangeAt, Remove, Fund, FundingMark, ComputeFee, UpdateL2, MarketAck, JobOf, Delay;
    if kind.EvDelivery? {
      CallIds(env, c.(market := c.market[kind.tick.symbolId := kind.tick]), kind.tick.tsLocal, OnTick(kind.tick));
    } else if kind.EvReport? {
      CallIds(env, Retire(c, kind.report), c.now, OnReport(kind.report));
    } else if kind.EvFunding? {
      var mark := FundingMark(c, kind.funding.symbolId);
      CallIds(env, if mark.Some? then c.(ledger := Fund(c.ledger, kind.funding, mark.value)) else c, c.now,
              OnFunding(kind.funding));
    } else if kind.EvAck? && kind.id in c.routes && kind.id in ExchangeAt(c, c.routes[kind.id]).orders {
      MarketAckIds(env, c, c.routes[kind.id], kind.id);
    }
  }

  lemma {:induction false} PushesLand(q: Queue, next: int, ps: seq<Push>, from: int, id: int)
    requires NewIds(ps, from) && id < from
    requires forall x :: x in q && x.kind.EvOrder? ==> x.kind.order.orderId != id
    ensures forall x :: x in PushAll(q, next, ps) && x.kind.EvOrder? ==> x.kind.order.orderId != id
  {
    PushAllEach(q, next, ps, (ts: int, k: EventKind) => k.EvOrder? ==> k.order.orderId != id);
  }

  lemma {:induction false} FinishLands<S>(env: Env<S>, c: Core<S>, eff: Effect<S>, f: Feed, event: Event, id: int)
    requires eff.Effect? && KeepsIds(c, eff) && Landed(Engine(c, f), id)
    ensures
      var o := Finish(env, eff, f, event);
      o.Stepped? ==> Landed(o.engine, id) && o.engine.core.exchanges == eff.core.exchanges
  {
    var f1 := Schedule(f, eff.pushes);
    PushesLand(f.queue, f.nextSeq, eff.pushes, c.nextOrderId, id);
    FlushIds(env, eff.core, eff.core.now);
    var fl := Flush(env, eff.core, eff.core.now);
    if fl.Effect? {
      PushesLand(f1.queue, f1.nextSeq, fl.pushes, eff.core.nextOrderId, id);
    }
    hide Flush, PushAll;
  }

  lemma {:induction false} IngestLands<S>(latency: int, e: Engine<S>, id: int)
    requires Landed(e, id)
    ensures Landed(Engine(e.core, Ingest(latency, e.feed)), id)
  {
    IngestKeepsOrders(latency, e.feed);
    hide Ingest;
  }

  lemma {:induction false} DrainProgress<S>(env: Env<S>, c: Core<S>, f: Feed, id: int)
    requires Landed(Engine(c, f), id)
    ensures
      var o := Drain(env, c, f);
      o.Flushed? ==> Landed(o.engine, id) && o.engine.core.exchanges == c.exchanges
  {
    FlushIds(env, c, c.now);
    var fl := Flush(env, c, c.now);
    if fl.Effect? {
      PushesLand(f.queue, f.nextSeq, fl.pushes, c.nextOrderId, id);
    }
    hide Flush, PushAll;
  }

  lemma {:induction false} WorkSubmits<S>(c: Core<S>, kind: EventKind)
    ensures
      var w := WorkOf(c, kind);
      w.Work? ==> forall i :: 0 <= i < |w.ops| && w.ops[i].OpSubmit? ==> kind.EvOrder? && w.ops[i].order == kind.order
  {
    hide ExchangeAt, FillMarket;
  }

  lemma {:induction false} OpAddsNothing(m: QueueModel, ex: Exchange, op: ExOp, id: int)
    requires GoodExchange(ex) && id in Apply(m, ex, op).0.orders && (op.OpSubmit? ==> op.order.orderId != id)
    ensures id in ex.orders
  {
    if op.OpTrade? {
      TradePointwise(ex, op.trade);
    }
    hide OnTrade, GoodExchange, MarketQuote, Register, OnL3, DepthOf;
  }

  lemma {:induction false} OpsAddNothing(m: QueueModel, ex: Exchange, ops: seq<ExOp>, id: int)
    requires GoodExchange(ex) && id in RunOps(m, ex, ops).0.orders
    requires 1 <= |ops| <= 2 && forall i :: 0 <= i < |ops| && ops[i].OpSubmit? ==> ops[i].order.orderId != id
    requires |ops| == 2 ==> ops[0].OpFillMarket? && ops[1] == OpForceCancel(ops[0].id)
    ensures id in ex.orders
  {
    var ex1 := Apply(m, ex, ops[0]).0;
    if |ops| == 1 {
      OneOp(m, ex, ops[0]);
      assert ops == [ops[0]];
      hide RunOps;
      OpAddsNothing(m, ex, ops[0], id);
    } else {
      assert ops == [ops[0], ops[1]];
      TwoOps(m, ex, ops[0], ops[1]);
      MarketKeepsKeys(m, ex, ops[0]);
      hide RunOps;
    }
  }

  // Only an arriving order comes to life.
  lemma {:induction false} NothingAppears<S>(env: Env<S>, c: Core<S>, e: Event, q: Queue, s: int, id: int)
    requires LifeAt(c, [e] + q) && LevelOk(e.kind) && Handle(env, c, e.kind).Effect?
    requires e.kind.EvOrder? ==> e.kind.order.orderId != id
    requires LiveIn(Handle(env, c, e.kind).core.exchanges, s, id).Some?
    ensures LiveIn(c.exchanges, s, id).Some?
  {
    HandleWork(env, c, e.kind);
    WorkIsAllowed(env.cfg.model, c, e, q);
    WorkShape(c, e.kind);
    var w := WorkOf(c, e.kind);
    WorkSubmits(c, e.kind);
    hide Handle, WorkOf, LifeOk, GoodExchange, AllowedRun, RunOps;
    if w.Work? && w.symbol == s {
      OpsAddNothing(env.cfg.model, w.start, w.ops, id);
    }
  }

  lemma {:induction false} ProcessProgress<S>(env: Env<S>, c0: Core<S>, f: Feed, event: Event, s: int, id: int)
    requires LifeAt(c0.(now := event.ts), [event] + f.queue) && LevelOk(event.kind)
    requires id < c0.nextOrderId && forall x :: x in [event] + f.queue && x.kind.EvOrder? ==> x.kind.order.orderId != id
    ensures
      var o := Process(env, c0, f, event);
      && !o.Flushed?
      && (o.Stepped? ==>
            && o.event == event && Landed(o.engine, id)
            && var (before, after) := (LiveIn(c0.exchanges, s, id), LiveIn(o.engine.core.exchanges, s, id));
               after.Some? ==> before.Some? && Progress(before.value, after.value, event.kind))
  {
    var c := c0.(now := event.ts);
    ProcessSteps(env, c0, f, event);
    HandleIds(env, c, event.kind);
    assert event in [event] + f.queue;
    forall x | x in f.queue ensures x in [event] + f.queue {}
    var eff := Handle(env, c, event.kind);
    hide Handle, Finish, LifeAt, Progress, KeepsIds, LiveIn;
    if eff.Effect? {
      FinishLands(env, c, eff, f, event, id);
      if LiveIn(eff.core.exchanges, s, id).Some? {
        NothingAppears(env, c, event, f.queue, s, id);
        HandleProgress(env, c, event, f.queue, s, id);
      }
    }
  }

  // One iteration: an order that has landed stays so, and if it is live afterwards it was live before
  // and has made legal progress.
  lemma {:induction false} StepProgress<S(!new)>(env: Env<S>, history: seq<OrderReport>, e: Engine<S>, s: int, id: int)
    requires GoodConfig(env.cfg) && Sound(env.cfg, history, e) && Landed(e, id)
    ensures
      var o := Advance(env, e);
      o.Stepped? ==>
        && Landed(o.engine, id)
        && var (before, after) := (LiveIn(e.core.exchanges, s, id), LiveIn(o.engine.core.exchanges, s, id));
           after.Some? ==> before.Some? && Progress(before.value, after.value, o.event.kind)
    ensures Advance(env, e).Flushed? ==>
              Landed(Advance(env, e).engine, id) && Advance(env, e).engine.core.exchanges == e.core.exchanges
  {
    IngestLands(env.cfg.feedLatency, e, id);
    hide Process, Ingest, Sound, Flush;
    if PopFeed(env.cfg.feedLatency, e.feed).Some? {
      var (event, f) := PopFeed(env.cfg.feedLatency, e.feed).value;
      PopSound(env, history, e);
      assert [event] + f.queue == Ingest(env.cfg.feedLatency, e.feed).queue;
      hide PopFeed, Room, StreamsAt, MoneyOk, PositionAt, Progress, LiveIn, LifeAt, LevelsOk;
      ProcessProgress(env, e.core, f, event, s, id);
    } else {
      DrainProgress(env, e.core, Ingest(env.cfg.feedLatency, e.feed), id);
    }
  }

  // ---- Runs -----------------------------------------------------------------------------------------------

  lemma {:induction false} ArrivingMembers(q: Queue, id: int)
    requires !Arriving(q, id)
    ensures forall x :: x in q && x.kind.EvOrder? ==> x.kind.order.orderId != id
  {
    if q != [] {
      var os, rest := OrdersIn(q), OrdersIn(q[1..]);
      if q[0].kind.EvOrder? {
        assert os == [q[0].kind.order] + rest;
        assert os[0].orderId != id;
        forall i | 0 <= i < |rest| ensures rest[i].orderId != id {
          assert os[i + 1] == rest[i];
        }
      } else {
        Assoc(rest, [], []);
      }
      ArrivingMembers(q[1..], id);
      assert q == [q[0]] + q[1..];
    }
  }

  lemma {:induction false} LiveHasLanded<S>(cfg: Config, history: seq<OrderReport>, e: Engine<S>, s: int, id: int)
    requires Sound(cfg, history, e) && LiveIn(e.core.exchanges, s, id).Some?
    ensures Landed(e, id)
  {
    var d := DeskOf(e.core);
    hide ClockOk, Fifo, LevelsOk, StreamsAt, MoneyOk, PositionAt, GoodExchange, Arrivals;
    assert OwnOrders(e.core.exchanges[s].orders, d, s);
    assert TrailOk(TrailOf(e.core.exchanges, d, e.feed.queue, id));
    ArrivingMembers(e.feed.queue, id);
  }

  lemma {:induction false} LandedRuns<S(!new)>(env: Env<S>, e: Engine<S>, m: nat, n: nat, id: int)
    requires m <= n && Reaches(env, e, n) && After(env, e, m).Some? && Landed(After(env, e, m).value, id)
    ensures Landed(After(env, e, n).value, id)
    decreases n
  {
    hide Advance, Sound, GoodStrategy, Landed, ReportsDelivered;
    if m < n {
      LandedRuns(env, e, m, n - 1, id);
      RunKeepsSound(env, e, n - 1);
      StepProgress(env, ReportsDelivered(env, e, n - 1), After(env, e, n - 1).value, 0, id);
    }
  }

  lemma {:induction false} SameExchanges(xs: Venues, xs': Venues, s: int, id: int)
    ensures xs == xs' ==> LiveIn(xs, s, id) == LiveIn(xs', s, id)
  {
  }

  // Between any two moments at which an order is live, its terms are the same, its filled quantity
  // has not decreased, and if it had finished it is as it was.
  lemma {:induction false} OrdersOnlyProgress<S(!new)>(env: Env<S>, e: Engine<S>, m: nat, n: nat, s: int, id: int)
    requires m <= n && Reaches(env, e, n) && After(env, e, m).Some?
    requires LiveIn(After(env, e, m).value.core.exchanges, s, id).Some?
    requires LiveIn(After(env, e, n).value.core.exchanges, s, id).Some?
    ensures
      var o := LiveIn(After(env, e, m).value.core.exchanges, s, id).value;
      var o' := LiveIn(After(env, e, n).value.core.exchanges, s, id).value;
      && o'.order == o.order && o.filled <= o'.filled
      && (IsTerminal(o.state) ==> o'.state == o.state && o'.filled == o.filled)
    decreases n
  {
    hide Advance, Sound, GoodStrategy, Landed, ReportsDelivered, LiveIn;
    if m < n {
      var last := After(env, e, n - 1).value;
      RunKeepsSound(env, e, m);
      LiveHasLanded(env.cfg, ReportsDelivered(env, e, m), After(env, e, m).value, s, id);
      LandedRuns(env, e, m, n - 1, id);
      RunKeepsSound(env, e, n - 1);
      StepProgress(env, ReportsDelivered(env, e, n - 1), last, s, id);
      SameExchanges(last.core.exchanges, After(env, e, n).value.core.exchanges, s, id);
      OrdersOnlyProgress(env, e, m, n - 1, s, id);
    }
  }
}
