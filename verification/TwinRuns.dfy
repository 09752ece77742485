// The choice between the two volume-based queue models is invisible: a whole run under one and the
// same run under the other show the strategy the same things and book the same money.
module TwinRuns {
  import opened Types
  import opened RiskGuards
  import opened Ledgers
  import opened QueueModels
  import opened Exchanges
  import opened ExchangeProps
  import opened EventQueues
  import opened Feeds
  import opened EngineSpec
  import opened EngineClock
  import opened Lifecycle
  import opened LifecycleSteps
  import opened LifecycleRun
  import opened ReportStreams
  import opened EngineMoney
  import opened PositionBound
  import opened EngineInvariant
  import opened Batching

  // The same environment but for the queue model.
  ghost predicate Pair<S>(c: Env<S>, v: Env<S>) {
    c.cfg.model == Conservative && v == c.(cfg := c.cfg.(model := VolumeClock))
  }

  ghost predicate TwinVenues(xs: Venues, ys: Venues) {
    xs.Keys == ys.Keys && forall s :: s in xs ==> Twins(xs[s], ys[s])
  }

  // Equal but for the queue states of the live orders.
  ghost predicate TwinCores<S>(a: Core<S>, b: Core<S>) {
    b == a.(exchanges := b.exchanges) && TwinVenues(a.exchanges, b.exchanges)
  }

  ghost predicate TwinEffects<S>(x: Effect<S>, y: Effect<S>) {
    && x.Fault? == y.Fault?
    && (x.Effect? ==>
          && TwinCores(x.core, y.core) && x.pushes == y.pushes && x.calls == y.calls
          && x.wake == y.wake && x.early == y.early)
  }

  lemma {:induction false} SetTwins(xs: Venues, ys: Venues, s: int, x: Exchange, y: Exchange)
    requires TwinVenues(xs, ys) && Twins(x, y)
    ensures TwinVenues(xs[s := x], ys[s := y])
  {
    hide Twins;
  }

  lemma {:induction false} AtTwins<S>(a: Core<S>, b: Core<S>, s: int)
    requires TwinCores(a, b)
    ensures Twins(ExchangeAt(a, s), ExchangeAt(b, s))
  {
  }

  // ---- What the strategy is asked, and what it asks for ------------------------------------------------

  lemma {:induction false} CommandsTwins(c: Config, v: Config, l: Ledger, d: Desk, cmds: seq<Command>, ts: int)
    requires c.reportLatency == v.reportLatency
    ensures Commands(c, l, d, cmds, ts) == Commands(v, l, d, cmds, ts)
    decreases cmds
  {
    hide CheckOrder;
    if cmds != [] {
      CommandsTwins(c, v, l, OneCommand(c, l, d, cmds[0], ts).0, cmds[1..], ts);
    }
  }

  lemma {:induction false} CallTwins<S>(c: Env<S>, v: Env<S>, a: Core<S>, b: Core<S>, ts: int, payload: Payload)
    requires Pair(c, v) && TwinCores(a, b)
    ensures TwinEffects(Call(c, a, ts, payload), Call(v, b, ts, payload))
  {
    hide Commands, TwinVenues;
    match c.strategy(a.strategy, Callback(ts, a.market, payload)) {
      case Reply(s, cmds) => CommandsTwins(c.cfg, v.cfg, a.ledger, Desk(a.routes, a.nextOrderId), cmds, ts);
      case _ =>
    }
  }

  lemma {:induction false} FlushTwins<S>(c: Env<S>, v: Env<S>, a: Core<S>, b: Core<S>, ts: int)
    requires Pair(c, v) && TwinCores(a, b)
    ensures TwinEffects(Flush(c, a, ts), Flush(v, b, ts))
  {
    assert HandOver(c, a.strategy, a.market, a.batch, ts) == HandOver(v, b.strategy, b.market, b.batch, ts);
    hide Commands, TwinVenues, HandOver;
    match HandOver(c, a.strategy, a.market, a.batch, ts) {
      case Handover(s, cmds, calls) => CommandsTwins(c.cfg, v.cfg, a.ledger, Desk(a.routes, a.nextOrderId), cmds, ts);
      case Refused =>
    }
  }

  // ---- Handlers -----------------------------------------------------------------------------------------

  // Both sides are good, and the event may be handled.
  ghost predicate TwinReady<S>(c: Env<S>, v: Env<S>, a: Core<S>, b: Core<S>, e: Event, q: Queue) {
    && Pair(c, v) && TwinCores(a, b) && LevelOk(e.kind)
    && LifeAt(a, [e] + q) && World(b.exchanges, DeskOf(b))
  }

  lemma {:induction false} JobsTwins(x: Exchange, y: Exchange, rs: seq<OrderReport>, ts: int, bps: int)
    requires Twins(x, y)
    ensures JobsOf(x, rs, ts, bps) == JobsOf(y, rs, ts, bps)
  {
    hide SamePlace, ComputeFee;
    if rs != [] {
      JobsTwins(x, y, rs[1..], ts, bps);
      if rs[0].orderId in x.orders {
        assert TwinOrders(x.orders[rs[0].orderId], y.orders[rs[0].orderId]);
      }
    }
  }

  lemma {:induction false} TickTwins<S>(c: Env<S>, v: Env<S>, a: Core<S>, b: Core<S>, e: Event, q: Queue)
    requires TwinReady(c, v, a, b, e, q) && e.kind.EvTick?
    ensures TwinEffects(Handle(c, a, e.kind), Handle(v, b, e.kind))
  {
    var tick := e.kind.tick;
    var s := tick.symbolId;
    AtTwins(a, b, s);
    ExchangeFacts(a, s);
    ExchangeFacts(b, s);
    var x, y := ExchangeAt(a, s), ExchangeAt(b, s);
    TradeTwins(x, y, tick);
    var (x', rs) := OnTrade(x, tick);
    JobsTwins(x', OnTrade(y, tick).0, rs, tick.tsExchange, c.cfg.makerBps);
    SetTwins(a.exchanges, b.exchanges, s, x', OnTrade(y, tick).0);
    hide OnTrade, JobsOf, Record, ExchangeAt, GoodExchange, LifeOk, World, TwinVenues, Twins, ReportPushes;
  }

  // One operation on both sides.
  lemma {:induction false} OpTwins<S>(c: Env<S>, v: Env<S>, a: Core<S>, b: Core<S>, s: int, op: ExOp)
    requires Pair(c, v) && TwinCores(a, b) && World(a.exchanges, DeskOf(a)) && World(b.exchanges, DeskOf(b))
    requires Allowed(ExchangeAt(a, s), op)
    ensures
      var (x, y) := (Apply(Conservative, ExchangeAt(a, s), op), Apply(VolumeClock, ExchangeAt(b, s), op));
      x.1 == y.1 && Twins(x.0, y.0) && TwinVenues(a.exchanges[s := x.0], b.exchanges[s := y.0])
  {
    AtTwins(a, b, s);
    ExchangeFacts(a, s);
    ExchangeFacts(b, s);
    hide Apply, ExchangeAt, GoodExchange, World, TwinVenues, Twins, Allowed;
    var x, y := ExchangeAt(a, s), ExchangeAt(b, s);
    StepTwins(x, y, op);
    SetTwins(a.exchanges, b.exchanges, s, Apply(Conservative, x, op).0, Apply(VolumeClock, y, op).0);
  }

  lemma {:induction false} SameUpdate(x: Exchange, y: Exchange, u: L3Update)
    ensures Twins(x, y) ==> (UpdateL3(x, u).Some? <==> UpdateL3(y, u).Some?)
  {
    hide TwinOrders;
  }

  lemma {:induction false} BookTwins<S>(c: Env<S>, v: Env<S>, a: Core<S>, b: Core<S>, e: Event, q: Queue)
    requires TwinReady(c, v, a, b, e, q) && (e.kind.EvL2? || e.kind.EvL3?)
    ensures TwinEffects(Handle(c, a, e.kind), Handle(v, b, e.kind))
  {
    if e.kind.EvL2? {
      var a1, b1 := a.(l2Symbols := a.l2Symbols + {e.kind.l2.symbolId}),
          b.(l2Symbols := b.l2Symbols + {e.kind.l2.symbolId});
      OpTwins(c, v, a1, b1, e.kind.l2.symbolId, OpL2(e.kind.l2));
    } else {
      var a1, b1 := a.(l3Symbols := a.l3Symbols + {e.kind.l3.symbolId}),
          b.(l3Symbols := b.l3Symbols + {e.kind.l3.symbolId});
      OpTwins(c, v, a1, b1, e.kind.l3.symbolId, OpL3(e.kind.l3));
      SameUpdate(ExchangeAt(a1, e.kind.l3.symbolId), ExchangeAt(b1, e.kind.l3.symbolId), e.kind.l3);
      AtTwins(a1, b1, e.kind.l3.symbolId);
    }
    hide UpdateL2, UpdateL3, ExchangeAt, LifeOk, World, TwinVenues, Twins;
  }

  lemma {:induction false} PlacedTwins<S>(c: Env<S>, v: Env<S>, a: Core<S>, b: Core<S>, e: Event, q: Queue)
    requires TwinReady(c, v, a, b, e, q) && e.kind.EvOrder?
    ensures TwinEffects(Handle(c, a, e.kind), Handle(v, b, e.kind))
  {
    ArrivingOrder(a.exchanges, DeskOf(a), e, q);
    ExchangeFacts(a, e.kind.order.symbolId);
    OpTwins(c, v, a, b, e.kind.order.symbolId, OpSubmit(e.kind.order));
    hide Submit, ExchangeAt, LifeOk, World, TwinVenues, Twins;
  }

  // An operation that may be refused is refused on both sides or on neither.
  lemma {:induction false} SameAnswer(x: Exchange, y: Exchange, op: ExOp)
    requires Apply(Conservative, x, op).1 == Apply(VolumeClock, y, op).1
    ensures op.OpAckNew? ==>
              (AckNew(x, op.id).Some? <==> AckNew(y, op.id).Some?)
              && (AckNew(x, op.id).Some? ==> AckNew(x, op.id).value.1 == AckNew(y, op.id).value.1)
    ensures op.OpAckCancel? ==>
              (AckCancel(x, op.id).Some? <==> AckCancel(y, op.id).Some?)
              && (AckCancel(x, op.id).Some? ==> AckCancel(x, op.id).value.1 == AckCancel(y, op.id).value.1)
    ensures op.OpFillMarket? ==>
              (FillMarket(x, op.id, op.fallback).Some? <==> FillMarket(y, op.id, op.fallback).Some?)
              && (FillMarket(x, op.id, op.fallback).Some? ==>
                    FillMarket(x, op.id, op.fallback).value.1 == FillMarket(y, op.id, op.fallback).value.1)
    ensures op.OpForceCancel? ==>
              (ForceCancel(x, op.id).Some? <==> ForceCancel(y, op.id).Some?)
              && (ForceCancel(x, op.id).Some? ==> ForceCancel(x, op.id).value.1 == ForceCancel(y, op.id).value.1)
  {
    hide AckNew, AckCancel, FillMarket, ForceCancel;
    assert forall r: OrderReport, r': OrderReport :: [r] == [r'] ==> [r][0] == [r'][0];
  }

  lemma {:induction false} SameCancel(x: Exchange, y: Exchange, id: int)
    requires Twins(x, y)
    ensures Cancel(x, id).Some? <==> Cancel(y, id).Some?
    ensures id in x.orders <==> id in y.orders
    ensures id in x.orders ==> x.orders[id].order == y.orders[id].order && x.orders[id].state == y.orders[id].state
  {
    hide SamePlace;
    if id in x.orders {
      assert TwinOrders(x.orders[id], y.orders[id]);
    }
  }

  lemma {:induction false} CancelTwins<S>(c: Env<S>, v: Env<S>, a: Core<S>, b: Core<S>, e: Event, q: Queue)
    requires TwinReady(c, v, a, b, e, q) && e.kind.EvCancel?
    ensures TwinEffects(Handle(c, a, e.kind), Handle(v, b, e.kind))
  {
    var id := e.kind.id;
    if id in a.routes {
      var s := a.routes[id];
      var x, y := ExchangeAt(a, s), ExchangeAt(b, s);
      AtTwins(a, b, s);
      OpTwins(c, v, a, b, s, OpCancel(id));
      SameCancel(x, y, id);
      SetTwins(a.exchanges, b.exchanges, s, x, y);
      hide Cancel, ExchangeAt, LifeOk, World, TwinVenues, Twins;
    }
  }

  lemma {:induction false} CancelAckTwins<S>(c: Env<S>, v: Env<S>, a: Core<S>, b: Core<S>, e: Event, q: Queue)
    requires TwinReady(c, v, a, b, e, q) && e.kind.EvCancelAck?
    ensures TwinEffects(Handle(c, a, e.kind), Handle(v, b, e.kind))
  {
    var id := e.kind.id;
    if id in a.routes {
      var s := a.routes[id];
      var x, y := ExchangeAt(a, s), ExchangeAt(b, s);
      AtTwins(a, b, s);
      OpTwins(c, v, a, b, s, OpAckCancel(id));
      SameAnswer(x, y, OpAckCancel(id));
      SetTwins(a.exchanges, b.exchanges, s, x, y);
      hide AckCancel, ExchangeAt, LifeOk, World, TwinVenues, Twins;
    }
  }

  // What filling a market order gives on both sides.
  lemma {:induction false} FilledTwins<S>(
    c: Env<S>, v: Env<S>, a: Core<S>, b: Core<S>, s: int, id: int, fallback: Option<int>)
    requires Pair(c, v) && TwinCores(a, b) && World(a.exchanges, DeskOf(a)) && World(b.exchanges, DeskOf(b))
    requires id in ExchangeAt(a, s).orders && id in ExchangeAt(b, s).orders
             && ExchangeAt(a, s).orders[id].state == PendingNew
    ensures
      var (x, y) := (ExchangeAt(a, s), ExchangeAt(b, s));
      && FillMarket(x, id, fallback).Some? && FillMarket(y, id, fallback).Some?
      && var ((x1, r), (y1, r')) := (FillMarket(x, id, fallback).value, FillMarket(y, id, fallback).value);
         && r' == r && x.orders[id].order == y.orders[id].order
         && TwinVenues(a.exchanges[s := x1], b.exchanges[s := y1])
         && (r.status == PartiallyFilled ==>
               && ForceCancel(x1, id).Some? && ForceCancel(y1, id).Some?
               && ForceCancel(x1, id).value.1 == ForceCancel(y1, id).value.1
               && TwinVenues(a.exchanges[s := ForceCancel(x1, id).value.0],
                             b.exchanges[s := ForceCancel(y1, id).value.0]))
  {
    var x, y := ExchangeAt(a, s), ExchangeAt(b, s);
    var op, op2 := OpFillMarket(id, fallback), OpForceCancel(id);
    AtTwins(a, b, s);
    SameCancel(x, y, id);
    OpTwins(c, v, a, b, s, op);
    SameAnswer(x, y, op);
    ExchangeFacts(a, s);
    ExchangeFacts(b, s);
    MarketOutcome(x, id, fallback);
    MarketOutcome(y, id, fallback);
    StepKeepsGood(Conservative, x, op);
    StepKeepsGood(VolumeClock, y, op);
    var x1, y1 := FillMarket(x, id, fallback).value.0, FillMarket(y, id, fallback).value.0;
    assert Apply(Conservative, x, op).0 == x1 && Apply(VolumeClock, y, op).0 == y1;
    hide FillMarket, ExchangeAt, GoodExchange, World, TwinVenues, Twins;
    if FillMarket(x, id, fallback).value.1.status == PartiallyFilled {
      StepTwins(x1, y1, op2);
      SameAnswer(x1, y1, op2);
      SetTwins(a.exchanges, b.exchanges, s, ForceCancel(x1, id).value.0, ForceCancel(y1, id).value.0);
    }
  }

  // An acknowledged market order: its exchange, the ledger and the reports that go out.
  function Acked<S>(c: Core<S>, s: int, ex: Exchange, ledger: Ledger, pushes: seq<Push>): Effect<S> {
    Effect(SetExchange(c, s, ex).(ledger := ledger), pushes, [], false, false)
  }

  lemma {:induction false} AckedForm<S>(
    env: Env<S>, c: Core<S>, s: int, id: int, fallback: Option<int>, x1: Exchange, r: OrderReport, l: Ledger)
    requires id in ExchangeAt(c, s).orders && fallback == (if s in c.truth then Some(c.truth[s].price) else None)
    requires FillMarket(ExchangeAt(c, s), id, fallback) == Some((x1, r))
    requires r.status == PartiallyFilled ==> ForceCancel(x1, id).Some?
    requires
      var order := ExchangeAt(c, s).orders[id].order;
      l == if r.lastFillQty > 0 then Record(c.ledger, [JobOf(order, r, c.now, env.cfg.takerBps, true)]) else c.ledger
    ensures
      var ts := c.now + env.cfg.reportLatency;
      MarketAck(env, c, s, id)
      == if r.status != PartiallyFilled then Acked(c, s, x1, l, [Push(ts, EvReport(r))])
         else
           var (x2, r2) := ForceCancel(x1, id).value;
           Acked(c, s, x2, l, [Push(ts, EvReport(r)), Push(ts, EvReport(r2))])
  {
    hide FillMarket, ForceCancel, Record, JobOf, ExchangeAt;
  }

  lemma {:induction false} AckedTwins<S>(
    a: Core<S>, b: Core<S>, s: int, x: Exchange, y: Exchange, ledger: Ledger, pushes: seq<Push>)
    requires TwinCores(a, b) && TwinVenues(a.exchanges[s := x], b.exchanges[s := y])
    ensures TwinEffects(Acked(a, s, x, ledger, pushes), Acked(b, s, y, ledger, pushes))
  {
    hide TwinVenues;
  }

  lemma {:induction false} MarketAckTwins<S>(c: Env<S>, v: Env<S>, a: Core<S>, b: Core<S>, s: int, id: int)
    requires Pair(c, v) && TwinCores(a, b) && World(a.exchanges, DeskOf(a)) && World(b.exchanges, DeskOf(b))
    requires id in ExchangeAt(a, s).orders && id in ExchangeAt(b, s).orders
    requires ExchangeAt(a, s).orders[id].state == PendingNew
    ensures TwinEffects(MarketAck(c, a, s, id), MarketAck(v, b, s, id))
  {
    var fallback := if s in a.truth then Some(a.truth[s].price) else None;
    FilledTwins(c, v, a, b, s, id, fallback);
    assert a.truth == b.truth && a.ledger == b.ledger && a.now == b.now && v.cfg.reportLatency == c.cfg.reportLatency;
    assert v.cfg.takerBps == c.cfg.takerBps;
    hide FillMarket, ForceCancel, Record, JobOf, ExchangeAt, World, TwinVenues, MarketAck, TwinEffects, Acked, Pair,
      TwinCores;
    var (x1, r) := FillMarket(ExchangeAt(a, s), id, fallback).value;
    var y1 := FillMarket(ExchangeAt(b, s), id, fallback).value.0;
    var order := ExchangeAt(a, s).orders[id].order;
    var l := if r.lastFillQty > 0 then Record(a.ledger, [JobOf(order, r, a.now, c.cfg.takerBps, true)]) else a.ledger;
    var ts := a.now + c.cfg.reportLatency;
    AckedForm(c, a, s, id, fallback, x1, r, l);
    AckedForm(v, b, s, id, fallback, y1, r, l);
    if r.status == PartiallyFilled {
      var (x2, r2) := ForceCancel(x1, id).value;
      AckedTwins(a, b, s, x2, ForceCancel(y1, id).value.0, l, [Push(ts, EvReport(r)), Push(ts, EvReport(r2))]);
    } else {
      AckedTwins(a, b, s, x1, y1, l, [Push(ts, EvReport(r))]);
    }
  }

  // Both sides hold the order that the acknowledgement is for, and it is pending.
  ghost predicate AckFound<S>(a: Core<S>, b: Core<S>, id: int) {
    && id in a.routes && b.routes == a.routes && World(a.exchanges, DeskOf(a)) && World(b.exchanges, DeskOf(b))
    && (var (x, y) := (ExchangeAt(a, a.routes[id]), ExchangeAt(b, a.routes[id]));
        && id in x.orders && id in y.orders && x.orders[id].order == y.orders[id].order
        && x.orders[id].state == y.orders[id].state == PendingNew)
  }

  lemma {:induction false} AckIsFound<S>(c: Env<S>, v: Env<S>, a: Core<S>, b: Core<S>, e: Event, q: Queue)
    requires TwinReady(c, v, a, b, e, q) && e.kind.EvAck?
    ensures AckFound(a, b, e.kind.id)
  {
    AckFindsOrder(a.exchanges, DeskOf(a), e, q);
    var s := a.routes[e.kind.id];
    ExchangeFacts(a, s);
    AtTwins(a, b, s);
    SameCancel(ExchangeAt(a, s), ExchangeAt(b, s), e.kind.id);
    hide ExchangeAt, Twins, TwinVenues, GoodExchange, Trails, Arrivals;
  }

  lemma {:induction false} AckForm<S>(env: Env<S>, c: Core<S>, id: int)
    requires id in c.routes && id in ExchangeAt(c, c.routes[id]).orders
    requires ExchangeAt(c, c.routes[id]).orders[id].state == PendingNew
    ensures
      var (s, ex) := (c.routes[id], ExchangeAt(c, c.routes[id]));
      Handle(env, c, EvAck(id))
      == if ex.orders[id].order.orderType == Market then MarketAck(env, c, s, id)
         else
           var (ex', r) := AckNew(ex, id).value;
           Acked(c, s, ex', c.ledger, [Push(c.now + env.cfg.reportLatency, EvReport(r))])
  {
    hide MarketAck, ExchangeAt;
  }

  lemma {:induction false} LimitAckTwins<S>(c: Env<S>, v: Env<S>, a: Core<S>, b: Core<S>, id: int)
    requires Pair(c, v) && TwinCores(a, b) && AckFound(a, b, id)
    ensures
      var (s, ts) := (a.routes[id], a.now + c.cfg.reportLatency);
      var ((x', r), (y', r')) := (AckNew(ExchangeAt(a, s), id).value, AckNew(ExchangeAt(b, s), id).value);
      && r' == r
      && TwinEffects(Acked(a, s, x', a.ledger, [Push(ts, EvReport(r))]),
                     Acked(b, s, y', a.ledger, [Push(ts, EvReport(r))]))
  {
    var s := a.routes[id];
    var x, y := ExchangeAt(a, s), ExchangeAt(b, s);
    assert AckNew(x, id).Some? && AckNew(y, id).Some?;
    var (x', r) := AckNew(x, id).value;
    assert Apply(Conservative, x, OpAckNew(id)).0 == x';
    assert Apply(VolumeClock, y, OpAckNew(id)).0 == AckNew(y, id).value.0;
    hide AckNew, ExchangeAt, World, TwinVenues, Twins, Apply, Acked, TwinEffects, TwinCores;
    OpTwins(c, v, a, b, s, OpAckNew(id));
    SameAnswer(x, y, OpAckNew(id));
    AckedTwins(a, b, s, x', AckNew(y, id).value.0, a.ledger, [Push(a.now + c.cfg.reportLatency, EvReport(r))]);
  }

  lemma {:induction false} AckTwins<S>(c: Env<S>, v: Env<S>, a: Core<S>, b: Core<S>, e: Event, q: Queue)
    requires TwinReady(c, v, a, b, e, q) && e.kind.EvAck?
    ensures TwinEffects(Handle(c, a, e.kind), Handle(v, b, e.kind))
  {
    AckIsFound(c, v, a, b, e, q);
    assert Pair(c, v) && TwinCores(a, b) && a.ledger == b.ledger && a.now == b.now;
    assert v.cfg.reportLatency == c.cfg.reportLatency;
    hide Handle, MarketAck, AckNew, ExchangeAt, World, TwinVenues, TwinReady, TwinEffects, TwinCores, Pair, Acked;
    var id := e.kind.id;
    AckForm(c, a, id);
    AckForm(v, b, id);
    if ExchangeAt(a, a.routes[id]).orders[id].order.orderType == Market {
      MarketAckTwins(c, v, a, b, a.routes[id], id);
    } else {
      LimitAckTwins(c, v, a, b, id);
    }
  }

  lemma {:induction false} RetireTwins<S>(c: Env<S>, v: Env<S>, a: Core<S>, b: Core<S>, r: OrderReport)
    requires Pair(c, v) && TwinCores(a, b) && World(a.exchanges, DeskOf(a)) && World(b.exchanges, DeskOf(b))
    ensures TwinCores(Retire(a, r), Retire(b, r))
  {
    if r.orderId in a.routes {
      OpTwins(c, v, a, b, a.routes[r.orderId], OpRemove(r.orderId));
    }
    hide Remove, ExchangeAt, World, TwinVenues, Twins;
  }

  lemma {:induction false} DeliveryTwins<S>(c: Env<S>, v: Env<S>, a: Core<S>, b: Core<S>, tick: Tick)
    requires Pair(c, v) && TwinCores(a, b)
    ensures TwinEffects(HandleDelivery(c, a, tick), HandleDelivery(v, b, tick))
  {
    hide TwinVenues, Call;
    CallTwins(c, v, a.(market := a.market[tick.symbolId := tick]), b.(market := b.market[tick.symbolId := tick]),
              tick.tsLocal, OnTick(tick));
  }

  lemma {:induction false} ReportTwins<S>(c: Env<S>, v: Env<S>, a: Core<S>, b: Core<S>, r: OrderReport)
    requires Pair(c, v) && TwinCores(a, b) && World(a.exchanges, DeskOf(a)) && World(b.exchanges, DeskOf(b))
    ensures TwinEffects(HandleReport(c, a, r), HandleReport(v, b, r))
  {
    RetireTwins(c, v, a, b, r);
    var a1, b1 := Retire(a, r), Retire(b, r);
    hide World, TwinVenues, Call, Retire;
    CallTwins(c, v, a1, b1, a1.now, OnReport(r));
  }

  lemma {:induction false} SameMark<S>(a: Core<S>, b: Core<S>, s: int)
    requires TwinCores(a, b)
    ensures FundingMark(a, s) == FundingMark(b, s)
  {
    hide TwinOrders, BookL2.BestBid, BookL2.BestAsk, BookL3.BestBid, BookL3.BestAsk;
  }

  lemma {:induction false} FundingTwins<S>(c: Env<S>, v: Env<S>, a: Core<S>, b: Core<S>, event: FundingEvent)
    requires Pair(c, v) && TwinCores(a, b)
    ensures TwinEffects(HandleFunding(c, a, event), HandleFunding(v, b, event))
  {
    SameMark(a, b, event.symbolId);
    hide TwinVenues, Call, Fund, FundingMark;
    var mark := FundingMark(a, event.symbolId);
    var l := if mark.Some? then Fund(a.ledger, event, mark.value) else a.ledger;
    CallTwins(c, v, a.(ledger := l), b.(ledger := l), a.now, OnFunding(event));
  }

  lemma {:induction false} TimerTwins<S>(c: Env<S>, v: Env<S>, a: Core<S>, b: Core<S>, id: int)
    requires Pair(c, v) && TwinCores(a, b)
    ensures TwinEffects(HandleTimer(c, a, id), HandleTimer(v, b, id))
  {
    hide TwinVenues;
  }

  lemma {:induction false} NewsTwins<S>(c: Env<S>, v: Env<S>, a: Core<S>, b: Core<S>, e: Event, q: Queue)
    requires TwinReady(c, v, a, b, e, q)
             && (e.kind.EvDelivery? || e.kind.EvReport? || e.kind.EvFunding? || e.kind.EvTimer?)
    ensures TwinEffects(Handle(c, a, e.kind), Handle(v, b, e.kind))
  {
    hide HandleDelivery, HandleReport, HandleFunding, World, TwinVenues, TwinEffects;
    if e.kind.EvDelivery? {
      DeliveryTwins(c, v, a, b, e.kind.tick);
    } else if e.kind.EvReport? {
      ReportTwins(c, v, a, b, e.kind.report);
    } else if e.kind.EvFunding? {
      FundingTwins(c, v, a, b, e.kind.funding);
    } else {
      TimerTwins(c, v, a, b, e.kind.timerId);
    }
  }

  lemma {:induction false} HandleTwins<S>(c: Env<S>, v: Env<S>, a: Core<S>, b: Core<S>, e: Event, q: Queue)
    requires TwinReady(c, v, a, b, e, q)
    ensures TwinEffects(Handle(c, a, e.kind), Handle(v, b, e.kind))
  {
    hide TwinReady, Handle, TwinEffects;
    match e.kind {
      case EvTick(_) => TickTwins(c, v, a, b, e, q);
      case EvL2(_) => BookTwins(c, v, a, b, e, q);
      case EvL3(_) => BookTwins(c, v, a, b, e, q);
      case EvOrder(_) => PlacedTwins(c, v, a, b, e, q);
      case EvAck(_) => AckTwins(c, v, a, b, e, q);
      case EvCancel(_) => CancelTwins(c, v, a, b, e, q);
      case EvCancelAck(_) => CancelAckTwins(c, v, a, b, e, q);
      case _ => NewsTwins(c, v, a, b, e, q);
    }
  }

  // ---- Runs ------------------------------------------------------------------------------------------------

  ghost predicate TwinEngines<S>(a: Engine<S>, b: Engine<S>) {
    TwinCores(a.core, b.core) && a.feed == b.feed
  }

  ghost predicate TwinOutcomes<S>(x: Outcome<S>, y: Outcome<S>) {
    match x
    case Stepped(e, event, calls) => y.Stepped? && TwinEngines(e, y.engine) && y.event == event && y.calls == calls
    case Flushed(e, calls) => y.Flushed? && TwinEngines(e, y.engine) && y.calls == calls
    case Done(e) => y.Done? && TwinEngines(e, y.engine)
    case Failed => y.Failed?
  }

  lemma {:induction false} FinishTwins<S>(c: Env<S>, v: Env<S>, x: Effect<S>, y: Effect<S>, f: Feed, event: Event)
    requires Pair(c, v) && x.Effect? && TwinEffects(x, y)
    ensures TwinOutcomes(Finish(c, x, f, event), Finish(v, y, f, event))
  {
    FlushTwins(c, v, x.core, y.core, x.core.now);
    hide Flush, Schedule, TwinVenues;
  }

  lemma {:induction false} ReadyTogether<S>(
    c: Env<S>, v: Env<S>, history: seq<OrderReport>, past: seq<OrderReport>, a: Core<S>, b: Core<S>, e: Event, f: Feed)
    requires Pair(c, v) && TwinCores(a, b) && Popped(c, history, a, e, f) && Popped(v, past, b, e, f)
    ensures TwinReady(c, v, a, b, e, f.queue)
  {
    hide LevelsOk, Room, StreamsAt, MoneyOk, PositionAt, TwinVenues, Arrivals, Trails, TimedAt, World;
  }

  lemma {:induction false} StepTogether<S(!new)>(
    c: Env<S>, v: Env<S>, history: seq<OrderReport>, past: seq<OrderReport>, a: Engine<S>, b: Engine<S>)
    requires Pair(c, v) && GoodConfig(c.cfg) && TwinEngines(a, b)
    requires Sound(c.cfg, history, a) && Sound(v.cfg, past, b)
    ensures TwinOutcomes(Advance(c, a), Advance(v, b))
  {
    hide Ingest, Handle, Finish, TwinReady, Sound, TwinVenues, Popped, Flush;
    if PopFeed(c.cfg.feedLatency, a.feed).Some? {
      var (event, f) := PopFeed(c.cfg.feedLatency, a.feed).value;
      PopSound(c, history, a);
      PopSound(v, past, b);
      var a1, b1 := a.core.(now := event.ts), b.core.(now := event.ts);
      ReadyTogether(c, v, history, past, a1, b1, event, f);
      HandleTwins(c, v, a1, b1, event, f.queue);
      var x, y := Handle(c, a1, event.kind), Handle(v, b1, event.kind);
      if x.Effect? {
        FinishTwins(c, v, x, y, f, event);
      }
    } else {
      FlushTwins(c, v, a.core, b.core, a.core.now);
    }
  }

  lemma {:induction false} SelfTwins<S>(e: Engine<S>)
    requires forall s :: s in e.core.exchanges ==> e.core.exchanges[s].orders == map[]
    ensures TwinEngines(e, e)
  {
  }

  // Both runs have got this far and stand at the same point, or neither has got this far.
  ghost predicate TwinsAfter<S>(c: Env<S>, v: Env<S>, e: Engine<S>, n: nat) {
    match (After(c, e, n), After(v, e, n))
    case (Some(a), Some(b)) => TwinEngines(a, b)
    case (None, None) => true
    case _ => false
  }

  lemma {:induction false} GoodTogether<S(!new)>(c: Env<S>, v: Env<S>)
    requires Pair(c, v) && GoodStrategy(c)
    ensures GoodStrategy(v)
  {
  }

  // Two runs start together: nothing rests in any exchange, and the strategy is a good one.
  ghost predicate StartTogether<S(!new)>(c: Env<S>, v: Env<S>, e: Engine<S>) {
    && Pair(c, v) && GoodConfig(c.cfg) && GoodStrategy(c) && Sound(c.cfg, [], e) && Sound(v.cfg, [], e)
    && forall s :: s in e.core.exchanges ==> e.core.exchanges[s].orders == map[]
  }

  lemma {:induction false} NextTogether<S(!new)>(c: Env<S>, v: Env<S>, e: Engine<S>, n: nat)
    requires StartTogether(c, v, e) && TwinsAfter(c, v, e, n) && After(c, e, n).Some?
    ensures TwinOutcomes(Advance(c, After(c, e, n).value), Advance(v, After(v, e, n).value))
  {
    GoodTogether(c, v);
    assert GoodConfig(v.cfg);
    hide After, Advance, Sound, GoodStrategy, TwinEngines, TwinOutcomes, ReportsDelivered;
    RunKeepsSound(c, e, n);
    RunKeepsSound(v, e, n);
    StepTogether(c, v, ReportsDelivered(c, e, n), ReportsDelivered(v, e, n), After(c, e, n).value,
                 After(v, e, n).value);
  }

  lemma {:induction false} FirstTwins<S(!new)>(c: Env<S>, v: Env<S>, e: Engine<S>)
    requires StartTogether(c, v, e)
    ensures TwinsAfter(c, v, e, 0)
  {
    SelfTwins(e);
    hide TwinEngines, Sound, GoodStrategy, Pair;
  }

  lemma {:induction false} NextTwins<S>(c: Env<S>, v: Env<S>, e: Engine<S>, n: nat)
    requires TwinsAfter(c, v, e, n)
    requires After(c, e, n).Some? ==>
               TwinOutcomes(Advance(c, After(c, e, n).value), Advance(v, After(v, e, n).value))
    ensures TwinsAfter(c, v, e, n + 1)
  {
    hide Advance, TwinEngines;
  }

  lemma {:induction false} RunsTogether<S(!new)>(c: Env<S>, v: Env<S>, e: Engine<S>, n: nat)
    requires StartTogether(c, v, e)
    ensures TwinsAfter(c, v, e, n)
    decreases n
  {
    hide After, Advance, StartTogether, TwinsAfter, TwinOutcomes;
    if n == 0 {
      FirstTwins(c, v, e);
    } else {
      RunsTogether(c, v, e, n - 1);
      if After(c, e, n - 1).Some? {
        NextTogether(c, v, e, n - 1);
      }
      NextTwins(c, v, e, n - 1);
    }
  }

  lemma {:induction false} CallsTogether<S(!new)>(c: Env<S>, v: Env<S>, e: Engine<S>, n: nat)
    requires StartTogether(c, v, e)
    ensures AllCalls(c, e, n) == AllCalls(v, e, n)
    decreases n
  {
    hide After, Advance, StartTogether, TwinEngines;
    if n > 0 {
      CallsTogether(c, v, e, n - 1);
      RunsTogether(c, v, e, n - 1);
      if After(c, e, n - 1).Some? {
        NextTogether(c, v, e, n - 1);
      }
    }
  }

  lemma {:induction false} SameMoney<S>(a: Engine<S>, b: Engine<S>)
    requires TwinEngines(a, b)
    ensures a.core.ledger == b.core.ledger
  {
    hide TwinVenues;
  }

  // After any number of iterations the two runs stand at the same point, with the same money, the
  // same queue, and the same callbacks behind them.
  lemma {:induction false} QueueModelIsInvisible<S(!new)>(c: Env<S>, v: Env<S>, e: Engine<S>, n: nat)
    requires Pair(c, v) && GoodConfig(c.cfg) && GoodStrategy(c) && Sound(c.cfg, [], e) && Sound(v.cfg, [], e)
    requires forall s :: s in e.core.exchanges ==> e.core.exchanges[s].orders == map[]
    ensures After(c, e, n).Some? <==> After(v, e, n).Some?
    ensures After(c, e, n).Some? ==> TwinEngines(After(c, e, n).value, After(v, e, n).value)
    ensures AllCalls(c, e, n) == AllCalls(v, e, n)
    ensures After(c, e, n).Some? ==> After(c, e, n).value.core.ledger == After(v, e, n).value.core.ledger
  {
    hide After, AllCalls, Sound, GoodStrategy, TwinEngines, Pair;
    RunsTogether(c, v, e, n);
    CallsTogether(c, v, e, n);
    if After(c, e, n).Some? {
      SameMoney(After(c, e, n).value, After(v, e, n).value);
    }
  }
}
