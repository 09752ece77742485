// Report streams through every event handler.
module StreamSteps {
  import opened Types
  import opened Ledgers
  import opened QueueModels
  import opened Exchanges
  import opened ExchangeProps
  import opened EventQueues
  import opened EngineSpec
  import opened EngineClock
  import opened QueueViews
  import opened Lifecycle
  import opened LifecycleSteps
  import opened LifecycleRun
  import opened ReportStreams

  // The reports delivered once this event has been handled.
  function Delivered(history: seq<OrderReport>, e: Event): seq<OrderReport> {
    if e.kind.EvReport? then history + [e.kind.report] else history
  }

  lemma {:induction false} CallStreams<S(!new)>(
    env: Env<S>, history: seq<OrderReport>, c: Core<S>, q: Queue, next: int, payload: Payload)
    requires GoodConfig(env.cfg) && GoodStrategy(env)
    requires LifeAt(c, q) && Room(env.cfg, q, next, c.now) && StreamsAt(history, c, q)
    ensures
      var eff := Call(env, c, c.now, payload);
      eff.Effect? ==> StreamsAt(history, eff.core, PushAll(q, next, eff.pushes))
  {
    hide LifeOk, Room, Commands, PushAll, Streams;
    match env.strategy(c.strategy, Callback(c.now, c.market, payload)) {
      case Reply(s, cmds) =>
        CommandsStreams(env.cfg, c.ledger, history, c.exchanges, DeskOf(c), q, next, c.now, cmds);
      case _ =>
    }
  }

  lemma {:induction false} FlushStreams<S(!new)>(
    env: Env<S>, history: seq<OrderReport>, c: Core<S>, q: Queue, next: int)
    requires GoodConfig(env.cfg) && GoodStrategy(env)
    requires LifeAt(c, q) && Room(env.cfg, q, next, c.now) && StreamsAt(history, c, q)
    ensures
      var eff := Flush(env, c, c.now);
      eff.Effect? ==> StreamsAt(history, eff.core, PushAll(q, next, eff.pushes))
  {
    HandedCommandsGood(env, c.strategy, c.market, c.batch, c.now);
    hide LifeOk, Room, Commands, HandOver, GoodCommands, GoodStrategy, Streams;
    if c.batch.ticks != [] || c.batch.reports != [] {
      match HandOver(env, c.strategy, c.market, c.batch, c.now) {
        case Handover(s, cmds, calls) =>
          CommandsStreams(env.cfg, c.ledger, history, c.exchanges, DeskOf(c), q, next, c.now, cmds);
        case _ =>
      }
    }
  }

  // Everything a stream step starts from.
  ghost predicate Telling<S>(env: Env<S>, history: seq<OrderReport>, c: Core<S>, e: Event, q: Queue, next: int) {
    Ready(env, c, e, q, next) && StreamsAt(history, c, [e] + q)
  }

  lemma {:induction false} TickStreams<S>(
    env: Env<S>, history: seq<OrderReport>, c: Core<S>, e: Event, q: Queue, next: int)
    requires Telling(env, history, c, e, q, next) && e.kind.EvTick?
    ensures
      var eff := Handle(env, c, e.kind);
      StreamsAt(history, eff.core, PushAll(q, next, eff.pushes))
  {
    var tick := e.kind.tick;
    HandleFresh(env, c, e.kind);
    ExchangeFacts(c, tick.symbolId);
    var eff := Handle(env, c, e.kind);
    var ex := ExchangeAt(c, tick.symbolId);
    assert eff.core.exchanges == c.exchanges[tick.symbolId := OnTrade(ex, tick).0];
    assert DeskOf(eff.core) == DeskOf(c);
    assert eff.pushes == ReportPushes(tick.tsExchange + env.cfg.reportLatency, OnTrade(ex, tick).1);
    assert World(c.exchanges, DeskOf(c));
    hide Handle, ExchangeAt, LifeOk, GoodExchange, OnTrade, PushAll, Room, FreshPushes, ReportPushes, Streams, World;
    TradeStreams(env.cfg, history, c.exchanges, DeskOf(c), e, q, next, c.now, tick.symbolId, ex, tick, eff.pushes);
  }

  // A live order's account so far, and a step that reports on that order alone.
  lemma {:induction false} ReportedStreams<S>(
    env: Env<S>, history: seq<OrderReport>, c: Core<S>, e: Event, q: Queue, next: int, ex: Exchange, ps: seq<Push>,
    rs: seq<OrderReport>)
    requires Telling(env, history, c, e, q, next) && FreshPushes(env.cfg, c.now, ps)
    requires (e.kind.EvAck? || e.kind.EvCancelAck?) && e.kind.id in c.routes
    requires LiveIn(c.exchanges, c.routes[e.kind.id], e.kind.id).Some?
    requires forall other :: other != e.kind.id ==> Leaves(ps, other)
    requires OnlyChanges(OrdersAt(c.exchanges, c.routes[e.kind.id]), ex.orders, e.kind.id)
    requires ReportsPushed(ps, e.kind.id) == rs
    requires Tells(Of(history, e.kind.id) + ReportsFor(q, e.kind.id) + rs,
                   ex.orders[e.kind.id].order.qty, ex.orders[e.kind.id].filled)
    ensures Streams(history, c.exchanges[c.routes[e.kind.id] := ex], DeskOf(c), PushAll(q, next, ps))
  {
    hide PushAll, Room, FreshPushes, Streams, Tells, Of, ReportsFor, ReportsPushed, Leaves, OnlyChanges, LifeAt;
    ReportingStreams(env.cfg, history, c.exchanges, DeskOf(c), e, q, next, c.now, e.kind.id, ex, ps);
  }

  lemma {:induction false} MarketEnds(
    ex: Exchange, id: int, fallback: Option<int>, ps: seq<Push>, told: seq<OrderReport>)
    requires GoodExchange(ex) && id in ex.orders && ex.orders[id].state == PendingNew
    requires Tells(told, ex.orders[id].order.qty, ex.orders[id].filled)
    requires Announces(ps, MarketEnd(ex, id, fallback).1)
    ensures
      var (ex', rs) := MarketEnd(ex, id, fallback);
      && OnlyChanges(ex.orders, ex'.orders, id) && ReportsPushed(ps, id) == rs
      && (forall other :: other != id ==> Leaves(ps, other))
      && id in ex'.orders && Tells(told + rs, ex'.orders[id].order.qty, ex'.orders[id].filled)
  {
    MarketOutcome(ex, id, fallback);
    MarketTold(ex, id, fallback, told);
    hide FillMarket, ForceCancel, GoodExchange, Tells, ReportsPushed, Leaves;
    var (ex1, r) := FillMarket(ex, id, fallback).value;
    if r.status == PartiallyFilled {
      TwoReports(ps, r, ForceCancel(ex1, id).value.1);
    } else {
      OneReport(ps, r);
    }
  }

  lemma {:induction false} MarketAckEnds<S>(env: Env<S>, c: Core<S>, s: int, id: int)
    requires id in ExchangeAt(c, s).orders
    ensures
      var end := MarketEnd(ExchangeAt(c, s), id, if s in c.truth then Some(c.truth[s].price) else None);
      var eff := MarketAck(env, c, s, id);
      && eff.Effect? && DeskOf(eff.core) == DeskOf(c) && eff.core.exchanges == c.exchanges[s := end.0]
      && Announces(eff.pushes, end.1)
  {
    MarketEffect(env, c, s, id);
    hide MarketAck, FillMarket, ForceCancel, ExchangeAt;
  }

  lemma {:induction false} AckedInFull<S>(
    env: Env<S>, history: seq<OrderReport>, c: Core<S>, e: Event, q: Queue, next: int)
    requires Telling(env, history, c, e, q, next) && e.kind.EvAck? && e.kind.id in c.routes
    requires e.kind.id in ExchangeAt(c, c.routes[e.kind.id]).orders
    requires ExchangeAt(c, c.routes[e.kind.id]).orders[e.kind.id].order.orderType == Market
    ensures Handle(env, c, e.kind) == MarketAck(env, c, c.routes[e.kind.id], e.kind.id)
    ensures Handle(env, c, e.kind).Effect? ==> FreshPushes(env.cfg, c.now, Handle(env, c, e.kind).pushes)
  {
    HandleFresh(env, c, e.kind);
    hide ExchangeAt, MarketAck;
  }

  lemma {:induction false} MarketAckStreams<S>(
    env: Env<S>, history: seq<OrderReport>, c: Core<S>, e: Event, q: Queue, next: int)
    requires Telling(env, history, c, e, q, next) && e.kind.EvAck? && e.kind.id in c.routes
    requires
      var (id, s) := (e.kind.id, c.routes[e.kind.id]);
      var ex := ExchangeAt(c, s);
      && GoodExchange(ex) && ex.orders == OrdersAt(c.exchanges, s)
      && id in ex.orders && ex.orders[id].state == PendingNew && ex.orders[id].order.orderType == Market
      && Tells(Of(history, id) + ReportsFor(q, id), ex.orders[id].order.qty, ex.orders[id].filled)
    ensures
      var eff := Handle(env, c, e.kind);
      StreamsAt(history, eff.core, PushAll(q, next, eff.pushes))
  {
    hide Handle, MarketAck, ExchangeAt, GoodExchange, PushAll, Telling, FreshPushes, MarketEnd, OnlyChanges,
      Streams, Tells, Of, ReportsFor, ReportsPushed, Leaves, Announces;
    var (id, s) := (e.kind.id, c.routes[e.kind.id]);
    var ex := ExchangeAt(c, s);
    var eff := Handle(env, c, e.kind);
    AckedInFull(env, history, c, e, q, next);
    var fallback := if s in c.truth then Some(c.truth[s].price) else None;
    MarketAckEnds(env, c, s, id);
    MarketEnds(ex, id, fallback, eff.pushes, Of(history, id) + ReportsFor(q, id));
    var (ex', rs) := MarketEnd(ex, id, fallback);
    ReportedStreams(env, history, c, e, q, next, ex', eff.pushes, rs);
  }

  lemma {:induction false} LimitEffect<S>(env: Env<S>, c: Core<S>, id: int)
    requires id in c.routes
    requires
      var ex := ExchangeAt(c, c.routes[id]);
      id in ex.orders && ex.orders[id].state == PendingNew && ex.orders[id].order.orderType != Market
    ensures
      var eff := Handle(env, c, EvAck(id));
      var ex := ExchangeAt(c, c.routes[id]);
      && AckNew(ex, id).Some? && eff.Effect?
      && eff.core.exchanges == c.exchanges[c.routes[id] := AckNew(ex, id).value.0] && DeskOf(eff.core) == DeskOf(c)
      && |eff.pushes| == 1 && eff.pushes[0].kind == EvReport(AckNew(ex, id).value.1)
  {
    hide ExchangeAt;
  }

  lemma {:induction false} LimitAckStreams<S>(
    env: Env<S>, history: seq<OrderReport>, c: Core<S>, e: Event, q: Queue, next: int)
    requires Telling(env, history, c, e, q, next) && e.kind.EvAck? && e.kind.id in c.routes
    requires
      var (id, s) := (e.kind.id, c.routes[e.kind.id]);
      var ex := ExchangeAt(c, s);
      && GoodExchange(ex) && ex.orders == OrdersAt(c.exchanges, s)
      && id in ex.orders && ex.orders[id].state == PendingNew && ex.orders[id].order.orderType != Market
      && Tells(Of(history, id) + ReportsFor(q, id), ex.orders[id].order.qty, ex.orders[id].filled)
    ensures
      var eff := Handle(env, c, e.kind);
      StreamsAt(history, eff.core, PushAll(q, next, eff.pushes))
  {
    var (id, s) := (e.kind.id, c.routes[e.kind.id]);
    var ex := ExchangeAt(c, s);
    HandleFresh(env, c, e.kind);
    LimitEffect(env, c, id);
    var eff := Handle(env, c, e.kind);
    hide Handle, ExchangeAt, Telling;
    var (ex', r) := AckNew(ex, id).value;
    AckNewOutcome(ex, id);
    AckNewTold(ex, id, Of(history, id) + ReportsFor(q, id));
    OneReport(eff.pushes, r);
    hide Handle, ExchangeAt, GoodExchange, PushAll, Telling, FreshPushes, AckNew, OnlyChanges, Streams, Tells, Of,
      ReportsFor,
      ReportsPushed, Leaves;
    ReportedStreams(env, history, c, e, q, next, ex', eff.pushes, [r]);
  }

  lemma {:induction false} AckStreams<S>(
    env: Env<S>, history: seq<OrderReport>, c: Core<S>, e: Event, q: Queue, next: int)
    requires Telling(env, history, c, e, q, next) && e.kind.EvAck?
    ensures
      var eff := Handle(env, c, e.kind);
      StreamsAt(history, eff.core, PushAll(q, next, eff.pushes))
  {
    var id, d := e.kind.id, DeskOf(c);
    AckFindsOrder(c.exchanges, d, e, q);
    var s := c.routes[id];
    var ex := ExchangeAt(c, s);
    ExchangeFacts(c, s);
    assert StreamOk(TrailOf(c.exchanges, d, [e] + q, id), Of(history, id));
    ToldSoFar(c.exchanges, d, e, q, id, Of(history, id));
    if ex.orders[id].order.orderType == Market {
      MarketAckStreams(env, history, c, e, q, next);
    } else {
      LimitAckStreams(env, history, c, e, q, next);
    }
  }

  // A market order's exchange and reports once it is acknowledged.
  function MarketEnd(ex: Exchange, id: int, fallback: Option<int>): (Exchange, seq<OrderReport>)
    requires id in ex.orders
  {
    var (ex1, r) := FillMarket(ex, id, fallback).value;
    if r.status != PartiallyFilled then (ex1, [r])
    else
      var (ex2, r2) := ForceCancel(ex1, id).value;
      (ex2, [r, r2])
  }

  ghost predicate Announces(ps: seq<Push>, rs: seq<OrderReport>) {
    |ps| == |rs| && forall i :: 0 <= i < |rs| ==> ps[i].kind == EvReport(rs[i])
  }

  lemma {:induction false} CancelAckEffect<S>(env: Env<S>, c: Core<S>, id: int)
    ensures
      var eff := HandleCancelAck(env, c, id);
      && eff.Effect? && DeskOf(eff.core) == DeskOf(c)
      && if id !in c.routes then eff.core.exchanges == c.exchanges && eff.pushes == []
         else
           var ex := ExchangeAt(c, c.routes[id]);
           match AckCancel(ex, id)
           case None => eff.core.exchanges == c.exchanges[c.routes[id] := ex] && eff.pushes == []
           case Some((ex', r)) =>
             && eff.core.exchanges == c.exchanges[c.routes[id] := ex']
             && eff.pushes == [Push(c.now + env.cfg.reportLatency, EvReport(r))]
  {
    hide ExchangeAt, AckCancel;
  }

  lemma {:induction false} TellingParts<S>(
    env: Env<S>, history: seq<OrderReport>, c: Core<S>, e: Event, q: Queue, next: int)
    requires Telling(env, history, c, e, q, next)
    ensures LifeOk(c.exchanges, DeskOf(c), [e] + q) && Streams(history, c.exchanges, DeskOf(c), [e] + q)
  {
  }

  lemma {:induction false} CancelAckReports<S>(
    env: Env<S>, history: seq<OrderReport>, c: Core<S>, e: Event, q: Queue, next: int)
    requires Telling(env, history, c, e, q, next) && e.kind.EvCancelAck? && e.kind.id in c.routes
    requires AckCancel(ExchangeAt(c, c.routes[e.kind.id]), e.kind.id).Some?
    requires FreshPushes(env.cfg, c.now, HandleCancelAck(env, c, e.kind.id).pushes)
    ensures
      var eff := HandleCancelAck(env, c, e.kind.id);
      StreamsAt(history, eff.core, PushAll(q, next, eff.pushes))
  {
    var id, d, s := e.kind.id, DeskOf(c), c.routes[e.kind.id];
    var ex, eff := ExchangeAt(c, s), HandleCancelAck(env, c, id);
    var (ex', r) := AckCancel(ex, id).value;
    ExchangeFacts(c, s);
    CancelAckEffect(env, c, id);
    AckCancelOutcome(ex, id);
    assert StreamOk(TrailOf(c.exchanges, d, [e] + q, id), Of(history, id));
    hide HandleCancelAck, ExchangeAt, GoodExchange, PushAll, FreshPushes, AckCancel, OnlyChanges, Streams, Tells, Of,
      ReportsFor, ReportsPushed, Leaves, Telling;
    TellingParts(env, history, c, e, q, next);
    ToldSoFar(c.exchanges, d, e, q, id, Of(history, id));
    AckCancelTold(ex, id, Of(history, id) + ReportsFor(q, id));
    OneReport(eff.pushes, r);
    ReportedStreams(env, history, c, e, q, next, ex', eff.pushes, [r]);
  }

  // A step that neither reports nor changes what any order has filled.
  lemma {:induction false} SettledStreams<S>(
    env: Env<S>, history: seq<OrderReport>, c: Core<S>, e: Event, q: Queue, next: int, s: Option<int>, eff: Effect<S>)
    requires Telling(env, history, c, e, q, next) && !e.kind.EvReport?
    requires eff.Effect? && FreshPushes(env.cfg, c.now, eff.pushes) && DeskOf(eff.core) == DeskOf(c)
    requires forall p :: p in eff.pushes ==> !p.kind.EvReport?
    requires s.None? ==> eff.core.exchanges == c.exchanges
    requires s.Some? ==>
               && s.value in eff.core.exchanges
               && eff.core.exchanges == c.exchanges[s.value := eff.core.exchanges[s.value]]
               && SameFilled(OrdersAt(c.exchanges, s.value), eff.core.exchanges[s.value].orders)
    ensures StreamsAt(history, eff.core, PushAll(q, next, eff.pushes))
  {
    hide PushAll, Room, FreshPushes, Streams, World, Arrivals, Trails;
    if s.None? {
      IdleStreams(env.cfg, history, c.exchanges, DeskOf(c), e, q, next, c.now, eff.pushes);
    } else {
      QuietStreams(env.cfg, history, c.exchanges, DeskOf(c), e, q, next, c.now, s.value, eff.core.exchanges[s.value],
                   eff.pushes);
    }
  }

  lemma {:induction false} CancelAckStreams<S>(
    env: Env<S>, history: seq<OrderReport>, c: Core<S>, e: Event, q: Queue, next: int)
    requires Telling(env, history, c, e, q, next) && e.kind.EvCancelAck?
    ensures
      var eff := Handle(env, c, e.kind);
      StreamsAt(history, eff.core, PushAll(q, next, eff.pushes))
  {
    var id := e.kind.id;
    HandleFresh(env, c, e.kind);
    assert Handle(env, c, e.kind) == HandleCancelAck(env, c, id);
    var eff := HandleCancelAck(env, c, id);
    CancelAckEffect(env, c, id);
    hide Handle, HandleCancelAck, PushAll, AckCancel, Telling;
    if id in c.routes && AckCancel(ExchangeAt(c, c.routes[id]), id).Some? {
      CancelAckReports(env, history, c, e, q, next);
    } else {
      if id in c.routes {
        TellingParts(env, history, c, e, q, next);
        ExchangeFacts(c, c.routes[id]);
      }
      hide ExchangeAt, Streams, FreshPushes, LifeOk, GoodExchange;
      SettledStreams(env, history, c, e, q, next, if id in c.routes then Some(c.routes[id]) else None, eff);
    }
  }

  // Same orders with the same fills, or new ones with none.
  ghost predicate SameFilled(a: OrderMap, b: OrderMap) {
    && (forall id :: id in a ==> id in b && b[id].order == a[id].order && b[id].filled == a[id].filled)
    && (forall id :: id in b && id !in a ==> b[id].filled == 0)
  }

  lemma {:induction false} BookEffect<S>(env: Env<S>, c: Core<S>, kind: EventKind)
    requires kind.EvL2? || kind.EvL3? || kind.EvOrder? || kind.EvCancel?
    ensures
      var eff := Handle(env, c, kind);
      var s := BookSymbol(c, kind);
      eff.Effect? ==>
        && DeskOf(eff.core) == DeskOf(c)
        && (forall p :: p in eff.pushes ==> !p.kind.EvReport?)
        && (s.None? ==> eff.core.exchanges == c.exchanges)
        && (s.Some? ==> s.value in eff.core.exchanges
                        && eff.core.exchanges == c.exchanges[s.value := eff.core.exchanges[s.value]])
  {
    hide UpdateL2, UpdateL3, Submit, Cancel, ExchangeAt, Delay;
  }

  lemma {:induction false} NotifiedFilled(ex: Exchange, u: L3Update)
    ensures UpdateL3(ex, u).Some? ==> SameFilled(ex.orders, UpdateL3(ex, u).value.orders)
  {
    hide OnL3;
  }

  lemma {:induction false} BookFilled<S>(env: Env<S>, c: Core<S>, kind: EventKind, s: int)
    requires kind.EvL2? || kind.EvL3? || kind.EvOrder? || kind.EvCancel?
    requires Handle(env, c, kind).Effect? && BookSymbol(c, kind) == Some(s) && s in Handle(env, c, kind).core.exchanges
    requires kind.EvOrder? ==> forall id :: id in OrdersAt(c.exchanges, s) ==> id < kind.order.orderId
    ensures SameFilled(OrdersAt(c.exchanges, s), Handle(env, c, kind).core.exchanges[s].orders)
  {
    if kind.EvL3? {
      NotifiedFilled(ExchangeAt(c.(l3Symbols := c.l3Symbols + {s}), s), kind.l3);
      hide UpdateL3;
    } else {
      hide Register, Delay;
    }
  }

  lemma {:induction false} BookStreams<S>(
    env: Env<S>, history: seq<OrderReport>, c: Core<S>, e: Event, q: Queue, next: int)
    requires Telling(env, history, c, e, q, next)
    requires e.kind.EvL2? || e.kind.EvL3? || e.kind.EvOrder? || e.kind.EvCancel?
    ensures
      var eff := Handle(env, c, e.kind);
      eff.Effect? ==> StreamsAt(history, eff.core, PushAll(q, next, eff.pushes))
  {
    HandleFresh(env, c, e.kind);
    var eff := Handle(env, c, e.kind);
    if eff.Effect? {
      var s := BookSymbol(c, e.kind);
      BookEffect(env, c, e.kind);
      if s.Some? && e.kind.EvOrder? {
        ArrivingOrder(c.exchanges, DeskOf(c), e, q);
      }
      if s.Some? {
        BookFilled(env, c, e.kind, s.value);
      }
      hide Handle, LifeAt, Room, FreshPushes, Streams, PushAll;
      SettledStreams(env, history, c, e, q, next, s, eff);
    }
  }

  function BookSymbol<S>(c: Core<S>, kind: EventKind): Option<int>
    requires kind.EvL2? || kind.EvL3? || kind.EvOrder? || kind.EvCancel?
  {
    match kind
    case EvL2(u) => Some(u.symbolId)
    case EvL3(u) => Some(u.symbolId)
    case EvOrder(o) => Some(o.symbolId)
    case EvCancel(id) => if id in c.routes then Some(c.routes[id]) else None
  }

  lemma {:induction false} ReportEffect<S>(env: Env<S>, c: Core<S>, r: OrderReport)
    ensures
      var eff := Handle(env, c, EvReport(r));
      var c1 := Retire(c, r);
      && c1.now == c.now
      && (env.cfg.mode == TickMode ==> eff == Call(env, c1, c1.now, OnReport(r)))
      && (env.cfg.mode == BatchMode ==>
            eff.Effect? && eff.core.exchanges == c1.exchanges && DeskOf(eff.core) == DeskOf(c1)
            && forall q, next :: PushAll(q, next, eff.pushes) == q)
  {
    hide Call, Remove;
  }

  lemma {:induction false} RetireKeepsOthers<S>(c: Core<S>, r: OrderReport, id: int)
    ensures
      var c1 := Retire(c, r);
      && c1.nextOrderId == c.nextOrderId
      && (id in c1.routes ==> id in c.routes && c1.routes[id] == c.routes[id]
                              && LiveIn(c1.exchanges, c.routes[id], id) == LiveIn(c.exchanges, c.routes[id], id))
      && (r.orderId == id ==> (id in c1.routes <==> id in c.routes && !IsTerminal(r.status)))
      && (r.orderId != id ==> (id in c1.routes <==> id in c.routes))
  {
  }

  lemma {:induction false} RetiredStreams<S>(history: seq<OrderReport>, c: Core<S>, e: Event, q: Queue)
    requires e.kind.EvReport? && LifeAt(c, [e] + q) && StreamsAt(history, c, [e] + q)
    ensures StreamsAt(history + [e.kind.report], Retire(c, e.kind.report), q)
  {
    var r := e.kind.report;
    var c1 := Retire(c, r);
    forall id ensures StreamOk(TrailOf(c1.exchanges, DeskOf(c1), q, id), Of(history + [r], id)) {
      assert TrailOk(TrailOf(c.exchanges, DeskOf(c), [e] + q, id));
      assert StreamOk(TrailOf(c.exchanges, DeskOf(c), [e] + q, id), Of(history, id));
      RetireKeepsOthers(c, r, id);
      hide LifeOk, Retire, StreamOk, TrailOk, TrailOf, Of, LiveIn;
      DeliveredStream(history, c.exchanges, DeskOf(c), e, q, c1.exchanges, DeskOf(c1), id);
    }
  }

  lemma {:induction false} NewsStreams<S(!new)>(
    env: Env<S>, history: seq<OrderReport>, c: Core<S>, e: Event, q: Queue, next: int)
    requires Telling(env, history, c, e, q, next) && e.kind.EvReport? && GoodStrategy(env)
    ensures
      var eff := Handle(env, c, e.kind);
      eff.Effect? ==> StreamsAt(Delivered(history, e), eff.core, PushAll(q, next, eff.pushes))
  {
    var r := e.kind.report;
    RetiredLife(c, e, q);
    RetiredStreams(history, c, e, q);
    var c1 := Retire(c, r);
    ReportEffect(env, c, r);
    hide LifeAt, Room, Call, Retire, GoodStrategy, Streams, Handle, PushAll;
    if env.cfg.mode == TickMode {
      CallStreams(env, history + [r], c1, q, next, OnReport(r));
    }
  }

  lemma {:induction false} SameLifeAt<S>(c: Core<S>, c1: Core<S>, q: Queue)
    requires LifeAt(c, q) && c1.exchanges == c.exchanges && DeskOf(c1) == DeskOf(c)
    ensures LifeAt(c1, q)
  {
  }

  lemma {:induction false} OtherEffect<S>(env: Env<S>, c: Core<S>, kind: EventKind)
    requires (kind.EvDelivery? || kind.EvFunding? || kind.EvTimer?) && TimedAt(c.now, kind)
    ensures
      var eff := Handle(env, c, kind);
      eff.Effect? ==>
        if Quietly(env, kind) then
          && eff.core.exchanges == c.exchanges && DeskOf(eff.core) == DeskOf(c)
          && forall p :: p in eff.pushes ==> p.kind.EvTimer?
        else
          var (c1, payload) := Asked(env, c, kind);
          var asked := Call(env, c1, c.now, payload);
          && c1.exchanges == c.exchanges && DeskOf(c1) == DeskOf(c) && c1.now == c.now
          && asked.Effect? && eff.core == asked.core && eff.pushes == asked.pushes
  {
    hide Call, Fund, FundingMark;
  }

  lemma {:induction false} OtherStreams<S(!new)>(
    env: Env<S>, history: seq<OrderReport>, c: Core<S>, e: Event, q: Queue, next: int)
    requires Telling(env, history, c, e, q, next) && GoodStrategy(env)
    requires e.kind.EvDelivery? || e.kind.EvFunding? || e.kind.EvTimer?
    ensures
      var eff := Handle(env, c, e.kind);
      eff.Effect? ==> StreamsAt(history, eff.core, PushAll(q, next, eff.pushes))
  {
    HandleFresh(env, c, e.kind);
    PopIgnored(c.exchanges, DeskOf(c), e, q);
    IdleStreams(env.cfg, history, c.exchanges, DeskOf(c), e, q, next, c.now, []);
    assert LifeAt(c, q) && StreamsAt(history, c, q);
    OtherEffect(env, c, e.kind);
    var eff := Handle(env, c, e.kind);
    hide LifeAt, Room, Call, GoodStrategy, Streams, FreshPushes, PushAll, Handle;
    if eff.Effect? {
      if Quietly(env, e.kind) {
        IdleStreams(env.cfg, history, c.exchanges, DeskOf(c), e, q, next, c.now, eff.pushes);
      } else {
        var (c1, payload) := Asked(env, c, e.kind);
        assert LifeAt(c1, q) && StreamsAt(history, c1, q) by {
          SameLifeAt(c, c1, q);
        }
        CallStreams(env, history, c1, q, next, payload);
      }
    }
  }

  // Ticks buffered for a batch and timers wake no strategy by themselves.
  predicate Quietly<S>(env: Env<S>, kind: EventKind) {
    kind.EvTimer? || (kind.EvDelivery? && env.cfg.mode == BatchMode)
  }

  // What the strategy is asked after a delivered tick or a funding payment.
  function Asked<S>(env: Env<S>, c: Core<S>, kind: EventKind): (Core<S>, Payload)
    requires kind.EvDelivery? || kind.EvFunding?
  {
    match kind
    case EvDelivery(tick) => (c.(market := c.market[tick.symbolId := tick]), OnTick(tick))
    case EvFunding(event) =>
      var mark := FundingMark(c, event.symbolId);
      (if mark.Some? then c.(ledger := Fund(c.ledger, event, mark.value)) else c, OnFunding(event))
  }

  // Whatever event is handled, every order's reports still form one consistent account.
  lemma {:induction false} HandleStreams<S(!new)>(
    env: Env<S>, history: seq<OrderReport>, c: Core<S>, e: Event, q: Queue, next: int)
    requires Telling(env, history, c, e, q, next) && GoodStrategy(env)
    ensures
      var eff := Handle(env, c, e.kind);
      eff.Effect? ==> StreamsAt(Delivered(history, e), eff.core, PushAll(q, next, eff.pushes))
  {
    hide Telling, Handle, GoodStrategy, PushAll, StreamsAt;
    match e.kind {
      case EvTick(_) => TickStreams(env, history, c, e, q, next);
      case EvAck(_) => AckStreams(env, history, c, e, q, next);
      case EvCancelAck(_) => CancelAckStreams(env, history, c, e, q, next);
      case EvReport(_) => NewsStreams(env, history, c, e, q, next);
      case EvL2(_) => BookStreams(env, history, c, e, q, next);
      case EvL3(_) => BookStreams(env, history, c, e, q, next);
      case EvOrder(_) => BookStreams(env, history, c, e, q, next);
      case EvCancel(_) => BookStreams(env, history, c, e, q, next);
      case _ => OtherStreams(env, history, c, e, q, next);
    }
  }
}
