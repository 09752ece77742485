// Ownership through every event handler.
module LifecycleSteps {
  import opened Types
  import opened QueueModels
  import opened Exchanges
  import opened ExchangeProps
  import opened EventQueues
  import opened EngineSpec
  import opened EngineClock
  import opened QueueViews
  import opened Lifecycle

  function DeskOf<S>(c: Core<S>): Desk {
    Desk(c.routes, c.nextOrderId)
  }

  ghost predicate LifeAt<S>(c: Core<S>, q: Queue) {
    LifeOk(c.exchanges, DeskOf(c), q)
  }

  lemma {:induction false} ExchangeFacts<S>(c: Core<S>, s: int)
    requires World(c.exchanges, DeskOf(c))
    ensures GoodExchange(ExchangeAt(c, s)) && OwnOrders(ExchangeAt(c, s).orders, DeskOf(c), s)
    ensures ExchangeAt(c, s).orders == OrdersAt(c.exchanges, s)
  {
    NewIsGood(s in c.l3Symbols);
    hide GoodExchange;
  }

  lemma {:induction false} WorldSet(xs: Venues, d: Desk, s: int, ex: Exchange)
    requires World(xs, d) && GoodExchange(ex) && OwnOrders(ex.orders, d, s)
    ensures World(xs[s := ex], d)
  {
    hide GoodExchange;
  }

  // What leaves every view of the queue when its head is popped.
  lemma {:induction false} PopViews(e: Event, q: Queue, id: int)
    ensures forall kind :: Tally([e] + q, kind) == Tally(q, kind) + if e.kind == kind then 1 else 0
    ensures ReportsFor([e] + q, id) == QueuedReport(e.kind, id) + ReportsFor(q, id)
    ensures OrdersIn([e] + q) == QueuedOrder(e.kind) + OrdersIn(q)
  {
    assert ([e] + q)[1..] == q;
  }

  lemma {:induction false} PopArrivals(xs: Venues, d: Desk, e: Event, q: Queue)
    requires Arrivals(xs, d, [e] + q)
    ensures Arrivals(xs, d, q)
    ensures e.kind.EvOrder? ==>
              forall i :: 0 <= i < |OrdersIn(q)| ==> e.kind.order.orderId < OrdersIn(q)[i].orderId
  {
    PopViews(e, q, 0);
    var all, tail := OrdersIn([e] + q), OrdersIn(q);
    hide OrdersIn, ArrivalsOf;
    if e.kind.EvOrder? {
      assert all[0] == e.kind.order && all[1..] == tail;
      ArrivalsTail(xs, d, all);
    } else {
      Assoc(tail, [], []);
    }
  }

  // An event that concerns no order leaves ownership untouched.
  lemma {:induction false} PopIgnored(xs: Venues, d: Desk, e: Event, q: Queue)
    requires LifeOk(xs, d, [e] + q) && forall id :: !Concerns(e.kind, id)
    ensures LifeOk(xs, d, q)
  {
    PopArrivals(xs, d, e, q);
    hide Arrivals, World;
    forall id ensures TrailOk(TrailOf(xs, d, q, id)) {
      assert TrailOk(TrailOf(xs, d, [e] + q, id));
      hide Tally, ReportsFor, Arriving, TrailOk, TrailOf;
      QuietPop(e, q, id);
      KeptTrail(xs, d, [e] + q, xs, d, q, id);
    }
  }

  ghost predicate NoOrder(ps: seq<Push>) {
    forall p :: p in ps ==> !p.kind.EvOrder?
  }

  ghost predicate Leaves(ps: seq<Push>, id: int) {
    forall p :: p in ps ==> !Concerns(p.kind, id)
  }

  lemma {:induction false} NoOrdersPushed(ps: seq<Push>)
    requires NoOrder(ps)
    ensures OrdersPushed(ps) == []
  {
    if ps != [] {
      assert ps[0] in ps;
      NoOrdersPushed(ps[1..]);
    }
  }

  // Pushes that concern no order leave ownership untouched.
  lemma {:induction false} PushIgnored(cfg: Config, xs: Venues, d: Desk, q: Queue, next: int, now: int, ps: seq<Push>)
    requires LifeOk(xs, d, q) && Room(cfg, q, next, now) && FreshPushes(cfg, now, ps)
    requires NoOrder(ps) && forall id :: Leaves(ps, id)
    ensures LifeOk(xs, d, PushAll(q, next, ps))
  {
    var q' := PushAll(q, next, ps);
    forall id ensures TrailOk(TrailOf(xs, d, q', id)) {
      assert TrailOk(TrailOf(xs, d, q, id)) && Leaves(ps, id);
      hide PushAll, Tally, ReportsFor, Arriving, TrailOk, TrailOf, Room, FreshPushes;
      QuietPush(cfg, q, next, now, ps, id);
      KeptTrail(xs, d, q, xs, d, q', id);
    }
    hide Trails, World, TrailOk;
    NoOrdersPushed(ps);
    PushAllViews(cfg, q, next, now, ps, 0);
    Assoc(OrdersIn(q), [], []);
    ArrivalsKept(xs, d, q, d, q');
  }

  // Same orders in the same states.
  ghost predicate SameStates(a: OrderMap, b: OrderMap) {
    a.Keys == b.Keys && forall id :: id in a ==> b[id].order == a[id].order && b[id].state == a[id].state
  }

  // No exchange, present or still to be created, holds an id that is yet to arrive.
  lemma {:induction false} BelowExchange(xs: Venues, d: Desk, q: Queue, s: int)
    requires Arrivals(xs, d, q)
    ensures AllBelow(OrdersAt(xs, s), OrdersIn(q))
  {
    hide OrdersIn;
  }

  lemma {:induction false} RestateExchange(xs: Venues, d: Desk, q: Queue, s: int, ex: Exchange)
    requires LifeOk(xs, d, q) && GoodExchange(ex) && SameStates(OrdersAt(xs, s), ex.orders)
    ensures LifeOk(xs[s := ex], d, q)
  {
    var xs' := xs[s := ex];
    hide GoodExchange, Arriving, Tally, ReportsFor, OrdersIn;
    assert OwnOrders(OrdersAt(xs, s), d, s);
    WorldSet(xs, d, s, ex);
    forall id ensures TrailOk(TrailOf(xs', d, q, id)) {
      assert TrailOk(TrailOf(xs, d, q, id));
    }
    hide Trails, World, TrailOk, TrailOf;
    assert AllBelow(ex.orders, OrdersIn(q)) by {
      BelowExchange(xs, d, q, s);
    }
  }

  // ---- One order changes ------------------------------------------------------------------------

  // One order of an exchange is replaced or added; every other order stays as it was.
  ghost predicate OnlyChanges(before: OrderMap, after: OrderMap, id: int) {
    && after.Keys == before.Keys + {id}
    && forall other :: other in before && other != id ==> after[other] == before[other]
  }

  lemma {:induction false} OneOrderArrivals(
    cfg: Config, xs: Venues, d: Desk, e: Event, q: Queue, next: int, now: int, id: int, ex: Exchange, ps: seq<Push>)
    requires Arrivals(xs, d, [e] + q) && Room(cfg, q, next, now) && FreshPushes(cfg, now, ps) && NoOrder(ps)
    requires id in d.routes && OnlyChanges(OrdersAt(xs, d.routes[id]), ex.orders, id)
    requires id in OrdersAt(xs, d.routes[id]) || (e.kind.EvOrder? && e.kind.order.orderId == id)
    ensures Arrivals(xs[d.routes[id] := ex], d, PushAll(q, next, ps))
  {
    var s := d.routes[id];
    PopArrivals(xs, d, e, q);
    NoOrdersPushed(ps);
    PushAllViews(cfg, q, next, now, ps, 0);
    Assoc(OrdersIn(q), [], []);
    BelowExchange(xs, d, q, s);
    hide PushAll, OrdersIn, Room, FreshPushes, NoOrder;
    forall i, other | 0 <= i < |OrdersIn(q)| && other in ex.orders ensures other < OrdersIn(q)[i].orderId {
      assert other in OrdersAt(xs, s) || other == id;
    }
    assert AllBelow(ex.orders, OrdersIn(q));
  }

  lemma {:induction false} OtherTrail(
    cfg: Config, xs: Venues, d: Desk, e: Event, q: Queue, next: int, now: int, id: int, ex: Exchange, ps: seq<Push>,
    other: int)
    requires TrailOk(TrailOf(xs, d, [e] + q, other)) && Room(cfg, q, next, now) && FreshPushes(cfg, now, ps)
    requires id in d.routes && other != id && !Concerns(e.kind, other) && Leaves(ps, other)
    requires OnlyChanges(OrdersAt(xs, d.routes[id]), ex.orders, id)
    ensures TrailOk(TrailOf(xs[d.routes[id] := ex], d, PushAll(q, next, ps), other))
  {
    var s, q' := d.routes[id], PushAll(q, next, ps);
    hide PushAll, Tally, ReportsFor, Arriving, TrailOk, TrailOf, Room, FreshPushes, Concerns;
    QuietPop(e, q, other);
    QuietPush(cfg, q, next, now, ps, other);
    KeptTrail(xs, d, [e] + q, xs[s := ex], d, q', other);
  }

  // Replacing one order in its exchange, when its own trail stays good, keeps ownership.
  lemma {:induction false} OneOrderStep(
    cfg: Config, xs: Venues, d: Desk, e: Event, q: Queue, next: int, now: int, id: int, ex: Exchange, ps: seq<Push>)
    requires LifeOk(xs, d, [e] + q) && Room(cfg, q, next, now) && FreshPushes(cfg, now, ps)
    requires id in d.routes && NoOrder(ps)
    requires forall other :: other != id ==> !Concerns(e.kind, other) && Leaves(ps, other)
    requires GoodExchange(ex) && OnlyChanges(OrdersAt(xs, d.routes[id]), ex.orders, id)
    requires ex.orders[id].order.symbolId == d.routes[id]
    requires id in OrdersAt(xs, d.routes[id]) || (e.kind.EvOrder? && e.kind.order.orderId == id)
    requires TrailOk(TrailOf(xs[d.routes[id] := ex], d, PushAll(q, next, ps), id))
    ensures LifeOk(xs[d.routes[id] := ex], d, PushAll(q, next, ps))
  {
    var s, q' := d.routes[id], PushAll(q, next, ps);
    var xs' := xs[s := ex];
    hide PushAll, GoodExchange, Room, FreshPushes, NoOrder, TrailOk, TrailOf;
    forall other ensures TrailOk(TrailOf(xs', d, q', other)) {
      if other != id {
        assert TrailOk(TrailOf(xs, d, [e] + q, other));
        OtherTrail(cfg, xs, d, e, q, next, now, id, ex, ps, other);
      }
    }
    assert OwnOrders(OrdersAt(xs, s), d, s);
    WorldSet(xs, d, s, ex);
    hide Trails, World, OnlyChanges;
    OneOrderArrivals(cfg, xs, d, e, q, next, now, id, ex, ps);
  }

  // ---- Handlers ---------------------------------------------------------------------------------

  // What ownership says about the order at the head of the queue.
  lemma {:induction false} ArrivingOrder(xs: Venues, d: Desk, e: Event, q: Queue)
    requires e.kind.EvOrder? && LifeOk(xs, d, [e] + q)
    ensures
      var o := e.kind.order;
      && o.qty > 0 && o.orderId in d.routes && d.routes[o.orderId] == o.symbolId
      && (forall id :: id in OrdersAt(xs, o.symbolId) ==> id < o.orderId)
      && (forall i :: 0 <= i < |OrdersIn(q)| ==> o.orderId < OrdersIn(q)[i].orderId)
      && Arriving([e] + q, o.orderId)
  {
    var o := e.kind.order;
    PopArrivals(xs, d, e, q);
    PopViews(e, q, 0);
    BelowExchange(xs, d, [e] + q, o.symbolId);
    hide GoodExchange, OrdersIn, Trails;
    assert OrdersIn([e] + q)[0] == o;
    assert Announced(d, OrdersIn([e] + q)[0]);
  }

  lemma {:induction false} OrderTrail(
    cfg: Config, xs: Venues, d: Desk, e: Event, q: Queue, next: int, now: int, ex: Exchange, ps: seq<Push>)
    requires e.kind.EvOrder? && LifeOk(xs, d, [e] + q) && Room(cfg, q, next, now) && FreshPushes(cfg, now, ps)
    requires |ps| == 1 && ps[0].kind == EvAck(e.kind.order.orderId)
    requires
      var o := e.kind.order;
      o.orderId in ex.orders && ex.orders[o.orderId].state == PendingNew
      && o.orderId in d.routes && d.routes[o.orderId] == o.symbolId
    ensures
      var o := e.kind.order;
      TrailOk(TrailOf(xs[o.symbolId := ex], d, PushAll(q, next, ps), o.orderId))
  {
    var id := e.kind.order.orderId;
    var q' := PushAll(q, next, ps);
    assert TrailOk(TrailOf(xs, d, [e] + q, id));
    ArrivingOrder(xs, d, e, q);
    PopViews(e, q, id);
    assert ps == [ps[0]];
    OnePushed(ps[0], id);
    hide PushAll, ReportsFor, OrdersIn, Tally, Room, FreshPushes, LifeOk, Pushed, OrdersPushed, ReportsPushed;
    PushAllViews(cfg, q, next, now, ps, id);
    TallyPushAll(q, next, ps, EvAck(id));
    Assoc(OrdersIn(q), [], []);
    Assoc(ReportsFor(q, id), [], []);
    assert !Arriving(q', id);
    var t := TrailOf(xs[e.kind.order.symbolId := ex], d, q', id);
    assert t.acks == 1 && t.pending == [] && t.routed && t.issued && t.live == Some(ex.orders[id]);
  }

  lemma {:induction false} SubmitOrders(m: QueueModel, ex: Exchange, order: Order)
    ensures
      var ex' := Submit(m, ex, order);
      && OnlyChanges(ex.orders, ex'.orders, order.orderId)
      && ex'.orders[order.orderId].state == PendingNew && ex'.orders[order.orderId].order == order
      && ex'.orders[order.orderId].filled == 0
  {
    hide Register, DepthOf;
  }

  lemma {:induction false} SubmitLife(
    cfg: Config, xs: Venues, d: Desk, e: Event, q: Queue, next: int, now: int, ex: Exchange, ps: seq<Push>)
    requires e.kind.EvOrder? && LifeOk(xs, d, [e] + q) && Room(cfg, q, next, now) && FreshPushes(cfg, now, ps)
    requires |ps| == 1 && ps[0].kind == EvAck(e.kind.order.orderId)
    requires GoodExchange(ex) && ex.orders == OrdersAt(xs, e.kind.order.symbolId)
    ensures
      var o := e.kind.order;
      LifeOk(xs[o.symbolId := Submit(cfg.model, ex, o)], d, PushAll(q, next, ps))
  {
    var o := e.kind.order;
    ArrivingOrder(xs, d, e, q);
    SubmitKeepsGood(cfg.model, ex, o);
    SubmitOrders(cfg.model, ex, o);
    hide PushAll, OrdersIn, Room, FreshPushes, Submit, GoodExchange, Arriving, LifeOk, TrailOf, TrailOk;
    OrderTrail(cfg, xs, d, e, q, next, now, Submit(cfg.model, ex, o), ps);
    OneOrderStep(cfg, xs, d, e, q, next, now, o.orderId, Submit(cfg.model, ex, o), ps);
  }

  // An order arrives: it becomes PendingNew, with exactly one acknowledgement queued.
  lemma {:induction false} OrderLife<S>(env: Env<S>, c: Core<S>, e: Event, q: Queue, next: int)
    requires e.kind.EvOrder? && GoodConfig(env.cfg)
    requires LifeAt(c, [e] + q) && Room(env.cfg, q, next, c.now)
    ensures
      var eff := Handle(env, c, e.kind);
      LifeAt(eff.core, PushAll(q, next, eff.pushes))
  {
    var order := e.kind.order;
    var d := DeskOf(c);
    HandleFresh(env, c, e.kind);
    ExchangeFacts(c, order.symbolId);
    var eff := Handle(env, c, e.kind);
    var ex := ExchangeAt(c, order.symbolId);
    assert eff.core.exchanges == c.exchanges[order.symbolId := Submit(env.cfg.model, ex, order)];
    assert DeskOf(eff.core) == d;
    assert |eff.pushes| == 1 && eff.pushes[0].kind == EvAck(order.orderId);
    hide Handle, ExchangeAt, LifeOk, GoodExchange, Submit, PushAll, Room, FreshPushes;
    SubmitLife(env.cfg, c.exchanges, d, e, q, next, c.now, ex, eff.pushes);
  }

  // ---- Acknowledgements, cancels and reports -----------------------------------------------------

  lemma {:induction false} EndsAppend(rs: seq<OrderReport>, r: OrderReport)
    requires EndsWhen(rs, false)
    ensures EndsWhen(rs + [r], IsTerminal(r.status))
  {
  }

  // The trail of a live order after an event and some pushes, from what they add and take away.
  lemma {:induction false} LiveTrail(
    cfg: Config, xs: Venues, d: Desk, e: Event, q: Queue, next: int, now: int, id: int, ex: Exchange, ps: seq<Push>)
    requires TrailOk(TrailOf(xs, d, [e] + q, id)) && Room(cfg, q, next, now) && FreshPushes(cfg, now, ps)
    requires !e.kind.EvOrder? && !e.kind.EvReport? && NoOrder(ps)
    requires id in d.routes && LiveIn(xs, d.routes[id], id).Some? && id in ex.orders
    requires Tally(q, EvAck(id)) + Pushed(ps, EvAck(id)) == if ex.orders[id].state == PendingNew then 1 else 0
    requires ex.orders[id].state == PendingCancel ==> Tally(q, EvCancelAck(id)) + Pushed(ps, EvCancelAck(id)) >= 1
    requires EndsWhen(ReportsFor(q, id) + ReportsPushed(ps, id), IsTerminal(ex.orders[id].state))
    ensures TrailOk(TrailOf(xs[d.routes[id] := ex], d, PushAll(q, next, ps), id))
  {
    var q' := PushAll(q, next, ps);
    PopViews(e, q, id);
    NoOrdersPushed(ps);
    hide PushAll, ReportsFor, OrdersIn, Tally, Room, FreshPushes, Pushed, OrdersPushed, ReportsPushed, NoOrder,
      EndsWhen;
    Assoc(OrdersIn(q), [], []);
    PushAllViews(cfg, q, next, now, ps, id);
    TallyPushAll(q, next, ps, EvAck(id));
    TallyPushAll(q, next, ps, EvCancelAck(id));
    assert Arriving(q', id) <==> Arriving([e] + q, id);
    var t := TrailOf(xs[d.routes[id] := ex], d, q', id);
    assert t.live == Some(ex.orders[id]) && t.issued && !t.arriving;
  }

  // A queued acknowledgement always finds its order alive and waiting for it.
  lemma {:induction false} AckFindsOrder(xs: Venues, d: Desk, e: Event, q: Queue)
    requires e.kind.EvAck? && LifeOk(xs, d, [e] + q)
    ensures
      var id := e.kind.id;
      && id in d.routes && LiveIn(xs, d.routes[id], id).Some?
      && LiveIn(xs, d.routes[id], id).value.state == PendingNew
      && Tally(q, EvAck(id)) == 0 && EndsWhen(ReportsFor(q, id), false)
  {
    var id := e.kind.id;
    PopViews(e, q, id);
    assert TrailOk(TrailOf(xs, d, [e] + q, id));
    hide ReportsFor, Tally, Arriving, World, Arrivals, EndsWhen;
    Assoc(ReportsFor(q, id), [], []);
  }

  // An exchange operation that changes one live order and reports on it.
  lemma {:induction false} ReportingStep(
    cfg: Config, xs: Venues, d: Desk, e: Event, q: Queue, next: int, now: int, id: int, ex: Exchange, ps: seq<Push>)
    requires LifeOk(xs, d, [e] + q) && Room(cfg, q, next, now) && FreshPushes(cfg, now, ps)
    requires (e.kind.EvAck? || e.kind.EvCancel? || e.kind.EvCancelAck?) && e.kind.id == id
    requires id in d.routes && LiveIn(xs, d.routes[id], id).Some?
    requires NoOrder(ps) && forall other :: other != id ==> Leaves(ps, other)
    requires GoodExchange(ex) && OnlyChanges(OrdersAt(xs, d.routes[id]), ex.orders, id)
    requires ex.orders[id].order == OrdersAt(xs, d.routes[id])[id].order
    requires Tally(q, EvAck(id)) + Pushed(ps, EvAck(id)) == if ex.orders[id].state == PendingNew then 1 else 0
    requires ex.orders[id].state == PendingCancel ==> Tally(q, EvCancelAck(id)) + Pushed(ps, EvCancelAck(id)) >= 1
    requires EndsWhen(ReportsFor(q, id) + ReportsPushed(ps, id), IsTerminal(ex.orders[id].state))
    ensures LifeOk(xs[d.routes[id] := ex], d, PushAll(q, next, ps))
  {
    assert TrailOk(TrailOf(xs, d, [e] + q, id));
    assert OwnOrders(OrdersAt(xs, d.routes[id]), d, d.routes[id]);
    hide PushAll, ReportsFor, Tally, Room, FreshPushes, LifeOk, Pushed, ReportsPushed, NoOrder, TrailOk, TrailOf,
      GoodExchange,
      EndsWhen, OnlyChanges, Leaves;
    LiveTrail(cfg, xs, d, e, q, next, now, id, ex, ps);
    OneOrderStep(cfg, xs, d, e, q, next, now, id, ex, ps);
  }

  lemma {:induction false} OneReport(ps: seq<Push>, r: OrderReport)
    requires |ps| == 1 && ps[0].kind == EvReport(r)
    ensures NoOrder(ps) && (forall other :: other != r.orderId ==> Leaves(ps, other))
    ensures ReportsPushed(ps, r.orderId) == [r]
    ensures forall id :: Pushed(ps, EvAck(id)) == 0 && Pushed(ps, EvCancelAck(id)) == 0
  {
    assert ps == [ps[0]];
    OnePushed(ps[0], r.orderId);
  }

  lemma {:induction false} TwoReports(ps: seq<Push>, r: OrderReport, r2: OrderReport)
    requires |ps| == 2 && ps[0].kind == EvReport(r) && ps[1].kind == EvReport(r2) && r2.orderId == r.orderId
    ensures NoOrder(ps) && (forall other :: other != r.orderId ==> Leaves(ps, other))
    ensures ReportsPushed(ps, r.orderId) == [r, r2]
    ensures forall id :: Pushed(ps, EvAck(id)) == 0 && Pushed(ps, EvCancelAck(id)) == 0
  {
    assert ps == [ps[0]] + [ps[1]];
    OnePushed(ps[0], r.orderId);
    OnePushed(ps[1], r.orderId);
    PushedAppend([ps[0]], [ps[1]], EvAck(0), r.orderId);
    forall id ensures Pushed(ps, EvAck(id)) == 0 && Pushed(ps, EvCancelAck(id)) == 0 {
      PushedAppend([ps[0]], [ps[1]], EvAck(id), r.orderId);
      PushedAppend([ps[0]], [ps[1]], EvCancelAck(id), r.orderId);
    }
  }

  lemma {:induction false} AckNewOutcome(ex: Exchange, id: int)
    requires GoodExchange(ex) && AckNew(ex, id).Some?
    ensures
      var (ex', r) := AckNew(ex, id).value;
      && GoodExchange(ex') && id in ex.orders && OnlyChanges(ex.orders, ex'.orders, id)
      && ex'.orders[id].order == ex.orders[id].order && ex'.orders[id].state == Open
      && r.orderId == id && r.status == Open
  {
    StepKeepsGood(Noop, ex, OpAckNew(id));
    assert GoodOrder(id, ex.orders[id]);
    hide GoodExchange;
  }

  lemma {:induction false} CancelOutcome(ex: Exchange, id: int)
    requires GoodExchange(ex) && Cancel(ex, id).Some?
    ensures
      var ex' := Cancel(ex, id).value;
      && GoodExchange(ex') && id in ex.orders && OnlyChanges(ex.orders, ex'.orders, id)
      && ex'.orders[id].order == ex.orders[id].order && ex'.orders[id].state == PendingCancel
      && (ex.orders[id].state == Open || ex.orders[id].state == PartiallyFilled)
  {
    StepKeepsGood(Noop, ex, OpCancel(id));
    hide GoodExchange;
  }

  lemma {:induction false} AckCancelOutcome(ex: Exchange, id: int)
    requires GoodExchange(ex) && AckCancel(ex, id).Some?
    ensures
      var (ex', r) := AckCancel(ex, id).value;
      && GoodExchange(ex') && id in ex.orders && OnlyChanges(ex.orders, ex'.orders, id)
      && ex'.orders[id].order == ex.orders[id].order && ex'.orders[id].state == Cancelled
      && ex.orders[id].state == PendingCancel && r.orderId == id && r.status == Cancelled
  {
    StepKeepsGood(Noop, ex, OpAckCancel(id));
    assert GoodOrder(id, ex.orders[id]);
    hide GoodExchange;
  }

  lemma {:induction false} AckLimitLife(
    cfg: Config, xs: Venues, d: Desk, e: Event, q: Queue, next: int, now: int, ex: Exchange, ps: seq<Push>)
    requires e.kind.EvAck? && LifeOk(xs, d, [e] + q) && Room(cfg, q, next, now) && FreshPushes(cfg, now, ps)
    requires e.kind.id in d.routes && GoodExchange(ex) && ex.orders == OrdersAt(xs, d.routes[e.kind.id])
    requires AckNew(ex, e.kind.id).Some?
    requires |ps| == 1 && ps[0].kind == EvReport(AckNew(ex, e.kind.id).value.1)
    ensures LifeOk(xs[d.routes[e.kind.id] := AckNew(ex, e.kind.id).value.0], d, PushAll(q, next, ps))
  {
    var id := e.kind.id;
    var (ex', r) := AckNew(ex, id).value;
    AckNewOutcome(ex, id);
    AckFindsOrder(xs, d, e, q);
    hide AckNew;
    OneReport(ps, r);
    EndsAppend(ReportsFor(q, id), r);
    hide PushAll, ReportsFor, Tally, Room, FreshPushes, LifeOk, Pushed, ReportsPushed, NoOrder, GoodExchange,
      EndsWhen, Leaves, OnlyChanges;
    ReportingStep(cfg, xs, d, e, q, next, now, id, ex', ps);
  }

  // A market order is finished by its acknowledgement, and its reports say how.
  lemma {:induction false} MarketOutcome(ex: Exchange, id: int, fallback: Option<int>)
    requires GoodExchange(ex) && id in ex.orders && ex.orders[id].state == PendingNew
    ensures FillMarket(ex, id, fallback).Some?
    ensures
      var (ex1, r) := FillMarket(ex, id, fallback).value;
      && id in ex1.orders && r.orderId == id && r.status == ex1.orders[id].state
      && OnlyChanges(ex.orders, ex1.orders, id) && ex1.orders[id].order == ex.orders[id].order
      && if r.status == PartiallyFilled then
           && ForceCancel(ex1, id).Some?
           && var (ex2, r2) := ForceCancel(ex1, id).value;
              && GoodExchange(ex2) && r2.orderId == id && r2.status == Cancelled
              && OnlyChanges(ex.orders, ex2.orders, id) && ex2.orders[id].order == ex.orders[id].order
              && ex2.orders[id].state == Cancelled
         else GoodExchange(ex1) && IsTerminal(r.status)
  {
    assert GoodOrder(id, ex.orders[id]);
    FillMarketKeepsOrder(ex, id, fallback);
    StepKeepsGood(Noop, ex, OpFillMarket(id, fallback));
    var ex1 := FillMarket(ex, id, fallback).value.0;
    if ex1.orders[id].state == PartiallyFilled {
      StepKeepsGood(Noop, ex1, OpForceCancel(id));
    }
    hide GoodExchange, MarketQuote;
  }

  lemma {:induction false} AckMarketLife(
    cfg: Config, xs: Venues, d: Desk, e: Event, q: Queue, next: int, now: int, ex: Exchange, fallback: Option<int>,
    ps: seq<Push>)
    requires e.kind.EvAck? && LifeOk(xs, d, [e] + q) && Room(cfg, q, next, now) && FreshPushes(cfg, now, ps)
    requires e.kind.id in d.routes && GoodExchange(ex) && ex.orders == OrdersAt(xs, d.routes[e.kind.id])
    requires FillMarket(ex, e.kind.id, fallback).Some?
    requires
      var (ex1, r) := FillMarket(ex, e.kind.id, fallback).value;
      if r.status == PartiallyFilled then
        && ForceCancel(ex1, e.kind.id).Some?
        && |ps| == 2 && ps[0].kind == EvReport(r) && ps[1].kind == EvReport(ForceCancel(ex1, e.kind.id).value.1)
      else |ps| == 1 && ps[0].kind == EvReport(r)
    ensures
      var (ex1, r) := FillMarket(ex, e.kind.id, fallback).value;
      var ex2 := if r.status == PartiallyFilled then ForceCancel(ex1, e.kind.id).value.0 else ex1;
      LifeOk(xs[d.routes[e.kind.id] := ex2], d, PushAll(q, next, ps))
  {
    var id := e.kind.id;
    AckFindsOrder(xs, d, e, q);
    var (ex1, r) := FillMarket(ex, id, fallback).value;
    var ex2 := if r.status == PartiallyFilled then ForceCancel(ex1, id).value.0 else ex1;
    MarketOutcome(ex, id, fallback);
    hide FillMarket, ForceCancel, PushAll, ReportsFor, Tally, Room, FreshPushes, LifeOk, Pushed, ReportsPushed, NoOrder,
      GoodExchange, EndsWhen, Leaves;
    EndsAppend(ReportsFor(q, id), r);
    if r.status == PartiallyFilled {
      var r2 := ForceCancel(ex1, id).value.1;
      TwoReports(ps, r, r2);
      EndsAppend(ReportsFor(q, id) + [r], r2);
      assert ReportsFor(q, id) + [r] + [r2] == ReportsFor(q, id) + [r, r2];
    } else {
      OneReport(ps, r);
    }
    ReportingStep(cfg, xs, d, e, q, next, now, id, ex2, ps);
  }

  // A cancel request or its acknowledgement takes nothing else away from a live order.
  lemma {:induction false} LiveFacts(xs: Venues, d: Desk, e: Event, q: Queue, id: int)
    requires (e.kind.EvCancel? || e.kind.EvCancelAck?) && LifeOk(xs, d, [e] + q)
    requires id in d.routes && LiveIn(xs, d.routes[id], id).Some?
    ensures
      var o := LiveIn(xs, d.routes[id], id).value;
      && Tally(q, EvAck(id)) == (if o.state == PendingNew then 1 else 0)
      && EndsWhen(ReportsFor(q, id), IsTerminal(o.state))
  {
    assert TrailOk(TrailOf(xs, d, [e] + q, id));
    PopViews(e, q, id);
    hide Tally, ReportsFor, EndsWhen, World, Arrivals, Arriving;
    Assoc(ReportsFor(q, id), [], []);
  }

  // A cancel reaches its live order: a cancel acknowledgement is now queued.
  lemma {:induction false} CancelLife(
    cfg: Config, xs: Venues, d: Desk, e: Event, q: Queue, next: int, now: int, ex: Exchange, ps: seq<Push>)
    requires e.kind.EvCancel? && LifeOk(xs, d, [e] + q) && Room(cfg, q, next, now) && FreshPushes(cfg, now, ps)
    requires e.kind.id in d.routes && GoodExchange(ex) && ex.orders == OrdersAt(xs, d.routes[e.kind.id])
    requires Cancel(ex, e.kind.id).Some? && |ps| == 1 && ps[0].kind == EvCancelAck(e.kind.id)
    ensures LifeOk(xs[d.routes[e.kind.id] := Cancel(ex, e.kind.id).value], d, PushAll(q, next, ps))
  {
    var id := e.kind.id;
    CancelOutcome(ex, id);
    LiveFacts(xs, d, e, q, id);
    hide Cancel;
    assert ps == [ps[0]];
    OnePushed(ps[0], id);
    Assoc(ReportsFor(q, id), [], []);
    hide PushAll, ReportsFor, Tally, Room, FreshPushes, LifeOk, Pushed, ReportsPushed, GoodExchange, EndsWhen,
      OnlyChanges;
    ReportingStep(cfg, xs, d, e, q, next, now, id, Cancel(ex, id).value, ps);
  }

  lemma {:induction false} CancelAckLife(
    cfg: Config, xs: Venues, d: Desk, e: Event, q: Queue, next: int, now: int, ex: Exchange, ps: seq<Push>)
    requires e.kind.EvCancelAck? && LifeOk(xs, d, [e] + q) && Room(cfg, q, next, now) && FreshPushes(cfg, now, ps)
    requires e.kind.id in d.routes && GoodExchange(ex) && ex.orders == OrdersAt(xs, d.routes[e.kind.id])
    requires AckCancel(ex, e.kind.id).Some?
    requires |ps| == 1 && ps[0].kind == EvReport(AckCancel(ex, e.kind.id).value.1)
    ensures LifeOk(xs[d.routes[e.kind.id] := AckCancel(ex, e.kind.id).value.0], d, PushAll(q, next, ps))
  {
    var id := e.kind.id;
    var (ex', r) := AckCancel(ex, id).value;
    AckCancelOutcome(ex, id);
    LiveFacts(xs, d, e, q, id);
    hide AckCancel;
    OneReport(ps, r);
    EndsAppend(ReportsFor(q, id), r);
    hide PushAll, ReportsFor, Tally, Room, FreshPushes, LifeOk, Pushed, ReportsPushed, NoOrder, GoodExchange,
      EndsWhen, Leaves, OnlyChanges;
    ReportingStep(cfg, xs, d, e, q, next, now, id, ex', ps);
  }

  lemma {:induction false} StaleTrail(xs: Venues, d: Desk, e: Event, q: Queue, id: int)
    requires e.kind.EvCancelAck? && Trails(xs, d, [e] + q)
    requires
      var i := e.kind.id;
      i in d.routes && LiveIn(xs, d.routes[i], i).Some? ==> LiveIn(xs, d.routes[i], i).value.state != PendingCancel
    ensures TrailOk(TrailOf(xs, d, q, id))
  {
    assert TrailOk(TrailOf(xs, d, [e] + q, id));
    PopViews(e, q, id);
    hide Tally, ReportsFor, OrdersIn, EndsWhen, Trails;
    Assoc(ReportsFor(q, id), [], []);
    Assoc(OrdersIn(q), [], []);
    assert Arriving(q, id) <==> Arriving([e] + q, id);
  }

  // A cancel acknowledgement that finds nothing to cancel is simply used up.
  lemma {:induction false} StaleCancelAck(xs: Venues, d: Desk, e: Event, q: Queue)
    requires e.kind.EvCancelAck? && LifeOk(xs, d, [e] + q)
    requires
      var id := e.kind.id;
      id in d.routes && LiveIn(xs, d.routes[id], id).Some? ==> LiveIn(xs, d.routes[id], id).value.state != PendingCancel
    ensures LifeOk(xs, d, q)
  {
    PopArrivals(xs, d, e, q);
    forall id ensures TrailOk(TrailOf(xs, d, q, id)) {
      StaleTrail(xs, d, e, q, id);
    }
    hide World, Arrivals, TrailOk, TrailOf;
  }
}
