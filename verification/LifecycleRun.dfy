// Ownership over whole runs, and what remains when a run has drained.
module LifecycleRun {
  import opened Types
  import opened Ledgers
  import opened QueueModels
  import opened Exchanges
  import opened ExchangeProps
  import opened EventQueues
  import opened EngineSpec
  import opened EngineClock
  import opened QueueViews
  import opened Lifecycle
  import opened LifecycleSteps

  // ---- Trades -------------------------------------------------------------------------------------

  lemma {:induction false} ReportsOfPushes(ts: int, a: seq<OrderReport>, b: seq<OrderReport>, id: int)
    ensures ReportsPushed(ReportPushes(ts, a + b), id)
            == ReportsPushed(ReportPushes(ts, a), id) + ReportsPushed(ReportPushes(ts, b), id)
  {
    assert ReportPushes(ts, a + b) == ReportPushes(ts, a) + ReportPushes(ts, b);
    PushedAppend(ReportPushes(ts, a), ReportPushes(ts, b), EvAck(0), id);
  }

  // The single report an order may give to a trade, as a push.
  lemma {:induction false} OfferPushed(o: LiveOrder, trade: Tick, ts: int, id: int)
    ensures ReportsPushed(ReportPushes(ts, Offer(o, trade).1), id)
            == if o.order.orderId == id then Offer(o, trade).1 else []
    ensures |Offer(o, trade).1| <= 1
  {
    hide CheckFill;
    var rs := Offer(o, trade).1;
    if rs != [] {
      var ps := ReportPushes(ts, rs);
      assert ps == [ps[0]];
      OnePushed(ps[0], id);
    } else {
      assert ReportPushes(ts, rs) == [];
    }
  }

  lemma {:induction false} NothingPushed(ts: int, id: int)
    ensures ReportsPushed(ReportPushes(ts, []), id) == []
  {
    assert ReportPushes(ts, []) == [];
  }

  lemma {:induction false} IdOfGood(id: int, o: LiveOrder)
    requires GoodOrder(id, o)
    ensures o.order.orderId == id
  {
  }

  lemma {:induction false} CollectedPushed(orders: OrderMap, trade: Tick, ids: seq<int>, ts: int, id: int)
    requires GoodOrders(orders) && Distinct(ids)
    ensures ReportsPushed(ReportPushes(ts, Collected(orders, trade, ids)), id)
            == if id in ids && id in orders then Offer(orders[id], trade).1 else []
  {
    hide Offer, GoodOrder, ReportsPushed;
    if ids == [] {
      NothingPushed(ts, id);
    } else {
      var first := ids[0];
      var r := if first in orders then Offer(orders[first], trade).1 else [];
      CollectedPushed(orders, trade, ids[1..], ts, id);
      ReportsOfPushes(ts, r, Collected(orders, trade, ids[1..]), id);
      NothingPushed(ts, id);
      if first in orders {
        assert GoodOrder(first, orders[first]);
        OfferPushed(orders[first], trade, ts, id);
        IdOfGood(first, orders[first]);
      }
      assert id in ids <==> id == first || id in ids[1..];
      if id == first {
        assert id !in ids[1..];
        Assoc(r, [], []);
      } else {
        Assoc(ReportsPushed(ReportPushes(ts, Collected(orders, trade, ids[1..])), id), [], []);
      }
    }
  }

  // The reports of a trade, seen from one order: exactly what offering it the trade gives.
  lemma {:induction false} TradeReportsFor(ex: Exchange, trade: Tick, ts: int, id: int)
    requires GoodExchange(ex)
    ensures ReportsPushed(ReportPushes(ts, OnTrade(ex, trade).1), id)
            == if id in ex.orders then Offer(ex.orders[id], trade).1 else []
  {
    TradePointwise(ex, trade);
    var key := (trade.price, MakerSide(trade.side));
    var ids := BucketAt(ex.buckets, key);
    assert BucketOk(ex.orders, ex.buckets, key);
    AscendingDistinct(ids);
    hide Offer, OnTrade, GoodOrder, BucketsOk, ReportsPushed, Collected;
    if trade.side == NoSide {
      NothingPushed(ts, id);
    } else {
      CollectedPushed(ex.orders, trade, ids, ts, id);
    }
    if id in ex.orders && (trade.side == NoSide || id !in ids) {
      NoHitNoChange(ex.orders[id], trade);
    }
  }

  lemma {:induction false} NoneOfKind(ps: seq<Push>, kind: EventKind)
    requires forall p :: p in ps ==> p.kind != kind
    ensures Pushed(ps, kind) == 0
  {
    if ps != [] {
      assert ps[0] in ps;
      NoneOfKind(ps[1..], kind);
    }
  }

  lemma {:induction false} ReportPushesQuiet(ts: int, rs: seq<OrderReport>)
    ensures NoOrder(ReportPushes(ts, rs))
    ensures forall id ::
              Pushed(ReportPushes(ts, rs), EvAck(id)) == 0 && Pushed(ReportPushes(ts, rs), EvCancelAck(id)) == 0
  {
    forall id
      ensures Pushed(ReportPushes(ts, rs), EvAck(id)) == 0 && Pushed(ReportPushes(ts, rs), EvCancelAck(id)) == 0
    {
      NoneOfKind(ReportPushes(ts, rs), EvAck(id));
      NoneOfKind(ReportPushes(ts, rs), EvCancelAck(id));
    }
  }

  // What one order does with a trade keeps its report stream properly ended.
  lemma {:induction false} OfferEnds(o: LiveOrder, trade: Tick, pending: seq<OrderReport>)
    requires EndsWhen(pending, IsTerminal(o.state))
    ensures
      var (o', rs) := Offer(o, trade);
      && EndsWhen(pending + rs, IsTerminal(o'.state))
      && (o'.state == PendingNew <==> o.state == PendingNew)
      && (o'.state == PendingCancel ==> o.state == PendingCancel)
  {
    hide CheckFill, EndsWhen;
    Assoc(pending, [], []);
    var (o', rs) := Offer(o, trade);
    if rs != [] {
      EndsAppend(pending, rs[0]);
      assert rs == [rs[0]];
    }
  }

  lemma {:induction false} OwnedHere(xs: Venues, d: Desk, s: int)
    requires World(xs, d)
    ensures forall id :: id in OrdersAt(xs, s) ==>
              id in d.routes && d.routes[id] == s && OrdersAt(xs, s)[id].order.symbolId == s
    ensures GoodOrders(OrdersAt(xs, s))
  {
    assert s in xs ==> OwnOrders(xs[s].orders, d, s) && GoodExchange(xs[s]);
  }

  // An order that the exchange does not hold neither changes nor is reported on.
  lemma {:induction false} UntouchedTrail(
    cfg: Config, xs: Venues, d: Desk, e: Event, q: Queue, next: int, now: int, s: int, ex: Exchange, ps: seq<Push>,
    id: int)
    requires e.kind.EvTick? && TrailOk(TrailOf(xs, d, [e] + q, id)) && Room(cfg, q, next, now)
             && FreshPushes(cfg, now, ps)
    requires NoOrder(ps) && ReportsPushed(ps, id) == [] && Pushed(ps, EvAck(id)) == 0
             && Pushed(ps, EvCancelAck(id)) == 0
    requires ex.orders.Keys == OrdersAt(xs, s).Keys && id !in ex.orders
    ensures TrailOk(TrailOf(xs[s := ex], d, PushAll(q, next, ps), id))
  {
    var q' := PushAll(q, next, ps);
    NoOrdersPushed(ps);
    hide PushAll, ReportsFor, OrdersIn, Tally, Room, FreshPushes, Pushed, OrdersPushed, ReportsPushed, NoOrder,
      TrailOk, TrailOf;
    Assoc(OrdersIn(q), [], []);
    Assoc(ReportsFor(q, id), [], []);
    PushAllViews(cfg, q, next, now, ps, id);
    TallyPushAll(q, next, ps, EvAck(id));
    TallyPushAll(q, next, ps, EvCancelAck(id));
    assert Arriving(q', id) <==> Arriving(q, id);
    hide Arriving;
    QuietPop(e, q, id);
    KeptTrail(xs, d, [e] + q, xs[s := ex], d, q', id);
  }

  lemma {:induction false} TradeTrail(
    cfg: Config, xs: Venues, d: Desk, e: Event, q: Queue, next: int, now: int, s: int, ex: Exchange, trade: Tick,
    ps: seq<Push>, id: int)
    requires e.kind.EvTick? && LifeOk(xs, d, [e] + q) && Room(cfg, q, next, now) && FreshPushes(cfg, now, ps)
    requires GoodExchange(ex) && ex.orders == OrdersAt(xs, s)
    requires exists ts :: ps == ReportPushes(ts, OnTrade(ex, trade).1)
    ensures TrailOk(TrailOf(xs[s := OnTrade(ex, trade).0], d, PushAll(q, next, ps), id))
  {
    var ex' := OnTrade(ex, trade).0;
    var ts :| ps == ReportPushes(ts, OnTrade(ex, trade).1);
    assert TrailOk(TrailOf(xs, d, [e] + q, id));
    TradePointwise(ex, trade);
    TradeReportsFor(ex, trade, ts, id);
    ReportPushesQuiet(ts, OnTrade(ex, trade).1);
    PopViews(e, q, id);
    Assoc(ReportsFor(q, id), [], []);
    hide OnTrade, Offer, ReportPushes, PushAll, ReportsFor, Tally, Room, FreshPushes, Pushed, ReportsPushed, NoOrder,
      GoodExchange, EndsWhen, Arrivals, World;
    if id in ex.orders && id in d.routes && d.routes[id] == s {
      OfferEnds(ex.orders[id], trade, ReportsFor(q, id));
      LiveTrail(cfg, xs, d, e, q, next, now, id, ex', ps);
    } else {
      assert id !in ex.orders by {
        assert World(xs, d);
        OwnedHere(xs, d, s);
      }
      hide TrailOk, TrailOf, Arriving;
      UntouchedTrail(cfg, xs, d, e, q, next, now, s, ex', ps, id);
    }
  }

  lemma {:induction false} OfferKeepsTerms(o: LiveOrder, trade: Tick)
    ensures Offer(o, trade).0.order == o.order
  {
    hide CheckFill;
  }

  lemma {:induction false} TradeWorld(xs: Venues, d: Desk, s: int, ex: Exchange, trade: Tick)
    requires World(xs, d) && GoodExchange(ex) && ex.orders == OrdersAt(xs, s)
    ensures World(xs[s := OnTrade(ex, trade).0], d)
  {
    var ex' := OnTrade(ex, trade).0;
    TradeKeepsGood(ex, trade);
    TradePointwise(ex, trade);
    OwnedHere(xs, d, s);
    forall id | id in ex.orders ensures ex'.orders[id].order == ex.orders[id].order {
      OfferKeepsTerms(ex.orders[id], trade);
    }
    hide OnTrade, Offer, GoodExchange, GoodOrders;
    WorldSet(xs, d, s, ex');
  }

  lemma {:induction false} TradeArrivals(
    cfg: Config, xs: Venues, d: Desk, e: Event, q: Queue, next: int, now: int, s: int, ex: Exchange, trade: Tick,
    ps: seq<Push>)
    requires e.kind.EvTick? && Arrivals(xs, d, [e] + q) && Room(cfg, q, next, now) && FreshPushes(cfg, now, ps)
             && NoOrder(ps)
    requires GoodExchange(ex) && ex.orders == OrdersAt(xs, s)
    ensures Arrivals(xs[s := OnTrade(ex, trade).0], d, PushAll(q, next, ps))
  {
    TradePointwise(ex, trade);
    PopArrivals(xs, d, e, q);
    NoOrdersPushed(ps);
    PushAllViews(cfg, q, next, now, ps, 0);
    Assoc(OrdersIn(q), [], []);
    BelowExchange(xs, d, q, s);
    hide OnTrade, Offer, GoodExchange, OrdersIn, PushAll, Room, FreshPushes, NoOrder;
    assert AllBelow(OnTrade(ex, trade).0.orders, OrdersIn(q));
  }

  lemma {:induction false} TradeLife(
    cfg: Config, xs: Venues, d: Desk, e: Event, q: Queue, next: int, now: int, s: int, ex: Exchange, trade: Tick,
    ps: seq<Push>)
    requires e.kind.EvTick? && LifeOk(xs, d, [e] + q) && Room(cfg, q, next, now) && FreshPushes(cfg, now, ps)
    requires GoodExchange(ex) && ex.orders == OrdersAt(xs, s)
    requires exists ts :: ps == ReportPushes(ts, OnTrade(ex, trade).1)
    ensures LifeOk(xs[s := OnTrade(ex, trade).0], d, PushAll(q, next, ps))
  {
    var ex' := OnTrade(ex, trade).0;
    var xs', q' := xs[s := ex'], PushAll(q, next, ps);
    forall id ensures TrailOk(TrailOf(xs', d, q', id)) {
      TradeTrail(cfg, xs, d, e, q, next, now, s, ex, trade, ps, id);
    }
    var ts :| ps == ReportPushes(ts, OnTrade(ex, trade).1);
    ReportPushesQuiet(ts, OnTrade(ex, trade).1);
    hide OnTrade, TrailOk, TrailOf, PushAll, Room, FreshPushes, ReportPushes, GoodExchange, Trails, World, Arrivals;
    TradeWorld(xs, d, s, ex, trade);
    TradeArrivals(cfg, xs, d, e, q, next, now, s, ex, trade, ps);
  }

  // ---- Reports reach the strategy ------------------------------------------------------------------

  lemma {:induction false} EndsTail(r: OrderReport, rest: seq<OrderReport>, terminal: bool)
    requires EndsWhen([r] + rest, terminal) && !IsTerminal(r.status)
    ensures EndsWhen(rest, terminal)
  {
    var all := [r] + rest;
    assert forall i :: 0 <= i < |rest| ==> rest[i] == all[i + 1];
  }

  // A report that is not terminal leaves ownership untouched.
  lemma {:induction false} NewsTrail(xs: Venues, d: Desk, e: Event, q: Queue, id: int)
    requires e.kind.EvReport? && !IsTerminal(e.kind.report.status) && Trails(xs, d, [e] + q)
    ensures TrailOk(TrailOf(xs, d, q, id))
  {
    var r := e.kind.report;
    assert TrailOk(TrailOf(xs, d, [e] + q, id));
    if r.orderId == id {
      PopViews(e, q, id);
      hide ReportsFor, OrdersIn, Tally, Trails, EndsWhen;
      Assoc(OrdersIn(q), [], []);
      assert Arriving(q, id) <==> Arriving([e] + q, id);
      assert ReportsFor([e] + q, id)[0] == r;
      EndsTail(r, ReportsFor(q, id), IsTerminal(LiveIn(xs, d.routes[id], id).value.state));
    } else {
      hide ReportsFor, Arriving, Tally, Trails, TrailOk, TrailOf;
      QuietPop(e, q, id);
      KeptTrail(xs, d, [e] + q, xs, d, q, id);
    }
  }

  lemma {:induction false} NewsLife(xs: Venues, d: Desk, e: Event, q: Queue)
    requires e.kind.EvReport? && !IsTerminal(e.kind.report.status) && LifeOk(xs, d, [e] + q)
    ensures LifeOk(xs, d, q)
  {
    PopArrivals(xs, d, e, q);
    forall id ensures TrailOk(TrailOf(xs, d, q, id)) {
      NewsTrail(xs, d, e, q, id);
    }
    hide World, Arrivals, TrailOk, TrailOf;
  }

  // What ownership says about a terminal report at the head of the queue: it is the last one, and
  // if its order is still tracked then that order is alive and finished.
  lemma {:induction false} LastReport(xs: Venues, d: Desk, e: Event, q: Queue)
    requires e.kind.EvReport? && IsTerminal(e.kind.report.status) && Trails(xs, d, [e] + q)
    ensures
      var id := e.kind.report.orderId;
      && ReportsFor(q, id) == [] && Tally(q, EvAck(id)) == 0 && !Arriving(q, id)
      && (id in d.routes ==> LiveIn(xs, d.routes[id], id).Some?
                             && IsTerminal(LiveIn(xs, d.routes[id], id).value.state))
  {
    var id := e.kind.report.orderId;
    assert TrailOk(TrailOf(xs, d, [e] + q, id));
    PopViews(e, q, id);
    Assoc(OrdersIn(q), [], []);
    var all, rest := ReportsFor([e] + q, id), ReportsFor(q, id);
    assert all == [e.kind.report] + rest && all[0] == e.kind.report;
    hide ReportsFor, OrdersIn, Tally, Trails;
    assert Arriving(q, id) <==> Arriving([e] + q, id);
  }

  function RetireAt(xs: Venues, d: Desk, s: int, ex: Exchange, id: int): (Venues, Desk) {
    (xs[s := Remove(ex, id)], d.(routes := d.routes - {id}))
  }

  lemma {:induction false} RetiredTrail(xs: Venues, d: Desk, e: Event, q: Queue, ex: Exchange, other: int)
    requires e.kind.EvReport? && IsTerminal(e.kind.report.status) && Trails(xs, d, [e] + q)
    requires e.kind.report.orderId in d.routes && ex.orders == OrdersAt(xs, d.routes[e.kind.report.orderId])
    ensures
      var id := e.kind.report.orderId;
      var (xs', d') := RetireAt(xs, d, d.routes[id], ex, id);
      TrailOk(TrailOf(xs', d', q, other))
  {
    var id := e.kind.report.orderId;
    var s := d.routes[id];
    var (xs', d') := RetireAt(xs, d, s, ex, id);
    assert TrailOk(TrailOf(xs, d, [e] + q, other));
    if other == id {
      LastReport(xs, d, e, q);
      hide ReportsFor, Arriving, Tally, Trails;
    } else {
      assert Remove(ex, id).orders == ex.orders - {id};
      hide ReportsFor, Arriving, Tally, Trails, TrailOk, TrailOf, Remove;
      QuietPop(e, q, other);
      KeptTrail(xs, d, [e] + q, xs', d', q, other);
    }
  }

  lemma {:induction false} RemoveIsGood(ex: Exchange, id: int)
    requires GoodExchange(ex)
    ensures GoodExchange(Remove(ex, id)) && Remove(ex, id).orders == ex.orders - {id}
  {
    StepKeepsGood(Noop, ex, OpRemove(id));
    hide GoodExchange;
  }

  lemma {:induction false} RetireArrivals(xs: Venues, d: Desk, q: Queue, s: int, ex: Exchange, id: int)
    requires Arrivals(xs, d, q) && ex.orders == OrdersAt(xs, s) && !Arriving(q, id)
    requires Remove(ex, id).orders == ex.orders - {id}
    ensures
      var (xs', d') := RetireAt(xs, d, s, ex, id);
      Arrivals(xs', d', q)
  {
    var (xs', d') := RetireAt(xs, d, s, ex, id);
    BelowExchange(xs, d, q, s);
    hide OrdersIn, Remove;
    forall t | t in xs' ensures AllBelow(xs'[t].orders, OrdersIn(q)) {
      assert t != s ==> AllBelow(xs[t].orders, OrdersIn(q));
    }
  }

  lemma {:induction false} RetireWorld(xs: Venues, d: Desk, s: int, ex: Exchange, id: int)
    requires World(xs, d) && ex.orders == OrdersAt(xs, s) && id in d.routes && d.routes[id] == s
    requires Remove(ex, id).orders == ex.orders - {id} && GoodExchange(Remove(ex, id))
    ensures
      var (xs', d') := RetireAt(xs, d, s, ex, id);
      World(xs', d')
  {
    var (xs', d') := RetireAt(xs, d, s, ex, id);
    hide GoodExchange, Remove;
    forall t | t in xs' ensures OwnOrders(xs'[t].orders, d', t) && GoodExchange(xs'[t]) {
      assert t in xs ==> OwnOrders(xs[t].orders, d, t);
    }
  }

  lemma {:induction false} RetireLife(xs: Venues, d: Desk, e: Event, q: Queue, ex: Exchange)
    requires e.kind.EvReport? && IsTerminal(e.kind.report.status) && LifeOk(xs, d, [e] + q)
    requires e.kind.report.orderId in d.routes && ex.orders == OrdersAt(xs, d.routes[e.kind.report.orderId])
    requires GoodExchange(ex)
    ensures
      var id := e.kind.report.orderId;
      var (xs', d') := RetireAt(xs, d, d.routes[id], ex, id);
      LifeOk(xs', d', q)
  {
    hide TrailOk, TrailOf, GoodExchange, Remove, ReportsFor, Tally, World, Arrivals, Arriving;
    var id := e.kind.report.orderId;
    var s := d.routes[id];
    var (xs', d') := RetireAt(xs, d, s, ex, id);
    LastReport(xs, d, e, q);
    PopArrivals(xs, d, e, q);
    RemoveIsGood(ex, id);
    forall other ensures TrailOk(TrailOf(xs', d', q, other)) {
      RetiredTrail(xs, d, e, q, ex, other);
    }
    RetireArrivals(xs, d, q, s, ex, id);
    RetireWorld(xs, d, s, ex, id);
  }

  // A refused order's only report leaves nothing behind.
  lemma {:induction false} RefusedLife(xs: Venues, d: Desk, e: Event, q: Queue)
    requires e.kind.EvReport? && IsTerminal(e.kind.report.status) && LifeOk(xs, d, [e] + q)
    requires e.kind.report.orderId !in d.routes
    ensures LifeOk(xs, d, q)
  {
    PopArrivals(xs, d, e, q);
    forall other ensures TrailOk(TrailOf(xs, d, q, other)) {
      assert TrailOk(TrailOf(xs, d, [e] + q, other));
      if other == e.kind.report.orderId {
        LastReport(xs, d, e, q);
      } else {
        hide ReportsFor, Arriving, Tally, TrailOk, TrailOf;
        QuietPop(e, q, other);
        KeptTrail(xs, d, [e] + q, xs, d, q, other);
      }
    }
    hide World, Arrivals, TrailOk, TrailOf;
  }

  // ---- Every handler ---------------------------------------------------------------------------------

  // Everything the lifecycle needs to know about the queue behind the head.
  ghost predicate Ready<S>(env: Env<S>, c: Core<S>, e: Event, q: Queue, next: int) {
    && GoodConfig(env.cfg) && TimedAt(c.now, e.kind)
    && LifeAt(c, [e] + q) && Room(env.cfg, q, next, c.now)
  }

  ghost predicate GoodStrategy<S(!new)>(env: Env<S>) {
    forall s, cb :: env.strategy(s, cb).Reply? ==> GoodCommands(env.strategy(s, cb).commands)
  }

  lemma {:induction false} CallLife<S(!new)>(env: Env<S>, c: Core<S>, q: Queue, next: int, payload: Payload)
    requires GoodConfig(env.cfg) && GoodStrategy(env)
    requires LifeAt(c, q) && Room(env.cfg, q, next, c.now)
    ensures
      var eff := Call(env, c, c.now, payload);
      eff.Effect? ==> LifeAt(eff.core, PushAll(q, next, eff.pushes)) && eff.core.exchanges == c.exchanges
  {
    hide LifeOk, Room, Commands, PushAll;
    match env.strategy(c.strategy, Callback(c.now, c.market, payload)) {
      case Reply(s, cmds) =>
        CommandsLife(env.cfg, c.ledger, c.exchanges, DeskOf(c), q, next, c.now, cmds);
      case _ =>
    }
  }

  lemma {:induction false} HandedCommandsGood<S(!new)>(env: Env<S>, s: S, market: map<int, Tick>, b: Batch, ts: int)
    requires GoodStrategy(env)
    ensures HandOver(env, s, market, b, ts).Handover? ==> GoodCommands(HandOver(env, s, market, b, ts).commands)
  {
  }

  lemma {:induction false} FlushLife<S(!new)>(env: Env<S>, c: Core<S>, q: Queue, next: int)
    requires GoodConfig(env.cfg) && GoodStrategy(env)
    requires LifeAt(c, q) && Room(env.cfg, q, next, c.now)
    ensures
      var eff := Flush(env, c, c.now);
      eff.Effect? ==> LifeAt(eff.core, PushAll(q, next, eff.pushes)) && eff.core.exchanges == c.exchanges
  {
    HandedCommandsGood(env, c.strategy, c.market, c.batch, c.now);
    hide LifeOk, Room, Commands, HandOver, GoodCommands, GoodStrategy;
    if c.batch.ticks != [] || c.batch.reports != [] {
      match HandOver(env, c.strategy, c.market, c.batch, c.now) {
        case Handover(s, cmds, calls) =>
          CommandsLife(env.cfg, c.ledger, c.exchanges, DeskOf(c), q, next, c.now, cmds);
        case _ =>
      }
    }
  }

  lemma {:induction false} TickLife<S>(env: Env<S>, c: Core<S>, e: Event, q: Queue, next: int)
    requires Ready(env, c, e, q, next) && e.kind.EvTick?
    ensures
      var eff := Handle(env, c, e.kind);
      LifeAt(eff.core, PushAll(q, next, eff.pushes))
  {
    var tick := e.kind.tick;
    HandleFresh(env, c, e.kind);
    ExchangeFacts(c, tick.symbolId);
    var eff := Handle(env, c, e.kind);
    var ex := ExchangeAt(c, tick.symbolId);
    assert eff.core.exchanges == c.exchanges[tick.symbolId := OnTrade(ex, tick).0];
    assert DeskOf(eff.core) == DeskOf(c);
    assert eff.pushes == ReportPushes(tick.tsExchange + env.cfg.reportLatency, OnTrade(ex, tick).1);
    hide Handle, ExchangeAt, LifeOk, GoodExchange, OnTrade, PushAll, Room, FreshPushes, ReportPushes;
    TradeLife(env.cfg, c.exchanges, DeskOf(c), e, q, next, c.now, tick.symbolId, ex, tick, eff.pushes);
  }

  // Writing an unchanged exchange back, or creating an empty one, changes nothing.
  lemma {:induction false} SameExchangeLife<S>(c: Core<S>, q: Queue, s: int)
    requires LifeAt(c, q)
    ensures LifeOk(c.exchanges[s := ExchangeAt(c, s)], DeskOf(c), q)
  {
    ExchangeFacts(c, s);
    hide LifeOk, GoodExchange, ExchangeAt;
    RestateExchange(c.exchanges, DeskOf(c), q, s, ExchangeAt(c, s));
  }

  lemma {:induction false} MarketEffect<S>(env: Env<S>, c: Core<S>, s: int, id: int)
    requires id in ExchangeAt(c, s).orders
    ensures
      var ex := ExchangeAt(c, s);
      var fallback := if s in c.truth then Some(c.truth[s].price) else None;
      var eff := MarketAck(env, c, s, id);
      var (ex1, r) := FillMarket(ex, id, fallback).value;
      && eff.Effect? && DeskOf(eff.core) == DeskOf(c) && !eff.early
      && if r.status == PartiallyFilled then
           && ForceCancel(ex1, id).Some?
           && eff.core.exchanges == c.exchanges[s := ForceCancel(ex1, id).value.0]
           && |eff.pushes| == 2 && eff.pushes[0].kind == EvReport(r)
           && eff.pushes[1].kind == EvReport(ForceCancel(ex1, id).value.1)
         else
           && eff.core.exchanges == c.exchanges[s := ex1]
           && |eff.pushes| == 1 && eff.pushes[0].kind == EvReport(r)
  {
    hide Record, JobOf, MarketQuote;
  }

  lemma {:induction false} AckLife<S>(env: Env<S>, c: Core<S>, e: Event, q: Queue, next: int)
    requires Ready(env, c, e, q, next) && e.kind.EvAck?
    ensures
      var eff := Handle(env, c, e.kind);
      LifeAt(eff.core, PushAll(q, next, eff.pushes)) && !eff.early
  {
    var id, d := e.kind.id, DeskOf(c);
    HandleFresh(env, c, e.kind);
    AckFindsOrder(c.exchanges, d, e, q);
    var s := c.routes[id];
    var ex := ExchangeAt(c, s);
    ExchangeFacts(c, s);
    var eff := Handle(env, c, e.kind);
    if ex.orders[id].order.orderType == Market {
      var fallback := if s in c.truth then Some(c.truth[s].price) else None;
      MarketOutcome(ex, id, fallback);
      MarketEffect(env, c, s, id);
      assert eff == MarketAck(env, c, s, id);
      hide Handle, ExchangeAt, LifeOk, GoodExchange, PushAll, Room, FreshPushes, FillMarket, ForceCancel, MarketAck,
        OnlyChanges;
      AckMarketLife(env.cfg, c.exchanges, d, e, q, next, c.now, ex, fallback, eff.pushes);
    } else {
      var (ex', r) := AckNew(ex, id).value;
      assert eff.core.exchanges == c.exchanges[s := ex'] && DeskOf(eff.core) == d;
      assert |eff.pushes| == 1 && eff.pushes[0].kind == EvReport(r);
      hide Handle, ExchangeAt, LifeOk, GoodExchange, PushAll, Room, FreshPushes, AckNew;
      AckLimitLife(env.cfg, c.exchanges, d, e, q, next, c.now, ex, eff.pushes);
    }
  }

  lemma {:induction false} CancelRequestLife<S>(env: Env<S>, c: Core<S>, e: Event, q: Queue, next: int)
    requires Ready(env, c, e, q, next) && e.kind.EvCancel?
    ensures
      var eff := Handle(env, c, e.kind);
      LifeAt(eff.core, PushAll(q, next, eff.pushes))
  {
    var id, d := e.kind.id, DeskOf(c);
    HandleFresh(env, c, e.kind);
    var eff := Handle(env, c, e.kind);
    if id in c.routes && Cancel(ExchangeAt(c, c.routes[id]), id).Some? {
      var s := c.routes[id];
      ExchangeFacts(c, s);
      var ex := ExchangeAt(c, s);
      assert eff.core.exchanges == c.exchanges[s := Cancel(ex, id).value] && DeskOf(eff.core) == d;
      assert |eff.pushes| == 1 && eff.pushes[0].kind == EvCancelAck(id);
      hide Handle, ExchangeAt, LifeOk, GoodExchange, PushAll, Room, FreshPushes, Cancel;
      CancelLife(env.cfg, c.exchanges, d, e, q, next, c.now, ex, eff.pushes);
    } else {
      PopIgnored(c.exchanges, d, e, q);
      if id in c.routes {
        SameExchangeLife(c, q, c.routes[id]);
      }
    }
  }

  lemma {:induction false} CancelAckedLife<S>(env: Env<S>, c: Core<S>, e: Event, q: Queue, next: int)
    requires Ready(env, c, e, q, next) && e.kind.EvCancelAck?
    ensures
      var eff := Handle(env, c, e.kind);
      LifeAt(eff.core, PushAll(q, next, eff.pushes))
  {
    var id, d := e.kind.id, DeskOf(c);
    HandleFresh(env, c, e.kind);
    var eff := Handle(env, c, e.kind);
    if id in c.routes {
      ExchangeFacts(c, c.routes[id]);
    }
    if id in c.routes && AckCancel(ExchangeAt(c, c.routes[id]), id).Some? {
      var s := c.routes[id];
      var ex := ExchangeAt(c, s);
      assert eff.core.exchanges == c.exchanges[s := AckCancel(ex, id).value.0] && DeskOf(eff.core) == d;
      assert |eff.pushes| == 1 && eff.pushes[0].kind == EvReport(AckCancel(ex, id).value.1);
      hide Handle, ExchangeAt, LifeOk, GoodExchange, PushAll, Room, FreshPushes, AckCancel;
      CancelAckLife(env.cfg, c.exchanges, d, e, q, next, c.now, ex, eff.pushes);
    } else {
      StaleCancelAck(c.exchanges, d, e, q);
      if id in c.routes {
        SameExchangeLife(c, q, c.routes[id]);
      }
    }
  }

  lemma {:induction false} RetiredLife<S>(c: Core<S>, e: Event, q: Queue)
    requires e.kind.EvReport? && LifeAt(c, [e] + q)
    ensures LifeAt(Retire(c, e.kind.report), q)
  {
    var r := e.kind.report;
    if !IsTerminal(r.status) {
      NewsLife(c.exchanges, DeskOf(c), e, q);
    } else if r.orderId !in c.routes {
      RefusedLife(c.exchanges, DeskOf(c), e, q);
    } else {
      var s := c.routes[r.orderId];
      ExchangeFacts(c, s);
      hide LifeOk, GoodExchange, ExchangeAt, Remove;
      RetireLife(c.exchanges, DeskOf(c), e, q, ExchangeAt(c, s));
    }
  }

  lemma {:induction false} ReportLife<S(!new)>(env: Env<S>, c: Core<S>, e: Event, q: Queue, next: int)
    requires Ready(env, c, e, q, next) && e.kind.EvReport? && GoodStrategy(env)
    ensures
      var eff := Handle(env, c, e.kind);
      eff.Effect? ==> LifeAt(eff.core, PushAll(q, next, eff.pushes))
  {
    RetiredLife(c, e, q);
    var c1 := Retire(c, e.kind.report);
    assert c1.now == c.now;
    hide LifeOk, Room, Call, Retire, GoodStrategy;
    if env.cfg.mode == TickMode {
      CallLife(env, c1, q, next, OnReport(e.kind.report));
    }
  }

  lemma {:induction false} NotifiedStates(ex: Exchange, u: L3Update)
    ensures UpdateL3(ex, u).Some? ==> SameStates(ex.orders, UpdateL3(ex, u).value.orders)
  {
    hide OnL3;
  }

  lemma {:induction false} BookUpdateLife<S>(env: Env<S>, c: Core<S>, e: Event, q: Queue, next: int)
    requires Ready(env, c, e, q, next) && (e.kind.EvL2? || e.kind.EvL3?)
    requires e.kind.EvL2? ==> e.kind.l2.qty >= 0
    ensures
      var eff := Handle(env, c, e.kind);
      eff.Effect? ==> LifeAt(eff.core, PushAll(q, next, eff.pushes))
  {
    PopIgnored(c.exchanges, DeskOf(c), e, q);
    var eff := Handle(env, c, e.kind);
    if eff.Effect? {
      var s := if e.kind.EvL2? then e.kind.l2.symbolId else e.kind.l3.symbolId;
      var c1 := if e.kind.EvL2? then c.(l2Symbols := c.l2Symbols + {s}) else c.(l3Symbols := c.l3Symbols + {s});
      ExchangeFacts(c1, s);
      var ex := ExchangeAt(c1, s);
      if e.kind.EvL2? {
        StepKeepsGood(env.cfg.model, ex, OpL2(e.kind.l2));
      } else {
        StepKeepsGood(env.cfg.model, ex, OpL3(e.kind.l3));
        NotifiedStates(ex, e.kind.l3);
      }
      var ex' := eff.core.exchanges[s];
      assert eff.core.exchanges == c.exchanges[s := ex'];
      assert SameStates(OrdersAt(c.exchanges, s), ex'.orders);
      hide LifeOk, GoodExchange, Handle, ExchangeAt, UpdateL3, UpdateL2;
      RestateExchange(c.exchanges, DeskOf(c), q, s, ex');
    }
  }

  lemma {:induction false} OtherLife<S(!new)>(env: Env<S>, c: Core<S>, e: Event, q: Queue, next: int)
    requires Ready(env, c, e, q, next) && GoodStrategy(env)
    requires e.kind.EvDelivery? || e.kind.EvFunding? || e.kind.EvTimer?
    ensures
      var eff := Handle(env, c, e.kind);
      eff.Effect? ==> LifeAt(eff.core, PushAll(q, next, eff.pushes))
  {
    HandleFresh(env, c, e.kind);
    PopIgnored(c.exchanges, DeskOf(c), e, q);
    var eff := Handle(env, c, e.kind);
    hide LifeOk, Room, Call, GoodStrategy, Fund, PushAll, FundingMark;
    if e.kind.EvDelivery? {
      var tick := e.kind.tick;
      CallLife(env, c.(market := c.market[tick.symbolId := tick]), q, next, OnTick(tick));
      if env.cfg.mode == BatchMode {
        PushIgnored(env.cfg, c.exchanges, DeskOf(c), q, next, c.now, eff.pushes);
      }
    } else if e.kind.EvFunding? {
      var mark := FundingMark(c, e.kind.funding.symbolId);
      var c1 := if mark.Some? then c.(ledger := Fund(c.ledger, e.kind.funding, mark.value)) else c;
      CallLife(env, c1, q, next, OnFunding(e.kind.funding));
    } else {
      PushIgnored(env.cfg, c.exchanges, DeskOf(c), q, next, c.now, eff.pushes);
    }
  }

  // Whatever event is handled, ownership is intact afterwards.
  lemma {:induction false} HandleLife<S(!new)>(env: Env<S>, c: Core<S>, e: Event, q: Queue, next: int)
    requires Ready(env, c, e, q, next) && GoodStrategy(env)
    requires e.kind.EvL2? ==> e.kind.l2.qty >= 0
    ensures
      var eff := Handle(env, c, e.kind);
      eff.Effect? ==> LifeAt(eff.core, PushAll(q, next, eff.pushes))
  {
    hide LifeAt, Room, Handle, GoodStrategy, PushAll;
    match e.kind {
      case EvTick(_) => TickLife(env, c, e, q, next);
      case EvL2(_) => BookUpdateLife(env, c, e, q, next);
      case EvL3(_) => BookUpdateLife(env, c, e, q, next);
      case EvOrder(_) => OrderLife(env, c, e, q, next);
      case EvAck(_) => AckLife(env, c, e, q, next);
      case EvCancel(_) => CancelRequestLife(env, c, e, q, next);
      case EvCancelAck(_) => CancelAckedLife(env, c, e, q, next);
      case EvReport(_) => ReportLife(env, c, e, q, next);
      case _ => OtherLife(env, c, e, q, next);
    }
  }
}
