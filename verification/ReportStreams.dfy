// What the strategy hears about an order: the reports delivered so far and those still queued form
// one consistent account of its fills, with at most one terminal report, at the very end.
module ReportStreams {
  import opened Types
  import opened Ledgers
  import opened QueueModels
  import opened Exchanges
  import opened ExchangeProps
  import opened EventQueues
  import opened EngineSpec
  import opened EngineClock
  import opened QueueViews
  import opened Lifecycle
  import opened LifecycleSteps
  import opened LifecycleRun

  // The reports of one order among all that were delivered.
  function Of(history: seq<OrderReport>, id: int): seq<OrderReport> {
    if history == [] then []
    else
      var n := |history| - 1;
      Of(history[..n], id) + if history[n].orderId == id then [history[n]] else []
  }

  // The reports add up: each one's filled quantity is the sum of the fills reported so far, its
  // remaining quantity is the rest of the order, and in the end the given quantity is filled.
  ghost predicate Tells(rs: seq<OrderReport>, qty: int, filled: int) {
    if rs == [] then filled == 0
    else
      var r := rs[|rs| - 1];
      && r.filledQty == filled && r.remainingQty == qty - filled && r.lastFillQty >= 0
      && Tells(rs[..|rs| - 1], qty, filled - r.lastFillQty)
  }

  ghost predicate NoTerminal(rs: seq<OrderReport>) {
    forall i :: 0 <= i < |rs| ==> !IsTerminal(rs[i].status)
  }

  // A complete or incomplete account of one order.
  ghost predicate WellTold(rs: seq<OrderReport>) {
    && (exists qty, filled :: Tells(rs, qty, filled))
    && (rs == [] || NoTerminal(rs[..|rs| - 1]))
  }

  ghost predicate StreamOk(t: Trail, past: seq<OrderReport>) {
    if t.routed then
      && NoTerminal(past)
      && match t.live
         case Some(o) => Tells(past + t.pending, o.order.qty, o.filled)
         case None => past == []
    else WellTold(past + t.pending) && (!t.issued ==> past == [])
  }

  ghost predicate Streams(history: seq<OrderReport>, xs: Venues, d: Desk, q: Queue) {
    forall id :: StreamOk(TrailOf(xs, d, q, id), Of(history, id))
  }

  // ---- Sequences of reports --------------------------------------------------------------------

  lemma {:induction false} TellsMore(rs: seq<OrderReport>, qty: int, filled: int, r: OrderReport)
    requires Tells(rs, qty, filled)
    requires r.lastFillQty >= 0 && r.filledQty == filled + r.lastFillQty && r.remainingQty == qty - r.filledQty
    ensures Tells(rs + [r], qty, r.filledQty)
  {
    assert (rs + [r])[..|rs|] == rs;
  }

  lemma {:induction false} TellsPrefix(rs: seq<OrderReport>, n: nat, qty: int, filled: int)
    requires Tells(rs, qty, filled) && n <= |rs|
    ensures exists part :: Tells(rs[..n], qty, part)
    decreases |rs| - n
  {
    if n == |rs| {
      assert rs[..n] == rs;
    } else {
      var init := rs[..|rs| - 1];
      TellsPrefix(init, n, qty, filled - rs[|rs| - 1].lastFillQty);
      assert init[..n] == rs[..n];
    }
  }

  // What was delivered is itself a good account, whatever is still on its way.
  lemma {:induction false} DeliveredWellTold(past: seq<OrderReport>, rest: seq<OrderReport>)
    requires WellTold(past + rest)
    ensures WellTold(past)
  {
    var all := past + rest;
    var qty, filled :| Tells(all, qty, filled);
    TellsPrefix(all, |past|, qty, filled);
    assert all[..|past|] == past;
    if past != [] {
      var init, longer := past[..|past| - 1], all[..|all| - 1];
      forall i | 0 <= i < |init| ensures !IsTerminal(init[i].status) {
        assert longer[i] == init[i];
      }
    }
  }

  // A routed order's stream is well told too.
  lemma {:induction false} RoutedWellTold(t: Trail, past: seq<OrderReport>)
    requires TrailOk(t) && StreamOk(t, past)
    ensures WellTold(past + t.pending)
  {
    if t.routed {
      var all := past + t.pending;
      if t.live.Some? {
        assert Tells(all, t.live.value.order.qty, t.live.value.filled);
        if all != [] {
          var init := all[..|all| - 1];
          forall i | 0 <= i < |init| ensures !IsTerminal(init[i].status) {
            assert init[i] == if i < |past| then past[i] else t.pending[i - |past|];
          }
        }
      } else {
        assert Tells(all, 0, 0);
      }
    }
  }

  lemma {:induction false} OfAppend(history: seq<OrderReport>, r: OrderReport, id: int)
    ensures Of(history + [r], id) == Of(history, id) + if r.orderId == id then [r] else []
  {
    assert (history + [r])[..|history|] == history;
  }

  // ---- Streams the step does not touch -----------------------------------------------------------

  lemma {:induction false} KeptStream(
    xs: Venues, d: Desk, q: Queue, xs': Venues, d': Desk, q': Queue, id: int, past: seq<OrderReport>)
    requires StreamOk(TrailOf(xs, d, q, id), past) && d.nextOrderId <= d'.nextOrderId
    requires id in d.routes <==> id in d'.routes
    requires id in d.routes ==>
               && d'.routes[id] == d.routes[id]
               && SameFills(LiveIn(xs, d.routes[id], id), LiveIn(xs', d.routes[id], id))
    requires ReportsFor(q', id) == ReportsFor(q, id)
    ensures StreamOk(TrailOf(xs', d', q', id), past)
  {
    hide ReportsFor, Tally, Arriving, Tells, LiveIn, WellTold;
  }

  ghost predicate SameFills(a: Option<LiveOrder>, b: Option<LiveOrder>) {
    && (a.Some? <==> b.Some?)
    && (a.Some? ==> a.value.order == b.value.order && a.value.filled == b.value.filled)
  }

  // The stream of a live order after a step that may add reports for it.
  lemma {:induction false} LiveStream(
    cfg: Config, xs: Venues, d: Desk, e: Event, q: Queue, next: int, now: int, id: int, ex: Exchange, ps: seq<Push>,
    past: seq<OrderReport>)
    requires StreamOk(TrailOf(xs, d, [e] + q, id), past) && Room(cfg, q, next, now) && FreshPushes(cfg, now, ps)
    requires !e.kind.EvReport? && id in d.routes && LiveIn(xs, d.routes[id], id).Some? && id in ex.orders
    requires Tells(past + ReportsFor(q, id) + ReportsPushed(ps, id), ex.orders[id].order.qty, ex.orders[id].filled)
    ensures StreamOk(TrailOf(xs[d.routes[id] := ex], d, PushAll(q, next, ps), id), past)
  {
    hide PushAll, ReportsFor, OrdersIn, Tally, Room, FreshPushes, ReportsPushed, Tells, Arriving;
    RoomViews(cfg, q, next, now, ps, id);
    Assoc(past, ReportsFor(q, id), ReportsPushed(ps, id));
  }

  // Before the step, in the shape LiveStream wants it.
  lemma {:induction false} ToldSoFar(xs: Venues, d: Desk, e: Event, q: Queue, id: int, past: seq<OrderReport>)
    requires StreamOk(TrailOf(xs, d, [e] + q, id), past) && !e.kind.EvReport?
    requires id in d.routes && LiveIn(xs, d.routes[id], id).Some?
    ensures
      var o := LiveIn(xs, d.routes[id], id).value;
      Tells(past + ReportsFor(q, id), o.order.qty, o.filled)
  {
    PopViews(e, q, id);
    hide ReportsFor, Tells, Tally, Arriving;
    Assoc(ReportsFor(q, id), [], []);
  }

  lemma {:induction false} ChangesHas(before: OrderMap, after: OrderMap, id: int)
    requires OnlyChanges(before, after, id)
    ensures id in after
  {
  }

  lemma {:induction false} OtherStream(
    cfg: Config, xs: Venues, d: Desk, e: Event, q: Queue, next: int, now: int, id: int, ex: Exchange, ps: seq<Push>,
    other: int, past: seq<OrderReport>)
    requires StreamOk(TrailOf(xs, d, [e] + q, other), past) && Room(cfg, q, next, now) && FreshPushes(cfg, now, ps)
    requires id in d.routes && other != id && !Concerns(e.kind, other) && Leaves(ps, other)
    requires OnlyChanges(OrdersAt(xs, d.routes[id]), ex.orders, id)
    ensures StreamOk(TrailOf(xs[d.routes[id] := ex], d, PushAll(q, next, ps), other), past)
  {
    hide PushAll, Tally, ReportsFor, Arriving, StreamOk, TrailOf, Room, FreshPushes, Concerns;
    QuietPop(e, q, other);
    QuietPush(cfg, q, next, now, ps, other);
    KeptStream(xs, d, [e] + q, xs[d.routes[id] := ex], d, PushAll(q, next, ps), other, past);
  }

  // One order changes and is reported on; every other stream is untouched.
  lemma {:induction false} ReportingStreams(
    cfg: Config, history: seq<OrderReport>, xs: Venues, d: Desk, e: Event, q: Queue, next: int, now: int, id: int,
    ex: Exchange, ps: seq<Push>)
    requires Streams(history, xs, d, [e] + q) && Room(cfg, q, next, now) && FreshPushes(cfg, now, ps)
    requires (e.kind.EvAck? || e.kind.EvCancel? || e.kind.EvCancelAck?) && e.kind.id == id
    requires id in d.routes && LiveIn(xs, d.routes[id], id).Some?
    requires forall other :: other != id ==> Leaves(ps, other)
    requires OnlyChanges(OrdersAt(xs, d.routes[id]), ex.orders, id)
    requires Tells(Of(history, id) + ReportsFor(q, id) + ReportsPushed(ps, id), ex.orders[id].order.qty,
                   ex.orders[id].filled)
    ensures Streams(history, xs[d.routes[id] := ex], d, PushAll(q, next, ps))
  {
    var s, q' := d.routes[id], PushAll(q, next, ps);
    var xs' := xs[s := ex];
    forall other ensures StreamOk(TrailOf(xs', d, q', other), Of(history, other)) {
      assert StreamOk(TrailOf(xs, d, [e] + q, other), Of(history, other));
      hide PushAll, ReportsFor, Room, FreshPushes, ReportsPushed, Tells, StreamOk, TrailOf, Of, OnlyChanges, LiveIn,
        Leaves;
      if other == id {
        assert id in ex.orders by {
          assert OnlyChanges(OrdersAt(xs, d.routes[id]), ex.orders, id);
          ChangesHas(OrdersAt(xs, d.routes[id]), ex.orders, id);
        }
        LiveStream(cfg, xs, d, e, q, next, now, id, ex, ps, Of(history, id));
      } else {
        OtherStream(cfg, xs, d, e, q, next, now, id, ex, ps, other, Of(history, other));
      }
    }
  }

  // ---- Handlers -----------------------------------------------------------------------------------

  ghost predicate StreamsAt<S>(history: seq<OrderReport>, c: Core<S>, q: Queue) {
    Streams(history, c.exchanges, DeskOf(c), q)
  }

  lemma {:induction false} NoReportsPushed(ps: seq<Push>, id: int)
    requires forall p :: p in ps ==> !p.kind.EvReport?
    ensures ReportsPushed(ps, id) == []
  {
    if ps != [] {
      assert ps[0] in ps;
      NoReportsPushed(ps[1..], id);
    }
  }

  // An order that has just arrived has nothing to tell yet.
  lemma {:induction false} QuietNewcomer(
    xs: Venues, d: Desk, q: Queue, xs': Venues, q': Queue, id: int, past: seq<OrderReport>)
    requires StreamOk(TrailOf(xs, d, q, id), past) && id in d.routes && LiveIn(xs, d.routes[id], id).None?
    requires ReportsFor(q', id) == ReportsFor(q, id) == []
    requires LiveIn(xs', d.routes[id], id).Some? && LiveIn(xs', d.routes[id], id).value.filled == 0
    ensures StreamOk(TrailOf(xs', d, q', id), past)
  {
    hide ReportsFor, Tally, Arriving, LiveIn;
    Assoc(past, [], []);
    assert Tells([], LiveIn(xs', d.routes[id], id).value.order.qty, 0);
  }

  lemma {:induction false} QuietStream(
    cfg: Config, xs: Venues, d: Desk, e: Event, q: Queue, next: int, now: int, s: int, ex: Exchange, ps: seq<Push>,
    id: int, past: seq<OrderReport>)
    requires StreamOk(TrailOf(xs, d, [e] + q, id), past) && TrailOk(TrailOf(xs, d, [e] + q, id))
    requires Room(cfg, q, next, now) && FreshPushes(cfg, now, ps)
    requires !e.kind.EvReport? && forall p :: p in ps ==> !p.kind.EvReport?
    requires forall id :: id in OrdersAt(xs, s) ==>
               id in ex.orders && ex.orders[id].order == OrdersAt(xs, s)[id].order
               && ex.orders[id].filled == OrdersAt(xs, s)[id].filled
    requires forall id :: id in ex.orders && id !in OrdersAt(xs, s) ==> ex.orders[id].filled == 0
    ensures StreamOk(TrailOf(xs[s := ex], d, PushAll(q, next, ps), id), past)
  {
    var xs', q' := xs[s := ex], PushAll(q, next, ps);
    PopViews(e, q, id);
    NoReportsPushed(ps, id);
    hide PushAll, ReportsFor, Tally, OrdersIn, Arriving, Room, FreshPushes, ReportsPushed;
    Assoc(ReportsFor(q, id), [], []);
    RoomViews(cfg, q, next, now, ps, id);
    if id in d.routes && LiveIn(xs', d.routes[id], id).Some? && LiveIn(xs, d.routes[id], id).None? {
      QuietNewcomer(xs, d, [e] + q, xs', q', id, past);
    } else {
      hide StreamOk, TrailOf;
      KeptStream(xs, d, [e] + q, xs', d, q', id, past);
    }
  }

  // Whatever leaves an order's exchange state and reports alone leaves its stream alone.
  lemma {:induction false} QuietStreams(
    cfg: Config, history: seq<OrderReport>, xs: Venues, d: Desk, e: Event, q: Queue, next: int, now: int, s: int,
    ex: Exchange, ps: seq<Push>)
    requires Streams(history, xs, d, [e] + q) && Room(cfg, q, next, now) && FreshPushes(cfg, now, ps)
    requires !e.kind.EvReport? && forall p :: p in ps ==> !p.kind.EvReport?
    requires Trails(xs, d, [e] + q)
    requires forall id :: id in OrdersAt(xs, s) ==>
               id in ex.orders && ex.orders[id].order == OrdersAt(xs, s)[id].order
               && ex.orders[id].filled == OrdersAt(xs, s)[id].filled
    requires forall id :: id in ex.orders && id !in OrdersAt(xs, s) ==> ex.orders[id].filled == 0
    ensures Streams(history, xs[s := ex], d, PushAll(q, next, ps))
  {
    var xs', q' := xs[s := ex], PushAll(q, next, ps);
    forall id ensures StreamOk(TrailOf(xs', d, q', id), Of(history, id)) {
      assert StreamOk(TrailOf(xs, d, [e] + q, id), Of(history, id));
      assert TrailOk(TrailOf(xs, d, [e] + q, id));
      hide StreamOk, TrailOk, TrailOf, Of, PushAll, Room, FreshPushes;
      QuietStream(cfg, xs, d, e, q, next, now, s, ex, ps, id, Of(history, id));
    }
  }

  // No exchange is touched at all.
  lemma {:induction false} IdleStreams(
    cfg: Config, history: seq<OrderReport>, xs: Venues, d: Desk, e: Event, q: Queue, next: int, now: int, ps: seq<Push>)
    requires Streams(history, xs, d, [e] + q) && Room(cfg, q, next, now) && FreshPushes(cfg, now, ps)
    requires !e.kind.EvReport? && forall p :: p in ps ==> !p.kind.EvReport?
    ensures Streams(history, xs, d, PushAll(q, next, ps))
  {
    var q' := PushAll(q, next, ps);
    forall id ensures StreamOk(TrailOf(xs, d, q', id), Of(history, id)) {
      assert StreamOk(TrailOf(xs, d, [e] + q, id), Of(history, id));
      PopViews(e, q, id);
      NoReportsPushed(ps, id);
      hide PushAll, ReportsFor, Tally, OrdersIn, Arriving, Room, FreshPushes, ReportsPushed, Of, StreamOk, TrailOf;
      Assoc(ReportsFor(q, id), [], []);
      RoomViews(cfg, q, next, now, ps, id);
      KeptStream(xs, d, [e] + q, xs, d, q', id, Of(history, id));
    }
  }

  lemma {:induction false} AckNewTold(ex: Exchange, id: int, rs: seq<OrderReport>)
    requires GoodExchange(ex) && AckNew(ex, id).Some?
    requires Tells(rs, ex.orders[id].order.qty, ex.orders[id].filled)
    ensures
      var (ex', r) := AckNew(ex, id).value;
      Tells(rs + [r], ex'.orders[id].order.qty, ex'.orders[id].filled)
  {
    assert GoodOrder(id, ex.orders[id]);
    hide Tells, GoodExchange, BucketsOk;
    var o := ex.orders[id];
    TellsMore(rs, o.order.qty, o.filled, AckNew(ex, id).value.1);
  }

  lemma {:induction false} AckCancelTold(ex: Exchange, id: int, rs: seq<OrderReport>)
    requires GoodExchange(ex) && AckCancel(ex, id).Some?
    requires Tells(rs, ex.orders[id].order.qty, ex.orders[id].filled)
    ensures
      var (ex', r) := AckCancel(ex, id).value;
      Tells(rs + [r], ex'.orders[id].order.qty, ex'.orders[id].filled)
  {
    assert GoodOrder(id, ex.orders[id]);
    hide Tells, GoodExchange;
    var o := ex.orders[id];
    TellsMore(rs, o.order.qty, o.filled, AckCancel(ex, id).value.1);
  }

  lemma {:induction false} MarketTold(ex: Exchange, id: int, fallback: Option<int>, rs: seq<OrderReport>)
    requires GoodExchange(ex) && id in ex.orders && ex.orders[id].state == PendingNew
    requires Tells(rs, ex.orders[id].order.qty, ex.orders[id].filled)
    ensures FillMarket(ex, id, fallback).Some?
    ensures
      var (ex1, r) := FillMarket(ex, id, fallback).value;
      if r.status == PartiallyFilled then
        ForceCancel(ex1, id).Some? &&
        var (ex2, r2) := ForceCancel(ex1, id).value;
        Tells(rs + [r, r2], ex2.orders[id].order.qty, ex2.orders[id].filled)
      else Tells(rs + [r], ex1.orders[id].order.qty, ex1.orders[id].filled)
  {
    assert GoodOrder(id, ex.orders[id]);
    QuotePositive(ex, ex.orders[id].order.side, fallback);
    hide Tells, GoodExchange, MarketQuote;
    var o := ex.orders[id];
    var (ex1, r) := FillMarket(ex, id, fallback).value;
    TellsMore(rs, o.order.qty, o.filled, r);
    if r.status == PartiallyFilled {
      var r2 := ForceCancel(ex1, id).value.1;
      TellsMore(rs + [r], o.order.qty, r.filledQty, r2);
      assert rs + [r] + [r2] == rs + [r, r2];
    }
  }

  lemma {:induction false} OfferTold(o: LiveOrder, trade: Tick, rs: seq<OrderReport>)
    requires o.filled + o.remaining == o.order.qty && Tells(rs, o.order.qty, o.filled)
    ensures
      var (o', more) := Offer(o, trade);
      Tells(rs + more, o'.order.qty, o'.filled)
  {
    FillBounds(o.order, if o.remaining >= 0 then o.remaining else 0, trade, o.q);
    hide Tells, CheckFill;
    Assoc(rs, [], []);
    var (o', more) := Offer(o, trade);
    if more != [] {
      TellsMore(rs, o.order.qty, o.filled, more[0]);
      assert more == [more[0]];
    }
  }

  lemma {:induction false} TradeStream(
    cfg: Config, xs: Venues, d: Desk, e: Event, q: Queue, next: int, now: int, s: int,
    ex: Exchange, trade: Tick, ps: seq<Push>, id: int, past: seq<OrderReport>)
    requires e.kind.EvTick? && World(xs, d) && StreamOk(TrailOf(xs, d, [e] + q, id), past)
    requires Room(cfg, q, next, now) && FreshPushes(cfg, now, ps)
    requires GoodExchange(ex) && ex.orders == OrdersAt(xs, s)
    requires exists ts :: ps == ReportPushes(ts, OnTrade(ex, trade).1)
    ensures StreamOk(TrailOf(xs[s := OnTrade(ex, trade).0], d, PushAll(q, next, ps), id), past)
  {
    var ex' := OnTrade(ex, trade).0;
    var ts :| ps == ReportPushes(ts, OnTrade(ex, trade).1);
    TradePointwise(ex, trade);
    TradeReportsFor(ex, trade, ts, id);
    OwnedHere(xs, d, s);
    if id in ex.orders {
      assert GoodOrder(id, ex.orders[id]);
      ToldSoFar(xs, d, e, q, id, past);
      OfferTold(ex.orders[id], trade, past + ReportsFor(q, id));
      hide OnTrade, Offer, ReportPushes, PushAll, ReportsFor, Tally, Room, FreshPushes, ReportsPushed, GoodExchange,
        Tells, StreamOk,
        TrailOf, World;
      LiveStream(cfg, xs, d, e, q, next, now, id, ex', ps, past);
    } else {
      hide OnTrade, Offer, ReportPushes, PushAll, ReportsFor, Tally, Room, FreshPushes, ReportsPushed, GoodExchange,
        Tells, StreamOk,
        TrailOf, World;
      PopViews(e, q, id);
      Assoc(ReportsFor(q, id), [], []);
      RoomViews(cfg, q, next, now, ps, id);
      KeptStream(xs, d, [e] + q, xs[s := ex'], d, PushAll(q, next, ps), id, past);
    }
  }

  lemma {:induction false} TradeStreams(
    cfg: Config, history: seq<OrderReport>, xs: Venues, d: Desk, e: Event, q: Queue, next: int, now: int, s: int,
    ex: Exchange, trade: Tick, ps: seq<Push>)
    requires e.kind.EvTick? && World(xs, d) && Streams(history, xs, d, [e] + q)
    requires Room(cfg, q, next, now) && FreshPushes(cfg, now, ps)
    requires GoodExchange(ex) && ex.orders == OrdersAt(xs, s)
    requires exists ts :: ps == ReportPushes(ts, OnTrade(ex, trade).1)
    ensures Streams(history, xs[s := OnTrade(ex, trade).0], d, PushAll(q, next, ps))
  {
    var xs', q' := xs[s := OnTrade(ex, trade).0], PushAll(q, next, ps);
    forall id ensures StreamOk(TrailOf(xs', d, q', id), Of(history, id)) {
      assert StreamOk(TrailOf(xs, d, [e] + q, id), Of(history, id));
      TradeStream(cfg, xs, d, e, q, next, now, s, ex, trade, ps, id, Of(history, id));
    }
  }

  // ---- A report is delivered ------------------------------------------------------------------------

  lemma {:induction false} DeliveredTrail(
    t: Trail, t': Trail, past: seq<OrderReport>, past': seq<OrderReport>, r: OrderReport, mine: bool)
    requires TrailOk(t) && StreamOk(t, past)
    requires t'.issued == t.issued && (t'.routed ==> t.routed && t'.live == t.live)
    requires
      if mine then t.pending == [r] + t'.pending && past' == past + [r]
      else t.pending == t'.pending && past' == past
    requires t'.routed <==> (t.routed && (mine ==> !IsTerminal(r.status)))
    ensures StreamOk(t', past')
  {
    hide Tells;
    if mine {
      assert t.pending[0] == r;
      Assoc(past, [r], t'.pending);
      hide WellTold;
      RoutedWellTold(t, past);
    }
  }

  // Delivering a report moves it from the queue to the past; the account is the same.
  lemma {:induction false} DeliveredStream(
    history: seq<OrderReport>, xs: Venues, d: Desk, e: Event, q: Queue, xs': Venues, d': Desk, id: int)
    requires e.kind.EvReport? && TrailOk(TrailOf(xs, d, [e] + q, id))
             && StreamOk(TrailOf(xs, d, [e] + q, id), Of(history, id))
    requires d'.nextOrderId == d.nextOrderId
    requires id in d'.routes ==>
               (id in d.routes && d'.routes[id] == d.routes[id]
                && LiveIn(xs', d.routes[id], id) == LiveIn(xs, d.routes[id], id))
    requires e.kind.report.orderId == id ==> (id in d'.routes <==> id in d.routes && !IsTerminal(e.kind.report.status))
    requires e.kind.report.orderId != id ==> (id in d'.routes <==> id in d.routes)
    ensures StreamOk(TrailOf(xs', d', q, id), Of(history + [e.kind.report], id))
  {
    var r := e.kind.report;
    OfAppend(history, r, id);
    PopViews(e, q, id);
    Assoc(Of(history, id), [], []);
    Assoc(ReportsFor(q, id), [], []);
    var t, t' := TrailOf(xs, d, [e] + q, id), TrailOf(xs', d', q, id);
    hide Of, ReportsFor, Tally, Arriving, LiveIn, StreamOk, TrailOk;
    DeliveredTrail(t, t', Of(history, id), Of(history + [r], id), r, r.orderId == id);
  }

  // ---- Commands ----------------------------------------------------------------------------------------

  // A new order has told nothing, or that it was refused.
  lemma {:induction false} NewStream(p: Push, rs: seq<OrderReport>)
    requires rs == [] || (p.kind.EvReport? && rs == [p.kind.report] && p.kind.report.filledQty == 0
                          && p.kind.report.lastFillQty == 0)
    ensures WellTold(rs)
  {
    if rs == [] {
      assert Tells(rs, 0, 0);
    } else {
      assert rs[..0] == [];
      assert Tells(rs, p.kind.report.remainingQty, 0);
    }
  }

  lemma {:induction false} CommandStream(
    cfg: Config, l: Ledger, xs: Venues, d: Desk, q: Queue, next: int, now: int, cmd: Command, id: int,
    past: seq<OrderReport>)
    requires GoodConfig(cfg) && Room(cfg, q, next, now) && LifeOk(xs, d, q)
    requires StreamOk(TrailOf(xs, d, q, id), past)
    ensures
      var (d', p) := OneCommand(cfg, l, d, cmd, now);
      StreamOk(TrailOf(xs, d', PushAll(q, next, [p]), id), past)
  {
    var (d', p) := OneCommand(cfg, l, d, cmd, now);
    var q' := PushAll(q, next, [p]);
    OneFresh(cfg, l, d, cmd, now);
    OnePushed(p, id);
    NewIdIsFree(xs, d, q);
    hide PushAll, ReportsFor, OrdersIn, Tally, Arriving, Room, FreshPush, LifeOk, ReportsPushed;
    RoomViews(cfg, q, next, now, [p], id);
    if id == d.nextOrderId {
      assert past == [];
      NewStream(p, past + ReportsFor(q', id));
    } else {
      Assoc(ReportsFor(q, id), [], []);
      hide StreamOk, TrailOf;
      KeptStream(xs, d, q, xs, d', q', id, past);
    }
  }

  lemma {:induction false} CommandsStreams(
    cfg: Config, l: Ledger, history: seq<OrderReport>, xs: Venues, d: Desk, q: Queue, next: int, now: int,
    cmds: seq<Command>)
    requires GoodConfig(cfg) && Room(cfg, q, next, now) && LifeOk(xs, d, q) && GoodCommands(cmds)
    requires Streams(history, xs, d, q)
    ensures
      var (d', ps) := Commands(cfg, l, d, cmds, now);
      Streams(history, xs, d', PushAll(q, next, ps))
    decreases cmds
  {
    hide LifeOk, Room, OneCommand;
    if cmds != [] {
      var (d1, p) := OneCommand(cfg, l, d, cmds[0], now);
      CommandLife(cfg, l, xs, d, q, next, now, cmds[0]);
      forall id ensures StreamOk(TrailOf(xs, d1, PushAll(q, next, [p]), id), Of(history, id)) {
        assert StreamOk(TrailOf(xs, d, q, id), Of(history, id));
        CommandStream(cfg, l, xs, d, q, next, now, cmds[0], id, Of(history, id));
      }
      OneFresh(cfg, l, d, cmds[0], now);
      RoomAfter(cfg, q, next, now, [p]);
      var (d2, ps) := Commands(cfg, l, d1, cmds[1..], now);
      CommandsStreams(cfg, l, history, xs, d1, PushAll(q, next, [p]), next + 1, now, cmds[1..]);
      PushAllAppend(q, next, [p], ps);
    }
  }
}
