// Every order a run has placed, retired ones included: what the strategy is told of it is about the
// quantity that was submitted, what the log holds for it is what it was told, at the order's own terms.
module PlacedOrders {
  import opened Types
  import opened Arith
  import opened Stats
  import opened Ledgers
  import opened QueueModels
  import opened Exchanges
  import opened EventQueues
  import opened Feeds
  import opened EngineSpec
  import opened EngineClock
  import opened QueueViews
  import opened Lifecycle
  import opened LifecycleSteps
  import opened LifecycleRun
  import opened ReportStreams
  import opened StreamSteps
  import opened EngineMoney
  import opened PositionBound
  import opened EngineInvariant
  import opened EngineGuarantees
  import opened OrderHistories
  import opened OrderFees

  // ---- The orders placed -----------------------------------------------------------------------------

  function Received<S>(m: map<int, Order>, o: Outcome<S>): map<int, Order> {
    if o.Stepped? then Arrived(m, o.event.kind) else m
  }

  function Arrived(m: map<int, Order>, kind: EventKind): map<int, Order> {
    if kind.EvOrder? then m[kind.order.orderId := kind.order] else m
  }

  // The orders that reached an exchange in the first n iterations, as they were submitted.
  function Placed<S>(env: Env<S>, e: Engine<S>, n: nat): map<int, Order> {
    if n == 0 then map[]
    else
      match After(env, e, n - 1)
      case None => map[]
      case Some(last) => Received(Placed(env, e, n - 1), Advance(env, last))
  }

  // All that is told of an order: what was delivered, then what is still queued.
  function Story(history: seq<OrderReport>, q: Queue, id: int): seq<OrderReport> {
    Of(history, id) + ReportsFor(q, id)
  }

  // The filled quantity told last.
  function ToldQty(rs: seq<OrderReport>): int {
    if rs == [] then 0 else rs[|rs| - 1].filledQty
  }

  ghost predicate Gone(xs: Venues, id: int) {
    forall s :: LiveIn(xs, s, id).None?
  }

  // A finished account of an order of this quantity.
  ghost predicate Closed(rs: seq<OrderReport>, qty: int) {
    rs != [] && IsTerminal(rs[|rs| - 1].status) && Tells(rs, qty, ToldQty(rs))
  }

  ghost predicate LiveAsPlaced(placed: map<int, Order>, xs: Venues) {
    forall s, id :: LiveIn(xs, s, id).Some? ==> id in placed && LiveIn(xs, s, id).value.order == placed[id]
  }

  ghost predicate ClosedWhenGone(placed: map<int, Order>, history: seq<OrderReport>, xs: Venues, d: Desk, q: Queue) {
    forall id :: id in placed ==>
      && id < d.nextOrderId
      && (Gone(xs, id) ==> id !in d.routes && Closed(Story(history, q, id), placed[id].qty))
  }

  // At most one report, and it ends the matter.
  ghost predicate AtMostOnce(rs: seq<OrderReport>, tracked: bool) {
    rs == [] || (|rs| == 1 && IsTerminal(rs[0].status) && !tracked)
  }

  // An id that has not been placed is on its way, or has been refused and is told so once.
  ghost predicate HeardOnce(placed: map<int, Order>, history: seq<OrderReport>, d: Desk, q: Queue) {
    forall id :: id !in placed ==>
      && AtMostOnce(Story(history, q, id), id in d.routes)
      && (Story(history, q, id) != [] ==> id < d.nextOrderId)
  }

  ghost predicate Accounted(placed: map<int, Order>, history: seq<OrderReport>, xs: Venues, d: Desk, q: Queue) {
    LiveAsPlaced(placed, xs) && ClosedWhenGone(placed, history, xs, d, q) && HeardOnce(placed, history, d, q)
  }

  // What is told goes on from what was told, and only what was queued has been delivered meanwhile.
  ghost predicate ToldOn(h: seq<OrderReport>, q: Queue, h': seq<OrderReport>, q': Queue, id: int) {
    Story(h, q, id) <= Story(h', q', id) && Of(h', id) <= Story(h, q, id)
  }

  // What the log holds for an order is what was told of it, at the order's own terms.
  ghost predicate Matches(bps: int, order: Order, fills: seq<TradeFill>, rs: seq<OrderReport>) {
    LoggedQty(fills) == ToldQty(rs) && Terms(order, bps, fills)
  }

  ghost predicate Charged(
    bps: int, placed: map<int, Order>, history: seq<OrderReport>, fills: seq<TradeFill>, xs: Venues, q: Queue)
  {
    && (forall id :: id in placed && Gone(xs, id) ==>
          Matches(bps, placed[id], Mine(fills, id), Story(history, q, id)))
    && (forall id :: id !in placed ==> Mine(fills, id) == [])
  }

  // ---- From one state to the next -----------------------------------------------------------------------

  // Orders live afterwards were live before, as they are, or have just arrived; orders that have left
  // were finished, and are tracked no more.
  ghost predicate Follows(xs: Venues, xs': Venues, d: Desk, d': Desk, arrival: Option<Order>) {
    && (forall s, id :: LiveIn(xs', s, id).Some? ==> SameOrNew(xs, xs', s, id, arrival))
    && (forall s, id :: LiveIn(xs, s, id).Some? && LiveIn(xs', s, id).None? ==>
          IsTerminal(LiveIn(xs, s, id).value.state) && id !in d'.routes)
    && RoutesGrow(d, d')
    && (arrival.Some? ==>
          LiveIn(xs', arrival.value.symbolId, arrival.value.orderId).Some? && arrival.value.orderId < d'.nextOrderId)
  }

  ghost predicate SameOrNew(xs: Venues, xs': Venues, s: int, id: int, arrival: Option<Order>)
    requires LiveIn(xs', s, id).Some?
  {
    if arrival.Some? && arrival.value.orderId == id then LiveIn(xs', s, id).value.order == arrival.value
    else LiveIn(xs, s, id).Some? && LiveIn(xs, s, id).value.order == LiveIn(xs', s, id).value.order
  }

  function With(placed: map<int, Order>, arrival: Option<Order>): map<int, Order> {
    if arrival.Some? then placed[arrival.value.orderId := arrival.value] else placed
  }

  // A finished account cannot go on.
  lemma {:induction false} ClosedStays(rs: seq<OrderReport>, rs': seq<OrderReport>, qty: int)
    requires Closed(rs, qty) && rs <= rs' && WellTold(rs')
    ensures rs' == rs
  {
    if |rs'| > |rs| {
      assert false;
    }
  }

  // The account of an order that is about to leave is finished.
  lemma {:induction false} ClosedAtLast(t: Trail, past: seq<OrderReport>)
    requires TrailOk(t) && StreamOk(t, past) && t.routed && t.live.Some? && IsTerminal(t.live.value.state)
    ensures Closed(past + t.pending, t.live.value.order.qty)
  {
    var rs := past + t.pending;
    assert rs[|rs| - 1] == t.pending[|t.pending| - 1];
  }

  ghost predicate Sane(history: seq<OrderReport>, xs: Venues, d: Desk, q: Queue) {
    LifeOk(xs, d, q) && Streams(history, xs, d, q)
  }

  lemma {:induction false} GoneIsClosed(
    placed: map<int, Order>, h: seq<OrderReport>, xs: Venues, d: Desk, q: Queue,
    h': seq<OrderReport>, xs': Venues, d': Desk, q': Queue, arrival: Option<Order>, id: int)
    requires Sane(h, xs, d, q) && Sane(h', xs', d', q') && Accounted(placed, h, xs, d, q)
    requires Follows(xs, xs', d, d', arrival) && ToldOn(h, q, h', q', id)
    requires id in placed && Gone(xs', id)
    ensures id !in d'.routes && Story(h', q', id) == Story(h, q, id) && Closed(Story(h, q, id), placed[id].qty)
  {
    assert StreamOk(TrailOf(xs', d', q', id), Of(h', id));
    if Gone(xs, id) {
      assert id !in d.routes && id < d.nextOrderId;
    } else {
      var s :| LiveIn(xs, s, id).Some?;
      assert LiveIn(xs', s, id).None?;
      assert OwnOrders(xs[s].orders, d, s);
      var t := TrailOf(xs, d, q, id);
      assert TrailOk(t) && StreamOk(t, Of(h, id));
      hide TrailOk, StreamOk, LifeOk, Streams, ReportsFor, Of;
      ClosedAtLast(t, Of(h, id));
    }
    hide Tells;
    ClosedStays(Story(h, q, id), Story(h', q', id), placed[id].qty);
  }

  lemma {:induction false} OnceStays(rs: seq<OrderReport>, rs': seq<OrderReport>)
    requires |rs| == 1 && IsTerminal(rs[0].status) && rs <= rs' && WellTold(rs')
    ensures rs' == rs
  {
    if |rs'| > 1 {
      assert false;
    }
  }

  // An id that is still not placed has been told of at most once, as before.
  lemma {:induction false} StillOnce(
    placed: map<int, Order>, h: seq<OrderReport>, xs: Venues, d: Desk, q: Queue,
    h': seq<OrderReport>, xs': Venues, d': Desk, q': Queue, id: int)
    requires Sane(h', xs', d', q') && RoutesGrow(d, d') && ToldOn(h, q, h', q', id) && Gone(xs', id)
    requires AtMostOnce(Story(h, q, id), id in d.routes) && (Story(h, q, id) != [] ==> id < d.nextOrderId)
    ensures AtMostOnce(Story(h', q', id), id in d'.routes) && (Story(h', q', id) != [] ==> id < d'.nextOrderId)
  {
    var t := TrailOf(xs', d', q', id);
    assert TrailOk(t) && StreamOk(t, Of(h', id));
    hide ReportsFor, Of, Tells, LifeOk, Streams;
    if Story(h, q, id) != [] {
      OnceStays(Story(h, q, id), Story(h', q', id));
    } else {
      assert Of(h', id) == [] && Story(h', q', id) == t.pending;
    }
  }

  lemma {:induction false} Onward(
    placed: map<int, Order>, h: seq<OrderReport>, xs: Venues, d: Desk, q: Queue,
    h': seq<OrderReport>, xs': Venues, d': Desk, q': Queue, arrival: Option<Order>)
    requires Sane(h, xs, d, q) && Sane(h', xs', d', q') && Accounted(placed, h, xs, d, q)
    requires Follows(xs, xs', d, d', arrival) && forall id :: ToldOn(h, q, h', q', id)
    ensures Accounted(With(placed, arrival), h', xs', d', q')
  {
    hide Sane, Closed, Story, AtMostOnce, ToldOn;
    var placed' := With(placed, arrival);
    forall id | id in placed'
      ensures id < d'.nextOrderId
      ensures Gone(xs', id) ==> id !in d'.routes && Closed(Story(h', q', id), placed'[id].qty)
    {
      if Gone(xs', id) {
        assert arrival.Some? ==> arrival.value.orderId != id;
        GoneIsClosed(placed, h, xs, d, q, h', xs', d', q', arrival, id);
      }
    }
    forall id | id !in placed'
      ensures AtMostOnce(Story(h', q', id), id in d'.routes) && (Story(h', q', id) != [] ==> id < d'.nextOrderId)
    {
      assert LiveAsPlaced(placed', xs');
      assert Gone(xs', id);
      StillOnce(placed, h, xs, d, q, h', xs', d', q', id);
    }
  }

  lemma {:induction false} ArrivalIsLive(
    xs: Venues, xs': Venues, d: Desk, d': Desk, arrival: Option<Order>, id: int)
    requires Follows(xs, xs', d, d', arrival) && Gone(xs', id)
    ensures arrival.Some? ==> arrival.value.orderId != id
  {
  }

  lemma {:induction false} LiveIsTold(
    placed: map<int, Order>, history: seq<OrderReport>, xs: Venues, d: Desk, q: Queue, s: int, id: int)
    requires LiveAsPlaced(placed, xs) && Sane(history, xs, d, q) && LiveIn(xs, s, id).Some?
    ensures
      var rs := Story(history, q, id);
      Tells(rs, placed[id].qty, ToldQty(rs)) && LiveIn(xs, s, id).value.filled == ToldQty(rs)
  {
    assert OwnOrders(xs[s].orders, d, s);
    assert StreamOk(TrailOf(xs, d, q, id), Of(history, id));
    assert Tells(Story(history, q, id), placed[id].qty, LiveIn(xs, s, id).value.filled);
    hide ReportsFor, Of;
  }

  lemma {:induction false} LiveMatches(
    bps: int, placed: map<int, Order>, history: seq<OrderReport>, fills: seq<TradeFill>, xs: Venues, d: Desk,
    q: Queue, id: int)
    requires LiveAsPlaced(placed, xs) && Sane(history, xs, d, q) && LogOk(bps, fills, xs, d) && !Gone(xs, id)
    ensures id in placed && Matches(bps, placed[id], Mine(fills, id), Story(history, q, id))
  {
    var s :| LiveIn(xs, s, id).Some?;
    LiveIsTold(placed, history, xs, d, q, s, id);
    assert Booked(bps, xs[s].orders[id], Mine(fills, id));
    hide Sane, Mine, LoggedQty, Terms;
  }

  // Of an order that was placed and has left, the log holds what was told.
  lemma {:induction false} GoneMatches(
    bps: int, placed: map<int, Order>, h: seq<OrderReport>, fills: seq<TradeFill>, xs: Venues, d: Desk, q: Queue,
    h': seq<OrderReport>, xs': Venues, d': Desk, q': Queue, arrival: Option<Order>, id: int)
    requires Sane(h, xs, d, q) && Sane(h', xs', d', q') && Accounted(placed, h, xs, d, q)
    requires Follows(xs, xs', d, d', arrival) && ToldOn(h, q, h', q', id)
    requires LogOk(bps, fills, xs, d) && Charged(bps, placed, h, fills, xs, q)
    requires id in placed && Gone(xs', id)
    ensures Matches(bps, placed[id], Mine(fills, id), Story(h', q', id))
  {
    hide Sane, Closed, Story, Mine, Matches, Gone, Follows, ClosedWhenGone, HeardOnce, LiveAsPlaced, ToldOn, LogOk;
    GoneIsClosed(placed, h, xs, d, q, h', xs', d', q', arrival, id);
    if !Gone(xs, id) {
      LiveMatches(bps, placed, h, fills, xs, d, q, id);
    }
  }

  lemma {:induction false} OnwardCharged(
    bps: int, placed: map<int, Order>, h: seq<OrderReport>, fills: seq<TradeFill>, xs: Venues, d: Desk, q: Queue,
    h': seq<OrderReport>, fills': seq<TradeFill>, xs': Venues, d': Desk, q': Queue, arrival: Option<Order>)
    requires Sane(h, xs, d, q) && Sane(h', xs', d', q') && Accounted(placed, h, xs, d, q)
    requires Follows(xs, xs', d, d', arrival) && forall id :: ToldOn(h, q, h', q', id)
    requires LogOk(bps, fills, xs, d) && Charged(bps, placed, h, fills, xs, q)
    requires forall id :: Gone(xs', id) ==> Mine(fills', id) == Mine(fills, id)
    ensures Charged(bps, With(placed, arrival), h', fills', xs', q')
  {
    Onward(placed, h, xs, d, q, h', xs', d', q', arrival);
    hide Sane, Closed, Story, Mine, Matches, LiveIn, Follows, ClosedWhenGone, HeardOnce, ToldOn, LogOk;
    var placed' := With(placed, arrival);
    forall id | id in placed' && Gone(xs', id)
      ensures Matches(bps, placed'[id], Mine(fills', id), Story(h', q', id))
    {
      ArrivalIsLive(xs, xs', d, d', arrival, id);
      GoneMatches(bps, placed, h, fills, xs, d, q, h', xs', d', q', arrival, id);
    }
    forall id | id !in placed' ensures Mine(fills', id) == [] {
      assert Gone(xs', id);
    }
  }

  // ---- One event ------------------------------------------------------------------------------------------

  function Arrival(kind: EventKind): Option<Order> {
    if kind.EvOrder? then Some(kind.order) else None
  }

  lemma {:induction false} LiveAfter<S>(env: Env<S>, c: Core<S>, e: Event, q: Queue, s: int, id: int)
    requires LifeAt(c, [e] + q) && LevelOk(e.kind) && Handle(env, c, e.kind).Effect?
    requires LiveIn(Handle(env, c, e.kind).core.exchanges, s, id).Some?
    ensures SameOrNew(c.exchanges, Handle(env, c, e.kind).core.exchanges, s, id, Arrival(e.kind))
  {
    if e.kind.EvOrder? && e.kind.order.orderId == id {
      var o := e.kind.order;
      ArrivingOrder(c.exchanges, DeskOf(c), e, q);
      OwnedHere(c.exchanges, DeskOf(c), s);
      assert Handle(env, c, e.kind).core.exchanges
             == c.exchanges[o.symbolId := Submit(env.cfg.model, ExchangeAt(c, o.symbolId), o)];
      hide Handle, ExchangeAt, LifeOk, Register, DepthOf;
    } else {
      NothingAppears(env, c, e, q, s, id);
      HandleProgress(env, c, e, q, s, id);
      hide Handle, LifeOk, LiveIn;
    }
  }

  // A queued terminal report means that its order has finished.
  lemma {:induction false} TerminalIsDue(xs: Venues, d: Desk, e: Event, q: Queue, id: int)
    requires LifeOk(xs, d, [e] + q) && e.kind.EvReport? && IsTerminal(e.kind.report.status)
    requires e.kind.report.orderId == id && id in d.routes && LiveIn(xs, d.routes[id], id).Some?
    ensures IsTerminal(LiveIn(xs, d.routes[id], id).value.state)
  {
    var t := TrailOf(xs, d, [e] + q, id);
    assert TrailOk(t);
    assert ([e] + q)[1..] == q;
    assert t.pending == [e.kind.report] + ReportsFor(q, id);
    assert t.pending[0] == e.kind.report;
  }

  lemma {:induction false} LeavesWhenDone<S>(env: Env<S>, c: Core<S>, e: Event, q: Queue, s: int, id: int)
    requires LifeAt(c, [e] + q) && LevelOk(e.kind) && Handle(env, c, e.kind).Effect?
    requires LiveIn(c.exchanges, s, id).Some? && LiveIn(Handle(env, c, e.kind).core.exchanges, s, id).None?
    ensures e.kind.EvReport? && IsTerminal(LiveIn(c.exchanges, s, id).value.state)
    ensures id !in Handle(env, c, e.kind).core.routes
  {
    if !(e.kind.EvReport? && IsTerminal(e.kind.report.status) && e.kind.report.orderId == id) {
      StaysLive(env, c, e, q, s, id);
      assert false;
    }
    OwnedHere(c.exchanges, DeskOf(c), s);
    LiveIdsIssued(c.exchanges, DeskOf(c), [e] + q);
    RetiredGone(env, c, e.kind.report);
    TerminalIsDue(c.exchanges, DeskOf(c), e, q, id);
    hide Handle, LifeOk;
  }

  lemma {:induction false} ArrivalLands<S>(env: Env<S>, c: Core<S>, e: Event, q: Queue)
    requires LifeAt(c, [e] + q) && e.kind.EvOrder? && Handle(env, c, e.kind).Effect?
    ensures
      var (o, c') := (e.kind.order, Handle(env, c, e.kind).core);
      LiveIn(c'.exchanges, o.symbolId, o.orderId).Some? && o.orderId < c'.nextOrderId
  {
    ArrivingOrder(c.exchanges, DeskOf(c), e, q);
    hide ExchangeAt, LifeOk, Register, DepthOf;
  }

  lemma {:induction false} EventFollows<S>(env: Env<S>, c: Core<S>, e: Event, q: Queue)
    requires LifeAt(c, [e] + q) && LevelOk(e.kind) && Handle(env, c, e.kind).Effect?
    ensures
      var c' := Handle(env, c, e.kind).core;
      Follows(c.exchanges, c'.exchanges, DeskOf(c), DeskOf(c'), Arrival(e.kind))
  {
    var c' := Handle(env, c, e.kind).core;
    HandleRoutes(env, c, e.kind);
    if e.kind.EvOrder? {
      ArrivalLands(env, c, e, q);
    }
    hide Handle, LiveIn, LifeAt, SameOrNew;
    forall s, id | LiveIn(c'.exchanges, s, id).Some?
      ensures SameOrNew(c.exchanges, c'.exchanges, s, id, Arrival(e.kind))
    {
      LiveAfter(env, c, e, q, s, id);
    }
    forall s, id | LiveIn(c.exchanges, s, id).Some? && LiveIn(c'.exchanges, s, id).None?
      ensures IsTerminal(LiveIn(c.exchanges, s, id).value.state) && id !in DeskOf(c').routes
    {
      LeavesWhenDone(env, c, e, q, s, id);
    }
  }

  lemma {:induction false} Prefix<T>(a: seq<T>, b: seq<T>)
    ensures a <= a + b
  {
  }

  lemma {:induction false} Longer<T>(a: seq<T>, b: seq<T>, x: seq<T>, y: seq<T>)
    ensures a + (b + x) <= (a + b) + (x + y)
  {
    Assoc(a, b, x);
    Assoc(a + b, x, y);
    Prefix(a + b + x, y);
  }

  lemma {:induction false} HeadHeard(history: seq<OrderReport>, e: Event, q: Queue, id: int)
    ensures ReportsFor([e] + q, id) == QueuedReport(e.kind, id) + ReportsFor(q, id)
    ensures Of(Delivered(history, e), id) == Of(history, id) + QueuedReport(e.kind, id)
  {
    assert ([e] + q)[1..] == q;
    if e.kind.EvReport? {
      OfAppend(history, e.kind.report, id);
    } else {
      Assoc(Of(history, id), [], []);
    }
  }

  // What is told of an order only ever goes on.
  lemma {:induction false} StoryGoesOn(
    cfg: Config, history: seq<OrderReport>, e: Event, q: Queue, next: int, now: int, ps: seq<Push>, id: int)
    requires Room(cfg, q, next, now) && FreshPushes(cfg, now, ps)
    ensures ToldOn(history, [e] + q, Delivered(history, e), PushAll(q, next, ps), id)
  {
    RoomViews(cfg, q, next, now, ps, id);
    HeadHeard(history, e, q, id);
    hide PushAll, ReportsFor, Of, QueuedReport, Delivered, ReportsPushed, Room;
    Longer(Of(history, id), QueuedReport(e.kind, id), ReportsFor(q, id), ReportsPushed(ps, id));
    Assoc(Of(history, id), QueuedReport(e.kind, id), ReportsFor(q, id));
    Prefix(Of(history, id) + QueuedReport(e.kind, id), ReportsFor(q, id));
  }

  ghost predicate AccountedAt<S>(
    bps: int, placed: map<int, Order>, history: seq<OrderReport>, c: Core<S>, q: Queue)
  {
    && Accounted(placed, history, c.exchanges, DeskOf(c), q)
    && (c.ledger.log.mode == All ==>
          LogAt(bps, c) && Charged(bps, placed, history, c.ledger.log.fills, c.exchanges, q))
  }

  lemma {:induction false} EventMode<S>(env: Env<S>, c: Core<S>, kind: EventKind)
    requires Handle(env, c, kind).Effect?
    ensures Handle(env, c, kind).core.ledger.log.mode == c.ledger.log.mode
  {
    var jobs := EventJobs(env, c, kind);
    EventLedger(env, c, kind);
    LogFillsFrame(c.ledger.log, jobs);
    SettleFrame(c.ledger.(log := LogFills(c.ledger.log, jobs)), jobs);
    hide Handle, FundingMark, EventJobs, LogFills, SettleAll;
    if kind.EvFunding? && FundingMark(c, kind.funding.symbolId).Some? {
      FundKeepsFills(c.ledger, kind.funding, FundingMark(c, kind.funding.symbolId).value);
    }
  }

  // Nothing is logged for an order that is not live afterwards.
  lemma {:induction false} GoneLogsNothing<S>(env: Env<S>, c: Core<S>, e: Event, q: Queue, id: int)
    requires LifeAt(c, [e] + q) && LevelOk(e.kind) && Handle(env, c, e.kind).Effect?
    requires c.ledger.log.mode == All && BooksAgree(c.ledger) && Gone(Handle(env, c, e.kind).core.exchanges, id)
    ensures Mine(Handle(env, c, e.kind).core.ledger.log.fills, id) == Mine(c.ledger.log.fills, id)
  {
    var jobs := EventJobs(env, c, e.kind);
    EventFills(env, c, e.kind);
    MineAppend(c.ledger.log.fills, FillsOf(jobs), id);
    NothingLogged();
    if Gone(c.exchanges, id) {
      NotLiveLogsNothing(env, c, e, q, id);
    } else {
      var s :| LiveIn(c.exchanges, s, id).Some?;
      LeavesWhenDone(env, c, e, q, s, id);
      assert jobs == [];
    }
    hide Handle, LifeOk, LiveIn, BooksAgree, EventJobs;
    Assoc(Mine(c.ledger.log.fills, id), [], []);
  }

  // An event carries every order on, and goes on with what is told of it.
  ghost predicate Carries<S>(history: seq<OrderReport>, c: Core<S>, e: Event, q: Queue, c': Core<S>, q': Queue) {
    && Follows(c.exchanges, c'.exchanges, DeskOf(c), DeskOf(c'), Arrival(e.kind))
    && LifeAt(c', q') && StreamsAt(Delivered(history, e), c', q')
    && forall id :: ToldOn(history, [e] + q, Delivered(history, e), q', id)
  }

  lemma {:induction false} EventCarries<S(!new)>(
    env: Env<S>, history: seq<OrderReport>, c: Core<S>, e: Event, f: Feed)
    requires GoodStrategy(env) && Popped(env, history, c, e, f)
    ensures
      var eff := Handle(env, c, e.kind);
      eff.Effect? ==> Carries(history, c, e, f.queue, eff.core, Schedule(f, eff.pushes).queue)
  {
    HandleOwned(env, history, c, e, f);
    var eff := Handle(env, c, e.kind);
    if eff.Effect? {
      EventFollows(env, c, e, f.queue);
      var q, q' := [e] + f.queue, Schedule(f, eff.pushes).queue;
      hide Handle, LifeOk, Streams, Follows, Room, MoneyOk, PositionAt, FreshPushes, PushAll, ToldOn;
      forall id ensures ToldOn(history, q, Delivered(history, e), q', id) {
        StoryGoesOn(env.cfg, history, e, f.queue, f.nextSeq, c.now, eff.pushes, id);
      }
    }
  }

  lemma {:induction false} PoppedParts<S>(
    env: Env<S>, history: seq<OrderReport>, c: Core<S>, e: Event, f: Feed)
    requires Popped(env, history, c, e, f)
    ensures BooksAgree(c.ledger) && LifeAt(c, [e] + f.queue) && StreamsAt(history, c, [e] + f.queue)
    ensures LevelOk(e.kind)
  {
    hide LifeOk, Streams, BooksAgree, LevelOk, Room;
  }

  lemma {:induction false} WithArrival(placed: map<int, Order>, kind: EventKind)
    ensures With(placed, Arrival(kind)) == Arrived(placed, kind)
  {
  }

  lemma {:induction false} EventCharged<S(!new)>(
    env: Env<S>, placed: map<int, Order>, history: seq<OrderReport>, c: Core<S>, e: Event, f: Feed, q': Queue)
    requires Handle(env, c, e.kind).Effect? && LifeAt(c, [e] + f.queue) && LevelOk(e.kind) && BooksAgree(c.ledger)
    requires LogAt(env.cfg.makerBps, c) && StreamsAt(history, c, [e] + f.queue)
    requires
      var (xs, d, q) := (c.exchanges, DeskOf(c), [e] + f.queue);
      var c' := Handle(env, c, e.kind).core;
      && Accounted(placed, history, xs, d, q) && Charged(env.cfg.makerBps, placed, history, c.ledger.log.fills, xs, q)
      && Carries(history, c, e, f.queue, c', q')
    ensures
      var c' := Handle(env, c, e.kind).core;
      && LogAt(env.cfg.makerBps, c')
      && Charged(env.cfg.makerBps, With(placed, Arrival(e.kind)), Delivered(history, e), c'.ledger.log.fills,
                 c'.exchanges, q')
  {
    var c' := Handle(env, c, e.kind).core;
    HandleLog(env, c, e, f.queue);
    hide Handle, LifeOk, Streams, Follows, Accounted, ToldOn, LogOk, Charged, BooksAgree, LevelOk, Mine, With, Gone;
    forall id | Gone(c'.exchanges, id) ensures Mine(c'.ledger.log.fills, id) == Mine(c.ledger.log.fills, id) {
      GoneLogsNothing(env, c, e, f.queue, id);
    }
    OnwardCharged(env.cfg.makerBps, placed, history, c.ledger.log.fills, c.exchanges, DeskOf(c), [e] + f.queue,
                  Delivered(history, e), c'.ledger.log.fills, c'.exchanges, DeskOf(c'), q', Arrival(e.kind));
  }

  lemma {:induction false} EventAccounted<S(!new)>(
    env: Env<S>, placed: map<int, Order>, history: seq<OrderReport>, c: Core<S>, e: Event, f: Feed)
    requires GoodStrategy(env) && Popped(env, history, c, e, f)
    requires AccountedAt(env.cfg.makerBps, placed, history, c, [e] + f.queue)
    ensures
      var eff := Handle(env, c, e.kind);
      eff.Effect? ==>
        AccountedAt(env.cfg.makerBps, Arrived(placed, e.kind), Delivered(history, e), eff.core,
                    Schedule(f, eff.pushes).queue)
  {
    hide Handle, LifeOk, Streams, Follows, Accounted, Schedule, ToldOn, LogOk, Charged, BooksAgree, LevelOk, With,
      Arrived, Popped, GoodStrategy;
    EventCarries(env, history, c, e, f);
    PoppedParts(env, history, c, e, f);
    WithArrival(placed, e.kind);
    var eff := Handle(env, c, e.kind);
    if eff.Effect? {
      EventMode(env, c, e.kind);
      var q' := Schedule(f, eff.pushes).queue;
      Onward(placed, history, c.exchanges, DeskOf(c), [e] + f.queue,
             Delivered(history, e), eff.core.exchanges, DeskOf(eff.core), q', Arrival(e.kind));
      if c.ledger.log.mode == All {
        EventCharged(env, placed, history, c, e, f, q');
      }
    }
  }

  // ---- One iteration ----------------------------------------------------------------------------------------

  lemma {:induction false} FlushFollows<S>(env: Env<S>, c: Core<S>, ts: int)
    ensures
      var eff := Flush(env, c, ts);
      eff.Effect? ==> Follows(c.exchanges, eff.core.exchanges, DeskOf(c), DeskOf(eff.core), None)
  {
    FlushRoutes(env, c, ts);
    FlushIds(env, c, ts);
    hide Flush, LiveIn;
  }

  lemma {:induction false} StoryGrows(
    cfg: Config, history: seq<OrderReport>, q: Queue, next: int, now: int, ps: seq<Push>, id: int)
    requires Room(cfg, q, next, now) && FreshPushes(cfg, now, ps)
    ensures ToldOn(history, q, history, PushAll(q, next, ps), id)
  {
    RoomViews(cfg, q, next, now, ps, id);
    hide PushAll, ReportsFor, Of, ReportsPushed, Room;
    Assoc(Of(history, id), ReportsFor(q, id), ReportsPushed(ps, id));
    Prefix(Of(history, id) + ReportsFor(q, id), ReportsPushed(ps, id));
    Prefix(Of(history, id), ReportsFor(q, id));
  }

  lemma {:induction false} FlushAccounted<S(!new)>(
    env: Env<S>, placed: map<int, Order>, history: seq<OrderReport>, c: Core<S>, f: Feed)
    requires GoodConfig(env.cfg) && GoodStrategy(env) && LevelsOk(f.queue)
    requires Owned(env.cfg, history, c, f.queue) && Room(env.cfg, f.queue, f.nextSeq, c.now)
    requires AccountedAt(env.cfg.makerBps, placed, history, c, f.queue)
    ensures
      var eff := Flush(env, c, c.now);
      eff.Effect? ==> AccountedAt(env.cfg.makerBps, placed, history, eff.core, Schedule(f, eff.pushes).queue)
  {
    FlushOwned(env, history, c, f);
    FlushFollows(env, c, c.now);
    FlushFresh(env, c, c.now);
    FlushLedger(env, c, c.now);
    var eff := Flush(env, c, c.now);
    if eff.Effect? {
      var q' := Schedule(f, eff.pushes).queue;
      hide Flush, LifeOk, Streams, Follows, Room, MoneyOk, PositionAt, Accounted, FreshPushes, PushAll, ToldOn, LogOk,
        Charged;
      forall id ensures ToldOn(history, f.queue, history, q', id) {
        StoryGrows(env.cfg, history, f.queue, f.nextSeq, c.now, eff.pushes, id);
      }
      Onward(placed, history, c.exchanges, DeskOf(c), f.queue, history, eff.core.exchanges, DeskOf(eff.core), q', None);
      if c.ledger.log.mode == All {
        var fills := c.ledger.log.fills;
        FlushLog(env, c, c.now);
        OnwardCharged(env.cfg.makerBps, placed, history, fills, c.exchanges, DeskOf(c), f.queue,
                      history, fills, eff.core.exchanges, DeskOf(eff.core), q', None);
      }
    }
  }

  lemma {:induction false} SameAccounts<S>(
    env: Env<S>, placed: map<int, Order>, history: seq<OrderReport>, c: Core<S>, c': Core<S>, q: Queue)
    requires AccountedAt(env.cfg.makerBps, placed, history, c, q) && c'.exchanges == c.exchanges
             && DeskOf(c') == DeskOf(c)
    requires c'.ledger == c.ledger
    ensures AccountedAt(env.cfg.makerBps, placed, history, c', q)
  {
  }

  lemma {:induction false} FinishAccounted<S(!new)>(
    env: Env<S>, placed: map<int, Order>, history: seq<OrderReport>, eff: Effect<S>, f: Feed, event: Event)
    requires GoodConfig(env.cfg) && GoodStrategy(env) && eff.Effect?
    requires
      var f1 := Schedule(f, eff.pushes);
      && Owned(env.cfg, history, eff.core, f1.queue) && LevelsOk(f1.queue)
      && Room(env.cfg, f1.queue, f1.nextSeq, eff.core.now)
      && AccountedAt(env.cfg.makerBps, placed, history, eff.core, f1.queue)
    ensures
      var o := Finish(env, eff, f, event);
      o.Stepped? ==> AccountedAt(env.cfg.makerBps, placed, history, o.engine.core, o.engine.feed.queue)
  {
    var f1 := Schedule(f, eff.pushes);
    hide Owned, Flush, Schedule, LevelsOk, Room, GoodStrategy, AccountedAt;
    FlushAccounted(env, placed, history, eff.core, f1);
    var o := Finish(env, eff, f, event);
    if o.Stepped? {
      var fl := Flush(env, eff.core, eff.core.now);
      if WantsFlush(env, eff) && !MustWait(f1.queue, eff.core.now) {
        SameAccounts(env, placed, history, fl.core, o.engine.core, o.engine.feed.queue);
      } else {
        SameAccounts(env, placed, history, eff.core, o.engine.core, o.engine.feed.queue);
      }
    }
  }

  // Ingestion queues nothing that concerns an order.
  lemma {:induction false} IngestViews(latency: int, f: Feed, now: int)
    requires latency >= 0 && FeedOk(f, now)
    ensures SameViews(f.queue, Ingest(latency, f).queue)
    decreases Remaining(f)
  {
    if CanIngest(f) {
      var g, ps := IngestOne(latency, f), ItemPushes(latency, f);
      IngestOneOk(latency, f, now);
      IngestOneRemaining(latency, f);
      NextIsEarliest(f, now);
      ItemPushesFrom(latency, f, now);
      AllFromEarlier(ps, now, ItemTime(f));
      forall p | p in ps ensures Outside(p.kind) {
        ItemsOutside(latency, f, p);
      }
      hide PushAll, ItemPushes, NextItem, QueueOk, SourcesOk, AllFrom, SameViews, Outside;
      OutsidePushes(f.queue, f.nextSeq, now, ps);
      IngestViews(latency, g, now);
      SameViewsTrans(f.queue, g.queue, Ingest(latency, g).queue);
    } else {
      SameViewsSelf(f.queue);
    }
  }

  lemma {:induction false} SoundViews<S>(cfg: Config, history: seq<OrderReport>, e: Engine<S>)
    requires GoodConfig(cfg) && Sound(cfg, history, e)
    ensures SameViews(e.feed.queue, Ingest(cfg.feedLatency, e.feed).queue)
  {
    IngestViews(cfg.feedLatency, e.feed, e.core.now);
  }

  lemma {:induction false} AccountedSameViews<S>(
    env: Env<S>, placed: map<int, Order>, history: seq<OrderReport>, c: Core<S>, a: Queue, b: Queue)
    requires AccountedAt(env.cfg.makerBps, placed, history, c, a) && SameViews(a, b)
    ensures AccountedAt(env.cfg.makerBps, placed, history, c, b)
  {
    hide ReportsFor, OrdersIn, Tally, LiveIn, Closed, Gone, Matches, LogOk, Mine, AtMostOnce;
    forall id ensures Story(history, b, id) == Story(history, a, id) {
      assert SameFor(a, b, id);
    }
  }

  lemma {:induction false} ProcessAccounted<S(!new)>(
    env: Env<S>, placed: map<int, Order>, history: seq<OrderReport>, c0: Core<S>, f: Feed, event: Event)
    requires GoodStrategy(env) && Popped(env, history, c0.(now := event.ts), event, f)
    requires AccountedAt(env.cfg.makerBps, placed, history, c0, [event] + f.queue)
    ensures
      var o := Process(env, c0, f, event);
      o.Stepped? ==>
        AccountedAt(env.cfg.makerBps, Arrived(placed, event.kind), Delivered(history, event), o.engine.core,
                    o.engine.feed.queue)
  {
    var c := c0.(now := event.ts);
    assert GoodConfig(env.cfg);
    SameAccounts(env, placed, history, c0, c, [event] + f.queue);
    hide Handle, Finish, Popped, AccountedAt, Owned, Room, LevelsOk, GoodStrategy, Schedule, Arrived;
    HandleOwned(env, history, c, event, f);
    EventAccounted(env, placed, history, c, event, f);
    var eff := Handle(env, c, event.kind);
    if eff.Effect? {
      FinishAccounted(env, Arrived(placed, event.kind), Delivered(history, event), eff, f, event);
    }
  }

  lemma {:induction false} DrainedRoom<S>(cfg: Config, history: seq<OrderReport>, e: Engine<S>)
    requires Sound(cfg, history, e)
    ensures Room(cfg, e.feed.queue, e.feed.nextSeq, e.core.now) && LevelsOk(e.feed.queue)
    ensures Owned(cfg, history, e.core, e.feed.queue)
  {
    FeedRoom(cfg, e.feed, e.core.now);
  }

  lemma {:induction false} StepAccounted<S(!new)>(
    env: Env<S>, placed: map<int, Order>, history: seq<OrderReport>, e: Engine<S>)
    requires GoodConfig(env.cfg) && GoodStrategy(env) && Sound(env.cfg, history, e)
    requires AccountedAt(env.cfg.makerBps, placed, history, e.core, e.feed.queue)
    ensures
      var o := Advance(env, e);
      o.Stepped? || o.Flushed? ==>
        AccountedAt(env.cfg.makerBps, Received(placed, o), Heard(history, o), o.engine.core, o.engine.feed.queue)
  {
    hide Sound, AccountedAt, SameViews, GoodStrategy, Ingest, Process, Flush, Popped, FeedOk, Owned, LevelsOk;
    var g := Ingest(env.cfg.feedLatency, e.feed);
    SoundViews(env.cfg, history, e);
    IngestSound(env.cfg, history, e);
    AccountedSameViews(env, placed, history, e.core, e.feed.queue, g.queue);
    match PopFeed(env.cfg.feedLatency, e.feed) {
      case Some((event, f)) =>
        assert g.queue == [event] + f.queue;
        PopSound(env, history, e);
        ProcessSteps(env, e.core, f, event);
        ProcessAccounted(env, placed, history, e.core, f, event);
      case None =>
        DrainedRoom(env.cfg, history, Engine(e.core, g));
        FlushAccounted(env, placed, history, e.core, g);
    }
  }

  // ---- The order of the reports -----------------------------------------------------------------------------

  lemma {:induction false} FlushTold<S(!new)>(
    env: Env<S>, history: seq<OrderReport>, c: Core<S>, f: Feed, id: int)
    requires GoodConfig(env.cfg) && GoodStrategy(env) && LevelsOk(f.queue)
    requires Owned(env.cfg, history, c, f.queue) && Room(env.cfg, f.queue, f.nextSeq, c.now)
    ensures
      var eff := Flush(env, c, c.now);
      eff.Effect? ==> Story(history, f.queue, id) <= Story(history, Schedule(f, eff.pushes).queue, id)
  {
    hide Flush, Owned, Room, LevelsOk, GoodStrategy, FreshPushes, PushAll, Story;
    FlushFresh(env, c, c.now);
    var eff := Flush(env, c, c.now);
    if eff.Effect? {
      StoryGrows(env.cfg, history, f.queue, f.nextSeq, c.now, eff.pushes, id);
    }
  }

  lemma {:induction false} FinishTold<S(!new)>(
    env: Env<S>, history: seq<OrderReport>, eff: Effect<S>, f: Feed, event: Event, id: int)
    requires GoodConfig(env.cfg) && GoodStrategy(env) && eff.Effect?
    requires
      var f1 := Schedule(f, eff.pushes);
      && Owned(env.cfg, history, eff.core, f1.queue) && LevelsOk(f1.queue)
      && Room(env.cfg, f1.queue, f1.nextSeq, eff.core.now)
    ensures
      var o := Finish(env, eff, f, event);
      o.Stepped? ==>
        Story(history, Schedule(f, eff.pushes).queue, id) <= Story(history, o.engine.feed.queue, id)
  {
    hide Owned, Flush, Schedule, LevelsOk, Room, GoodStrategy, Story;
    FlushTold(env, history, eff.core, Schedule(f, eff.pushes), id);
  }

  lemma {:induction false} ProcessTold<S(!new)>(
    env: Env<S>, history: seq<OrderReport>, c0: Core<S>, f: Feed, event: Event, id: int)
    requires GoodStrategy(env) && Popped(env, history, c0.(now := event.ts), event, f)
    ensures
      var o := Process(env, c0, f, event);
      o.Stepped? ==>
        Story(history, [event] + f.queue, id) <= Story(Delivered(history, event), o.engine.feed.queue, id)
  {
    var c := c0.(now := event.ts);
    assert GoodConfig(env.cfg);
    hide Handle, Finish, Popped, Owned, Room, LevelsOk, GoodStrategy, Schedule, Story, Follows, LifeOk, Streams;
    HandleOwned(env, history, c, event, f);
    EventCarries(env, history, c, event, f);
    var eff := Handle(env, c, event.kind);
    if eff.Effect? {
      var q1 := Schedule(f, eff.pushes).queue;
      assert ToldOn(history, [event] + f.queue, Delivered(history, event), q1, id);
      FinishTold(env, Delivered(history, event), eff, f, event, id);
    }
  }

  lemma {:induction false} StepTold<S(!new)>(env: Env<S>, history: seq<OrderReport>, e: Engine<S>, id: int)
    requires GoodConfig(env.cfg) && GoodStrategy(env) && Sound(env.cfg, history, e)
    ensures
      var o := Advance(env, e);
      o.Stepped? || o.Flushed? ==>
        Story(history, e.feed.queue, id) <= Story(Heard(history, o), o.engine.feed.queue, id)
  {
    hide Sound, GoodStrategy, Ingest, Process, Flush, Popped, FeedOk, Owned, LevelsOk, Of, ReportsFor, Room;
    var g := Ingest(env.cfg.feedLatency, e.feed);
    SoundViews(env.cfg, history, e);
    assert SameFor(e.feed.queue, g.queue, id);
    IngestSound(env.cfg, history, e);
    match PopFeed(env.cfg.feedLatency, e.feed) {
      case Some((event, f)) =>
        assert g.queue == [event] + f.queue;
        PopSound(env, history, e);
        ProcessSteps(env, e.core, f, event);
        ProcessTold(env, history, e.core, f, event, id);
      case None =>
        DrainedRoom(env.cfg, history, Engine(e.core, g));
        FlushTold(env, history, e.core, g, id);
    }
  }

  // Reports arrive in the order in which they arise: whatever is told or queued of an order at one
  // moment of a run begins what is told or queued of it at any later one, and once nothing is queued
  // it begins what has been delivered.
  lemma {:induction false} ReportsArriveInOrder<S(!new)>(env: Env<S>, e: Engine<S>, m: nat, n: nat, id: int)
    requires Reaches(env, e, n) && m <= n
    ensures
      && After(env, e, m).Some?
      && var earlier := Story(ReportsDelivered(env, e, m), After(env, e, m).value.feed.queue, id);
         var last := After(env, e, n).value;
         && earlier <= Story(ReportsDelivered(env, e, n), last.feed.queue, id)
         && (ReportsFor(last.feed.queue, id) == [] ==> earlier <= Of(ReportsDelivered(env, e, n), id))
    decreases n
  {
    hide Advance, Sound, GoodStrategy, Of, ReportsFor;
    if m < n {
      ReportsArriveInOrder(env, e, m, n - 1, id);
      RunKeepsSound(env, e, n - 1);
      StepTold(env, ReportsDelivered(env, e, n - 1), After(env, e, n - 1).value, id);
    }
  }

  // ---- Whole runs: what is told --------------------------------------------------------------------------------

  // Nothing has been placed or logged yet, as in every run from Start.
  ghost predicate Unused<S>(e: Engine<S>) {
    e.core.exchanges == map[] && e.core.ledger.log.fills == []
  }

  lemma {:induction false} StartIsUnused<S>(
    cfg: Config, s: S, sources: seq<seq<Tick>>, l3Sources: seq<seq<L3Update>>, l3Symbols: set<int>,
    external: seq<Push>)
    ensures Unused(Start(cfg, s, sources, l3Sources, l3Symbols, external))
  {
  }

  lemma {:induction false} NothingPlaced<S>(cfg: Config, e: Engine<S>)
    requires Unused(e) && Sound(cfg, [], e)
    ensures AccountedAt(cfg.makerBps, map[], [], e.core, e.feed.queue)
  {
    var d, q := DeskOf(e.core), e.feed.queue;
    hide ReportsFor, Tally, Arriving, ClockOk, Fifo, LevelsOk, MoneyOk, PositionAt, StreamsAt, World, Arrivals;
    forall id ensures AtMostOnce(Story([], q, id), id in d.routes) && (Story([], q, id) != [] ==> id < d.nextOrderId) {
      var t := TrailOf(e.core.exchanges, d, q, id);
      assert TrailOk(t);
      assert Story([], q, id) == [] + t.pending == t.pending;
    }
  }

  lemma {:induction false} RunAccounted<S(!new)>(env: Env<S>, e: Engine<S>, n: nat)
    requires Reaches(env, e, n) && Unused(e)
    ensures
      var last := After(env, e, n).value;
      AccountedAt(env.cfg.makerBps, Placed(env, e, n), ReportsDelivered(env, e, n), last.core, last.feed.queue)
    decreases n
  {
    hide Advance, Sound, GoodStrategy, Accounted;
    if n == 0 {
      NothingPlaced(env.cfg, e);
    } else {
      RunAccounted(env, e, n - 1);
      RunKeepsSound(env, e, n - 1);
      StepAccounted(env, Placed(env, e, n - 1), ReportsDelivered(env, e, n - 1), After(env, e, n - 1).value);
    }
  }

  // Whatever has been placed is told about in terms of the quantity that was submitted: each report's
  // filled quantity is the sum of the fills told so far, filled and remaining make up that quantity, and
  // nothing follows a terminal report.
  lemma {:induction false} EveryPlacedOrderIsTold<S(!new)>(env: Env<S>, e: Engine<S>, n: nat, id: int)
    requires Reaches(env, e, n) && Unused(e) && id in Placed(env, e, n)
    ensures
      var rs := Story(ReportsDelivered(env, e, n), After(env, e, n).value.feed.queue, id);
      Tells(rs, Placed(env, e, n)[id].qty, ToldQty(rs)) && WellTold(rs)
    ensures exists filled :: Tells(Of(ReportsDelivered(env, e, n), id), Placed(env, e, n)[id].qty, filled)
  {
    RunAccounted(env, e, n);
    RunKeepsSound(env, e, n);
    DeliveredReportsAreWellTold(env, e, n, id);
    var (placed, history, last) := (Placed(env, e, n), ReportsDelivered(env, e, n), After(env, e, n).value);
    var rs := Story(history, last.feed.queue, id);
    hide After, Placed, ReportsDelivered, GoodStrategy, ClockOk, MoneyOk, PositionAt, WellTold;
    if !Gone(last.core.exchanges, id) {
      var s :| LiveIn(last.core.exchanges, s, id).Some?;
      LiveIsTold(placed, history, last.core.exchanges, DeskOf(last.core), last.feed.queue, s, id);
    }
    hide Tells, Of, ReportsFor;
    TellsPrefix(rs, |Of(history, id)|, placed[id].qty, ToldQty(rs));
    assert rs[..|Of(history, id)|] == Of(history, id);
  }

  // Any other id is on its way to its exchange, was refused, or was never given: it is told of at most
  // once, in a terminal report, and is then tracked no more.
  lemma {:induction false} OtherIdsAreHeardOnce<S(!new)>(env: Env<S>, e: Engine<S>, n: nat, id: int)
    requires Reaches(env, e, n) && Unused(e) && id !in Placed(env, e, n)
    ensures
      var last := After(env, e, n).value;
      AtMostOnce(Story(ReportsDelivered(env, e, n), last.feed.queue, id), id in last.core.routes)
  {
    RunAccounted(env, e, n);
    hide After, Placed, ReportsDelivered, Story, AtMostOnce, Sound, GoodStrategy, LogAt, Charged;
  }

  // ---- Whole runs: what is logged ------------------------------------------------------------------------------

  lemma {:induction false} UnusedLog<S>(bps: int, e: Engine<S>)
    requires Unused(e) && e.core.ledger.log.mode == All
    ensures LogAt(bps, e.core)
  {
  }

  // With every fill kept, the fills logged for a placed order, live or retired, add up to the filled
  // quantity told of it, at the order's own terms; nothing is logged for any other id.
  lemma {:induction false} EveryPlacedOrderIsBooked<S(!new)>(env: Env<S>, e: Engine<S>, n: nat, id: int)
    requires Reaches(env, e, n) && Unused(e) && e.core.ledger.log.mode == All
    ensures
      var last := After(env, e, n).value;
      var (placed, fs) := (Placed(env, e, n), Mine(last.core.ledger.log.fills, id));
      if id in placed then
        Matches(env.cfg.makerBps, placed[id], fs, Story(ReportsDelivered(env, e, n), last.feed.queue, id))
      else fs == []
  {
    RunAccounted(env, e, n);
    RunKeepsSound(env, e, n);
    UnusedLog(env.cfg.makerBps, e);
    RunLog(env, e, n);
    var (placed, history, last) := (Placed(env, e, n), ReportsDelivered(env, e, n), After(env, e, n).value);
    hide After, Placed, ReportsDelivered, GoodStrategy, ClockOk, MoneyOk, PositionAt, Matches, LogOk, Story, Mine;
    if id in placed && !Gone(last.core.exchanges, id) {
      LiveMatches(env.cfg.makerBps, placed, history, last.core.ledger.log.fills, last.core.exchanges, DeskOf(last.core),
                  last.feed.queue, id);
    }
  }

  // So every placed limit order with k fills, live or retired, has been charged between the fee of its
  // filled quantity less k - 1 units and that fee.
  lemma {:induction false} LimitOrderIsChargedOnce<S(!new)>(env: Env<S>, e: Engine<S>, n: nat, id: int)
    requires Reaches(env, e, n) && Unused(e) && e.core.ledger.log.mode == All
    requires id in Placed(env, e, n) && Placed(env, e, n)[id].orderType != Market
    requires
      var fs := Mine(After(env, e, n).value.core.ledger.log.fills, id);
      && fs != []
      && TruncDiv(Placed(env, e, n)[id].price * LoggedQty(fs) * Max(env.cfg.makerBps, 0), FEE_UNIT) <= I64_MAX
    ensures
      var fs := Mine(After(env, e, n).value.core.ledger.log.fills, id);
      var whole := ComputeFee(Placed(env, e, n)[id].price, LoggedQty(fs), env.cfg.makerBps);
      whole - (|fs| - 1) <= Fees(fs) <= whole
  {
    EveryPlacedOrderIsBooked(env, e, n, id);
    var order, fs := Placed(env, e, n)[id], Mine(After(env, e, n).value.core.ledger.log.fills, id);
    hide After, Mine, Placed;
    FeesAreOwn(order, env.cfg.makerBps, fs);
    var qs := Quantities(fs);
    forall i | 0 <= i < |qs| ensures qs[i] > 0 {
      assert fs[i] in fs;
    }
    hide ComputeFee;
    FeeOfSplitOrder(order.price, qs, env.cfg.makerBps);
  }
}
