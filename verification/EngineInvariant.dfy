// Whole runs: everything that is kept by every handler is kept by every iteration of the run loop,
// so it holds in every state that any run of any strategy can reach.
module EngineInvariant {
  import opened Types
  import opened Accounts
  import opened Exchanges
  import opened EventQueues
  import opened Feeds
  import opened EngineSpec
  import opened EngineClock
  import opened QueueViews
  import opened Lifecycle
  import opened LifecycleSteps
  import opened LifecycleRun
  import opened ReportStreams
  import opened StreamSteps
  import opened EngineMoney
  import opened PositionBound
  import opened PositionSteps

  // ---- Events from outside -----------------------------------------------------------------------

  predicate Outside(kind: EventKind) {
    kind.EvTick? || kind.EvDelivery? || kind.EvL2? || kind.EvL3? || kind.EvFunding?
  }

  // The two queues hold the same reports, orders and acknowledgements.
  ghost predicate SameViews(a: Queue, b: Queue) {
    && OrdersIn(b) == OrdersIn(a)
    && forall id :: SameFor(a, b, id)
  }

  ghost predicate SameFor(a: Queue, b: Queue, id: int) {
    && ReportsFor(b, id) == ReportsFor(a, id)
    && Tally(b, EvAck(id)) == Tally(a, EvAck(id))
    && Tally(b, EvCancelAck(id)) == Tally(a, EvCancelAck(id))
  }

  lemma {:induction false} OutsideInsert(q: Queue, next: int, now: int, p: Push)
    requires QueueOk(q, next, now) && Outside(p.kind)
    ensures SameViews(q, Insert(q, Event(p.ts, next, p.kind)))
  {
    var e := Event(p.ts, next, p.kind);
    hide Insert, ReportsFor, OrdersIn, Tally;
    OrdersInsert(q, e);
    Assoc(OrdersIn(q), [], []);
    forall id ensures SameFor(q, Insert(q, e), id) {
      ReportsInsert(q, e, id);
      Assoc(ReportsFor(q, id), [], []);
      TallyInsert(q, e, EvAck(id));
      TallyInsert(q, e, EvCancelAck(id));
    }
  }

  lemma {:induction false} SameViewsTrans(a: Queue, b: Queue, c: Queue)
    requires SameViews(a, b) && SameViews(b, c)
    ensures SameViews(a, c)
  {
    hide ReportsFor, OrdersIn, Tally;
    forall id ensures SameFor(a, c, id) {
      assert SameFor(a, b, id) && SameFor(b, c, id);
    }
  }

  lemma {:induction false} SameViewsSelf(q: Queue)
    ensures SameViews(q, q)
  {
  }

  lemma {:induction false} OutsidePushes(q: Queue, next: int, now: int, ps: seq<Push>)
    requires QueueOk(q, next, now) && AllFrom(ps, now)
    requires forall p :: p in ps ==> Outside(p.kind)
    ensures SameViews(q, PushAll(q, next, ps))
    decreases ps
  {
    hide Insert, QueueOk, SameViews;
    if ps == [] {
      SameViewsSelf(q);
    } else {
      assert ps[0] in ps;
      var q1 := Insert(q, Event(ps[0].ts, next, ps[0].kind));
      InsertOk(q, next, now, ps[0]);
      OutsideInsert(q, next, now, ps[0]);
      OutsidePushes(q1, next + 1, now, ps[1..]);
      SameViewsTrans(q, q1, PushAll(q, next, ps));
    }
  }

  // Level updates from outside carry no negative quantity.
  ghost predicate LevelsOk(q: Queue) {
    forall x :: x in q ==> LevelOk(x.kind)
  }

  ghost predicate LevelOk(kind: EventKind) {
    kind.EvL2? ==> kind.l2.qty >= 0
  }

  lemma {:induction false} OutsideFifo(cfg: Config, q: Queue, next: int, now: int, ps: seq<Push>)
    requires Fifo(cfg, q, now) && LevelsOk(q)
    requires forall p :: p in ps ==> Outside(p.kind) && LevelOk(p.kind)
    ensures Fifo(cfg, PushAll(q, next, ps), now) && LevelsOk(PushAll(q, next, ps))
  {
    PushAllEach(q, next, ps, (ts: int, k: EventKind) =>
      (k.EvReport? ==> ts <= now + cfg.reportLatency) && (k.EvOrder? ==> ts <= now) && (k.EvL2? ==> k.l2.qty >= 0));
  }

  lemma {:induction false} FreshLevels(cfg: Config, q: Queue, next: int, now: int, ps: seq<Push>)
    requires LevelsOk(q) && FreshPushes(cfg, now, ps)
    ensures LevelsOk(PushAll(q, next, ps))
  {
    PushAllEach(q, next, ps, (ts: int, k: EventKind) => k.EvL2? ==> k.l2.qty >= 0);
  }

  // ---- The invariant -------------------------------------------------------------------------------

  // What the state promises about orders, reports, money and positions, given the reports that were
  // delivered so far and the events still queued.
  ghost predicate Owned<S>(cfg: Config, history: seq<OrderReport>, c: Core<S>, q: Queue) {
    && LifeAt(c, q) && StreamsAt(history, c, q) && MoneyOk(c.ledger)
    && (OneOrderLimit(cfg) ==> PositionAt(cfg, c, q))
  }

  ghost predicate Sound<S>(cfg: Config, history: seq<OrderReport>, e: Engine<S>) {
    && ClockOk(e) && Fifo(cfg, e.feed.queue, e.core.now) && LevelsOk(e.feed.queue)
    && Owned(cfg, history, e.core, e.feed.queue)
  }

  lemma {:induction false} TrailSameViews(xs: Venues, d: Desk, a: Queue, b: Queue, id: int)
    requires SameViews(a, b)
    ensures TrailOf(xs, d, b, id) == TrailOf(xs, d, a, id)
  {
    hide ReportsFor, OrdersIn, Tally;
    assert SameFor(a, b, id);
  }

  lemma {:induction false} LifeSameViews(xs: Venues, d: Desk, a: Queue, b: Queue)
    requires LifeOk(xs, d, a) && SameViews(a, b)
    ensures LifeOk(xs, d, b)
  {
    hide ReportsFor, OrdersIn, Tally, World, ArrivalsOf, TrailOk, TrailOf;
    forall id ensures TrailOk(TrailOf(xs, d, b, id)) {
      TrailSameViews(xs, d, a, b, id);
      assert TrailOk(TrailOf(xs, d, a, id));
    }
  }

  lemma {:induction false} StreamsSameViews(history: seq<OrderReport>, xs: Venues, d: Desk, a: Queue, b: Queue)
    requires Streams(history, xs, d, a) && SameViews(a, b)
    ensures Streams(history, xs, d, b)
  {
    hide SameViews, StreamOk, TrailOf, Of;
    forall id ensures StreamOk(TrailOf(xs, d, b, id), Of(history, id)) {
      TrailSameViews(xs, d, a, b, id);
      assert StreamOk(TrailOf(xs, d, a, id), Of(history, id));
    }
  }

  lemma {:induction false} OwnedSameViews<S>(cfg: Config, history: seq<OrderReport>, c: Core<S>, a: Queue, b: Queue)
    requires Owned(cfg, history, c, a) && SameViews(a, b)
    ensures Owned(cfg, history, c, b)
  {
    LifeSameViews(c.exchanges, DeskOf(c), a, b);
    StreamsSameViews(history, c.exchanges, DeskOf(c), a, b);
    hide LifeOk, Streams, MoneyOk, Limits, Bounded, VenuesCovered, ArrivalsCovered, OrdersIn, SameFor;
  }

  // The clock, the strategy and the buffers are none of the invariant's business.
  lemma {:induction false} OwnedSameState<S>(cfg: Config, history: seq<OrderReport>, c: Core<S>, c': Core<S>, q: Queue)
    requires Owned(cfg, history, c, q)
    requires c'.exchanges == c.exchanges && c'.routes == c.routes && c'.nextOrderId == c.nextOrderId
             && c'.ledger == c.ledger
    ensures Owned(cfg, history, c', q)
  {
    assert DeskOf(c') == DeskOf(c);
    hide LifeOk, Streams, MoneyOk, PositionOk;
  }

  // ---- One iteration --------------------------------------------------------------------------------

  lemma {:induction false} ItemsOutside(latency: int, f: Feed, p: Push)
    requires !NextItem(f).Neither? && p in ItemPushes(latency, f)
    ensures Outside(p.kind) && LevelOk(p.kind)
  {
  }

  lemma {:induction false} IngestOneSound<S>(cfg: Config, history: seq<OrderReport>, e: Engine<S>)
    requires GoodConfig(cfg) && Sound(cfg, history, e) && CanIngest(e.feed)
    ensures Sound(cfg, history, Engine(e.core, IngestOne(cfg.feedLatency, e.feed)))
  {
    var f, c := e.feed, e.core;
    var ps := ItemPushes(cfg.feedLatency, f);
    IngestOneOk(cfg.feedLatency, f, c.now);
    NextIsEarliest(f, c.now);
    ItemPushesFrom(cfg.feedLatency, f, c.now);
    AllFromEarlier(ps, c.now, ItemTime(f));
    forall p | p in ps ensures Outside(p.kind) && LevelOk(p.kind) && TimedAt(p.ts, p.kind) {
      ItemsOutside(cfg.feedLatency, f, p);
    }
    PushAllEach(f.queue, f.nextSeq, ps, (ts, k) => TimedAt(ts, k));
    hide PushAll, ItemPushes, NextItem, QueueOk, SourcesOk, AllFrom, Owned, Fifo, LevelsOk, SameViews, Outside, TimedAt;
    OutsidePushes(f.queue, f.nextSeq, c.now, ps);
    OutsideFifo(cfg, f.queue, f.nextSeq, c.now, ps);
    OwnedSameViews(cfg, history, c, f.queue, PushAll(f.queue, f.nextSeq, ps));
  }

  lemma {:induction false} IngestSound<S>(cfg: Config, history: seq<OrderReport>, e: Engine<S>)
    requires GoodConfig(cfg) && Sound(cfg, history, e)
    ensures Sound(cfg, history, Engine(e.core, Ingest(cfg.feedLatency, e.feed)))
    decreases Remaining(e.feed)
  {
    hide Sound, IngestOne, CanIngest;
    if CanIngest(e.feed) {
      IngestOneSound(cfg, history, e);
      IngestOneRemaining(cfg.feedLatency, e.feed);
      IngestSound(cfg, history, Engine(e.core, IngestOne(cfg.feedLatency, e.feed)));
    }
  }

  // The popped event and what is left, with the clock moved forward.
  ghost predicate Popped<S>(env: Env<S>, history: seq<OrderReport>, c: Core<S>, e: Event, f: Feed) {
    && Ready(env, c, e, f.queue, f.nextSeq) && Owned(env.cfg, history, c, [e] + f.queue)
    && LevelOk(e.kind) && LevelsOk(f.queue)
  }

  lemma {:induction false} PopRoom(cfg: Config, q: Queue, next: int, now: int)
    requires QueueOk(q, next, now) && Fifo(cfg, q, now) && LevelsOk(q) && q != []
    ensures Room(cfg, q[1..], next, q[0].ts) && LevelsOk(q[1..]) && LevelOk(q[0].kind)
  {
    PopOk(q, next, now);
    assert q[0] in q;
    forall x | x in q[1..] ensures x in q {}
  }

  lemma {:induction false} PopSound<S>(env: Env<S>, history: seq<OrderReport>, e: Engine<S>)
    requires GoodConfig(env.cfg) && Sound(env.cfg, history, e) && PopFeed(env.cfg.feedLatency, e.feed).Some?
    ensures
      var (event, f) := PopFeed(env.cfg.feedLatency, e.feed).value;
      Popped(env, history, e.core.(now := event.ts), event, f)
  {
    IngestSound(env.cfg, history, e);
    var g := Ingest(env.cfg.feedLatency, e.feed);
    var (event, f) := PopFeed(env.cfg.feedLatency, e.feed).value;
    assert g.queue == [event] + f.queue;
    PopClock(env, e);
    hide Ingest, PopFeed, QueueOk, SourcesOk;
    PopRoom(env.cfg, g.queue, g.nextSeq, e.core.now);
    hide Fifo, LifeOk;
    OwnedSameState(env.cfg, history, e.core, e.core.(now := event.ts), g.queue);
    hide Streams, MoneyOk, PositionOk;
  }

  lemma {:induction false} HandleOwned<S(!new)>(env: Env<S>, history: seq<OrderReport>, c: Core<S>, e: Event, f: Feed)
    requires GoodStrategy(env) && Popped(env, history, c, e, f)
    ensures
      var eff := Handle(env, c, e.kind);
      eff.Effect? ==>
        && FreshPushes(env.cfg, c.now, eff.pushes) && eff.core.now == c.now
        && Owned(env.cfg, Delivered(history, e), eff.core, Schedule(f, eff.pushes).queue)
        && LevelsOk(Schedule(f, eff.pushes).queue)
        && Room(env.cfg, Schedule(f, eff.pushes).queue, Schedule(f, eff.pushes).nextSeq, c.now)
  {
    HandleFresh(env, c, e.kind);
    hide Handle, PushAll, LifeAt, Room, GoodStrategy, StreamsAt, PositionAt, MoneyOk, FreshPushes, LevelsOk,
      OneOrderLimit;
    HandleLife(env, c, e, f.queue, f.nextSeq);
    HandleStreams(env, history, c, e, f.queue, f.nextSeq);
    HandleMoney(env, c, e, f.queue);
    if OneOrderLimit(env.cfg) {
      HandlePosition(env, c, e, f.queue, f.nextSeq);
    }
    var eff := Handle(env, c, e.kind);
    if eff.Effect? {
      FreshLevels(env.cfg, f.queue, f.nextSeq, c.now, eff.pushes);
      RoomAfter(env.cfg, f.queue, f.nextSeq, c.now, eff.pushes);
    }
  }

  lemma {:induction false} FlushOwned<S(!new)>(env: Env<S>, history: seq<OrderReport>, c: Core<S>, f: Feed)
    requires GoodConfig(env.cfg) && GoodStrategy(env) && LevelsOk(f.queue)
    requires Owned(env.cfg, history, c, f.queue) && Room(env.cfg, f.queue, f.nextSeq, c.now)
    ensures
      var eff := Flush(env, c, c.now);
      eff.Effect? ==>
        && eff.core.now == c.now
        && Owned(env.cfg, history, eff.core, Schedule(f, eff.pushes).queue)
        && LevelsOk(Schedule(f, eff.pushes).queue)
        && Room(env.cfg, Schedule(f, eff.pushes).queue, Schedule(f, eff.pushes).nextSeq, c.now)
  {
    FlushFresh(env, c, c.now);
    FlushLedger(env, c, c.now);
    hide Flush, PushAll, LifeAt, Room, GoodStrategy, StreamsAt, PositionAt, MoneyOk, FreshPushes, LevelsOk,
      OneOrderLimit;
    FlushLife(env, c, f.queue, f.nextSeq);
    FlushStreams(env, history, c, f.queue, f.nextSeq);
    if OneOrderLimit(env.cfg) {
      FlushPosition(env, c, f.queue, f.nextSeq);
    }
    var eff := Flush(env, c, c.now);
    if eff.Effect? {
      FreshLevels(env.cfg, f.queue, f.nextSeq, c.now, eff.pushes);
      RoomAfter(env.cfg, f.queue, f.nextSeq, c.now, eff.pushes);
    }
  }

  lemma {:induction false} FinishOwned<S(!new)>(
    env: Env<S>, history: seq<OrderReport>, eff: Effect<S>, f: Feed, event: Event)
    requires GoodConfig(env.cfg) && GoodStrategy(env) && eff.Effect?
    requires
      var f1 := Schedule(f, eff.pushes);
      && Owned(env.cfg, history, eff.core, f1.queue) && LevelsOk(f1.queue)
      && Room(env.cfg, f1.queue, f1.nextSeq, eff.core.now)
    ensures
      var o := Finish(env, eff, f, event);
      o.Stepped? ==>
        && Owned(env.cfg, history, o.engine.core, o.engine.feed.queue) && LevelsOk(o.engine.feed.queue)
        && Fifo(env.cfg, o.engine.feed.queue, o.engine.core.now)
  {
    var f1 := Schedule(f, eff.pushes);
    hide Owned, Flush, Schedule, LevelsOk, Fifo, QueueOk, GoodStrategy;
    if WantsFlush(env, eff) {
      if MustWait(f1.queue, eff.core.now) {
        OwnedSameState(env.cfg, history, eff.core, eff.core.(batch := eff.core.batch.(pendingWakeup := true)),
                       f1.queue);
      } else {
        FlushOwned(env, history, eff.core, f1);
        var fl := Flush(env, eff.core, eff.core.now);
        if fl.Effect? {
          OwnedSameState(env.cfg, history, fl.core, fl.core.(batch := fl.core.batch.(pendingWakeup := false)),
                         Schedule(f1, fl.pushes).queue);
        }
      }
    }
  }

  // The reports delivered once this iteration is over.
  function Heard<S>(history: seq<OrderReport>, o: Outcome<S>): seq<OrderReport> {
    if o.Stepped? then Delivered(history, o.event) else history
  }

  lemma {:induction false} StepSound<S(!new)>(env: Env<S>, history: seq<OrderReport>, e: Engine<S>)
    requires GoodConfig(env.cfg) && GoodStrategy(env) && Sound(env.cfg, history, e)
    ensures
      var o := Advance(env, e);
      o.Stepped? ==> Sound(env.cfg, Heard(history, o), o.engine)
  {
    AdvanceClock(env, e);
    hide ClockOk, Fifo, LevelsOk, Owned, PopFeed, Popped, Handle, Schedule, GoodStrategy, Flush, Room, Finish;
    match PopFeed(env.cfg.feedLatency, e.feed) {
      case None =>
      case Some((event, f)) =>
        PopSound(env, history, e);
        var c := e.core.(now := event.ts);
        HandleOwned(env, history, c, event, f);
        var eff := Handle(env, c, event.kind);
        if eff.Effect? {
          FinishOwned(env, Delivered(history, event), eff, f, event);
        }
    }
  }

  lemma {:induction false} DrainOwned<S(!new)>(env: Env<S>, history: seq<OrderReport>, c: Core<S>, f: Feed)
    requires GoodConfig(env.cfg) && GoodStrategy(env) && LevelsOk(f.queue)
    requires Owned(env.cfg, history, c, f.queue) && Room(env.cfg, f.queue, f.nextSeq, c.now)
    ensures
      var o := Drain(env, c, f);
      (o.Flushed? || o.Done?) ==>
        && Owned(env.cfg, history, o.engine.core, o.engine.feed.queue) && LevelsOk(o.engine.feed.queue)
        && Fifo(env.cfg, o.engine.feed.queue, o.engine.core.now)
        && (o.Done? ==> o.engine == Engine(c, f))
  {
    hide LevelsOk, Owned, Schedule, GoodStrategy, Flush, Fifo, QueueOk;
    FlushOwned(env, history, c, f);
  }

  lemma {:induction false} FeedRoom(cfg: Config, f: Feed, now: int)
    requires FeedOk(f, now) && Fifo(cfg, f.queue, now)
    ensures Room(cfg, f.queue, f.nextSeq, now)
  {
  }

  lemma {:induction false} DrainSound<S(!new)>(env: Env<S>, history: seq<OrderReport>, e: Engine<S>)
    requires GoodConfig(env.cfg) && GoodStrategy(env) && Sound(env.cfg, history, e)
    ensures
      var o := Advance(env, e);
      (o.Flushed? || o.Done?) ==> Sound(env.cfg, history, o.engine)
  {
    AdvanceClock(env, e);
    IngestSound(env.cfg, history, e);
    hide LevelsOk, Owned, Process, GoodStrategy, Drain, Ingest, FeedOk, Timed, Fifo;
    if PopFeed(env.cfg.feedLatency, e.feed).None? {
      var f := Ingest(env.cfg.feedLatency, e.feed);
      FeedRoom(env.cfg, f, e.core.now);
      DrainOwned(env, history, e.core, f);
    } else {
      var (event, f) := PopFeed(env.cfg.feedLatency, e.feed).value;
      ProcessSteps(env, e.core, f, event);
    }
  }

  // ---- Runs ------------------------------------------------------------------------------------------

  // The reports delivered in the first n iterations.
  function ReportsDelivered<S>(env: Env<S>, e: Engine<S>, n: nat): seq<OrderReport>
  {
    if n == 0 then []
    else
      match After(env, e, n - 1)
      case None => []
      case Some(last) => Heard(ReportsDelivered(env, e, n - 1), Advance(env, last))
  }

  lemma {:induction false} EmptyOwned<S>(cfg: Config, c: Core<S>)
    requires c.exchanges == map[] && c.routes == map[] && c.nextOrderId == 1 && MoneyOk(c.ledger)
    requires c.ledger.account == EMPTY_ACCOUNT && Limits(cfg, c.ledger.guard)
    ensures Owned(cfg, [], c, [])
  {
    hide MoneyOk;
    forall id ensures StreamOk(TrailOf(c.exchanges, DeskOf(c), [], id), Of([], id)) {
      var none: seq<OrderReport> := [];
      assert Tells(none, 0, 0);
      assert none + none == none;
      assert Of([], id) == none;
    }
  }

  lemma {:induction false} StartSound<S>(
    cfg: Config, s: S, sources: seq<seq<Tick>>, l3Sources: seq<seq<L3Update>>, l3Symbols: set<int>, external: seq<Push>)
    requires SourcesOk(Feed([], 0, sources, l3Sources), 0)
    requires forall p :: p in external ==> External(p) && p.ts >= 0
    ensures Sound(cfg, [], Start(cfg, s, sources, l3Sources, l3Symbols, external))
  {
    var e := Start(cfg, s, sources, l3Sources, l3Symbols, external);
    StartClock(cfg, s, sources, l3Sources, l3Symbols, external);
    NewMoneyOk(cfg);
    EmptyOwned(cfg, e.core);
    forall i | 0 <= i < |external| ensures 0 <= external[i].ts {
      assert external[i] in external;
    }
    hide Owned, PushAll, SourcesOk, MoneyOk, SameViews;
    OutsidePushes([], 0, 0, external);
    OutsideFifo(cfg, [], 0, 0, external);
    OwnedSameViews(cfg, [], e.core, [], e.feed.queue);
  }

  // Every state of every run is sound, whatever the strategy does.
  lemma {:induction false} RunKeepsSound<S(!new)>(env: Env<S>, e: Engine<S>, n: nat)
    requires GoodConfig(env.cfg) && GoodStrategy(env) && Sound(env.cfg, [], e) && After(env, e, n).Some?
    ensures Sound(env.cfg, ReportsDelivered(env, e, n), After(env, e, n).value)
    decreases n
  {
    hide Advance, Sound, GoodStrategy;
    if n > 0 {
      RunKeepsSound(env, e, n - 1);
      StepSound(env, ReportsDelivered(env, e, n - 1), After(env, e, n - 1).value);
      DrainSound(env, ReportsDelivered(env, e, n - 1), After(env, e, n - 1).value);
    }
  }
}
