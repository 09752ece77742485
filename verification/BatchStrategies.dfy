// Which runs meet the batch deadline by what the strategy does: those in which every cancel issued when
// told of a funding payment finds its order tracked. One that cancels an unknown order then can miss it.
module BatchStrategies {
  import opened Types
  import opened Ledgers
  import opened Exchanges
  import opened EventQueues
  import opened Feeds
  import opened EngineSpec
  import opened EngineClock
  import opened QueueViews
  import opened Lifecycle
  import opened LifecycleSteps
  import opened LifecycleRun
  import opened ReportStreams
  import opened EngineMoney
  import opened PositionBound
  import opened EngineInvariant
  import opened EngineGuarantees
  import opened Batching
  import opened BatchDeadline

  ghost predicate FundingCancelsNothing<S(!new)>(env: Env<S>) {
    forall s, cb: Callback :: cb.payload.OnFunding? && env.strategy(s, cb).Reply? ==>
      NoCancel(env.strategy(s, cb).commands)
  }

  predicate NoCancel(cmds: seq<Command>) {
    forall i :: 0 <= i < |cmds| ==> !cmds[i].CancelOrder?
  }

  ghost predicate NoCancelPushed(ps: seq<Push>) {
    forall p :: p in ps ==> !p.kind.EvCancel?
  }

  // A cancel other than the given ones.
  predicate OtherCancel(x: Event, asked: set<Event>) {
    x.kind.EvCancel? && x !in asked
  }

  ghost predicate HasCancel(q: Queue, asked: set<Event>) {
    exists x :: x in q && OtherCancel(x, asked)
  }

  // Cancels not asked for in a funding callback are only queued at the present instant, with an empty
  // buffer and no delivery to come before they have all been handled.
  ghost predicate CancelsQuiet<S>(e: Engine<S>, asked: set<Event>) {
    HasCancel(e.feed.queue, asked) ==> QuietAround(e.feed, e.core.batch.ticks, e.core.now, asked)
  }

  ghost predicate QuietAround(f: Feed, ticks: seq<Tick>, now: int, asked: set<Event>) {
    && ticks == [] && SourcesOk(f, now + 1)
    && forall x :: x in f.queue ==> (OtherCancel(x, asked) ==> x.ts == now) && (x.kind.EvDelivery? ==> now < x.ts)
  }

  // The cancel events among these pushes, as the queue numbers them.
  function CancelsAmong(next: int, ps: seq<Push>): set<Event> {
    set i | 0 <= i < |ps| && ps[i].kind.EvCancel? :: Event(ps[i].ts, next + i, ps[i].kind)
  }

  // The cancels that the strategy issues in a funding callback while this event is handled.
  function AskedBy<S>(env: Env<S>, c: Core<S>, f: Feed, event: Event): set<Event> {
    if !event.kind.EvFunding? then {}
    else
      match Handle(env, c.(now := event.ts), event.kind)
      case Fault => {}
      case Effect(_, ps, _, _, _) => CancelsAmong(f.nextSeq, ps)
  }

  // All the cancels issued in funding callbacks during the first n iterations.
  function Asked<S>(env: Env<S>, e: Engine<S>, n: nat): set<Event> {
    if n == 0 then {}
    else
      match After(env, e, n - 1)
      case None => {}
      case Some(last) =>
        Asked(env, e, n - 1)
        + match PopFeed(env.cfg.feedLatency, last.feed)
          case None => {}
          case Some((event, f)) => AskedBy(env, last.core, f, event)
  }

  // Is the next event a cancel issued in a funding callback whose order is not tracked?
  predicate AskedInVain<S>(env: Env<S>, e: Engine<S>, asked: set<Event>) {
    match PopFeed(env.cfg.feedLatency, e.feed)
    case None => false
    case Some((event, _)) => event in asked && event.kind.EvCancel? && event.kind.id !in e.core.routes
  }

  // ---- Who schedules cancels -----------------------------------------------------------------------

  lemma {:induction false} CommandsCancelNothing(cfg: Config, l: Ledger, d: Desk, cmds: seq<Command>, ts: int)
    requires NoCancel(cmds)
    ensures NoCancelPushed(Commands(cfg, l, d, cmds, ts).1)
    decreases cmds
  {
    if cmds != [] {
      CommandsCancelNothing(cfg, l, OneCommand(cfg, l, d, cmds[0], ts).0, cmds[1..], ts);
    }
  }

  lemma {:induction false} FundingCallCancelsNothing<S(!new)>(env: Env<S>, c: Core<S>, event: FundingEvent)
    requires FundingCancelsNothing(env)
    ensures
      var eff := Call(env, c, c.now, OnFunding(event));
      eff.Effect? ==> NoCancelPushed(eff.pushes)
  {
    hide Commands, NoCancelPushed, NoCancel;
    var cb := Callback(c.now, c.market, OnFunding(event));
    match env.strategy(c.strategy, cb) {
      case Reply(s, cmds) =>
        assert NoCancel(env.strategy(c.strategy, cb).commands);
        CommandsCancelNothing(env.cfg, c.ledger, Desk(c.routes, c.nextOrderId), cmds, c.now);
      case _ =>
    }
  }

  lemma {:induction false} MarketAckCancelsNothing<S>(env: Env<S>, c: Core<S>, s: int, id: int)
    requires id in ExchangeAt(c, s).orders
    ensures MarketAck(env, c, s, id).Effect? ==> NoCancelPushed(MarketAck(env, c, s, id).pushes)
  {
    hide Record, JobOf, FillMarket, ForceCancel, ExchangeAt;
  }

  // In Batch mode a handler schedules a cancel only if it is that of a funding payment.
  lemma {:induction false} HandleCancelsNothing<S>(env: Env<S>, c: Core<S>, kind: EventKind)
    requires env.cfg.mode == BatchMode && !kind.EvFunding?
    ensures Handle(env, c, kind).Effect? ==> NoCancelPushed(Handle(env, c, kind).pushes)
  {
    hide Call, OnTrade, Record, JobsOf, UpdateL3, Submit, FillMarket, ForceCancel, AckNew, Cancel, AckCancel,
      ExchangeAt, Remove, ComputeFee, UpdateL2, MarketAck;
    if kind.EvAck? && kind.id in c.routes && kind.id in ExchangeAt(c, c.routes[kind.id]).orders {
      MarketAckCancelsNothing(env, c, c.routes[kind.id], kind.id);
    }
  }

  lemma {:induction false} PushesAddNoCancel(q: Queue, next: int, ps: seq<Push>)
    requires NoCancelPushed(ps)
    ensures forall x :: x in PushAll(q, next, ps) && x.kind.EvCancel? ==> x in q
  {
    hide PushAll;
    forall x | x in PushAll(q, next, ps) && x.kind.EvCancel? ensures x in q {
      PushAllMembers(q, next, ps, x);
      if i :| 0 <= i < |ps| && x == Event(ps[i].ts, next + i, ps[i].kind) {
        assert ps[i] in ps;
      }
    }
  }

  // The cancels queued after the handler were queued before, or have just been asked for.
  lemma {:induction false} HandledCancels<S>(env: Env<S>, c: Core<S>, f: Feed, event: Event)
    requires env.cfg.mode == BatchMode && c.now == event.ts && Handle(env, c, event.kind).Effect?
    ensures
      var q := Schedule(f, Handle(env, c, event.kind).pushes).queue;
      forall x :: x in q && x.kind.EvCancel? ==> x in f.queue || x in AskedBy(env, c, f, event)
  {
    var ps := Handle(env, c, event.kind).pushes;
    assert c.(now := event.ts) == c;
    assert event.kind.EvFunding? ==> AskedBy(env, c, f, event) == CancelsAmong(f.nextSeq, ps);
    if !event.kind.EvFunding? {
      HandleCancelsNothing(env, c, event.kind);
      hide Handle, PushAll, NoCancelPushed;
      PushesAddNoCancel(f.queue, f.nextSeq, ps);
    } else {
      hide Handle, PushAll, AskedBy;
      forall x | x in PushAll(f.queue, f.nextSeq, ps) && x.kind.EvCancel?
        ensures x in f.queue || x in CancelsAmong(f.nextSeq, ps)
      {
        PushAllMembers(f.queue, f.nextSeq, ps, x);
      }
    }
  }

  // ---- The invariant step by step ---------------------------------------------------------------------

  lemma {:induction false} HeadNow(f: Feed, now: int)
    requires FeedOk(f, now) && exists y :: y in f.queue && y.ts == now
    ensures f.queue != [] && f.queue[0].ts == now
  {
    var y :| y in f.queue && y.ts == now;
    var i :| 0 <= i < |f.queue| && f.queue[i] == y;
    assert i > 0 ==> Before(f.queue[0], f.queue[i]);
  }

  lemma {:induction false} CancelStands(f: Feed, ticks: seq<Tick>, now: int, asked: set<Event>)
    requires FeedOk(f, now) && HasCancel(f.queue, asked) && QuietAround(f, ticks, now, asked)
    ensures f.queue != [] && f.queue[0].ts == now && SourcesOk(f, now + 1)
  {
    var y :| y in f.queue && OtherCancel(y, asked);
    assert y.ts == now;
    hide SourcesOk;
    HeadNow(f, now);
  }

  lemma {:induction false} QuietTail(
    f: Feed, ticks: seq<Tick>, now: int, event: Event, rest: Feed, asked: set<Event>)
    requires QuietAround(f, ticks, now, asked) && f.queue == [event] + rest.queue && rest == f.(queue := rest.queue)
    requires f.queue[0].ts == now
    ensures QuietAround(rest, ticks, event.ts, asked) && event.ts == now && !event.kind.EvDelivery?
  {
    assert f.queue[0] == event && event in f.queue;
    forall x | x in rest.queue ensures x in f.queue {}
    SourcesIgnoreQueue(f, rest, now + 1);
    hide SourcesOk;
  }

  lemma {:induction false} NoIngest(latency: int, f: Feed, now: int)
    requires SourcesOk(f, now + 1) && f.queue != [] && f.queue[0].ts == now
    ensures Ingest(latency, f) == f
  {
    hide NextItem;
    if !NextItem(f).Neither? {
      NextIsEarliest(f, now + 1);
    }
  }

  lemma {:induction false} IngestAddsNoCancel(latency: int, f: Feed)
    ensures forall x :: x in Ingest(latency, f).queue && x.kind.EvCancel? ==> x in f.queue
    decreases Remaining(f)
  {
    hide PushAll, NextItem;
    if CanIngest(f) {
      IngestOneRemaining(latency, f);
      var g, ps := IngestOne(latency, f), ItemPushes(latency, f);
      IngestAddsNoCancel(latency, g);
      forall p | p in ps ensures !p.kind.EvCancel? {
        ItemsOutside(latency, f, p);
      }
      PushesAddNoCancel(f.queue, f.nextSeq, ps);
    }
  }

  // With a cancel queued, nothing can be ingested and the popped event is of the same instant.
  lemma {:induction false} PopQuiet<S>(env: Env<S>, e: Engine<S>, asked: set<Event>)
    requires GoodConfig(env.cfg) && ClockOk(e) && CancelsQuiet(e, asked) && PopFeed(env.cfg.feedLatency, e.feed).Some?
    ensures
      var (event, f) := PopFeed(env.cfg.feedLatency, e.feed).value;
      HasCancel([event] + f.queue, asked) ==>
        QuietAround(f, e.core.batch.ticks, event.ts, asked) && event.ts == e.core.now && !event.kind.EvDelivery?
  {
    var (event, f) := PopFeed(env.cfg.feedLatency, e.feed).value;
    var g := Ingest(env.cfg.feedLatency, e.feed);
    assert g.queue == [event] + f.queue;
    assert f == g.(queue := f.queue);
    hide PopFeed, Ingest, FeedOk, Timed, QuietAround;
    IngestAddsNoCancel(env.cfg.feedLatency, e.feed);
    if HasCancel(e.feed.queue, asked) {
      CancelStands(e.feed, e.core.batch.ticks, e.core.now, asked);
      NoIngest(env.cfg.feedLatency, e.feed, e.core.now);
      QuietTail(e.feed, e.core.batch.ticks, e.core.now, event, f, asked);
    }
  }

  lemma {:induction false} FreshAddsNoDelivery(cfg: Config, q: Queue, next: int, now: int, ps: seq<Push>)
    requires FreshPushes(cfg, now, ps)
    ensures forall x :: x in PushAll(q, next, ps) && x.kind.EvDelivery? ==> x in q
    ensures forall x :: x in PushAll(q, next, ps) && x.kind.EvCancel? ==> x in q || x.ts == now
  {
    hide PushAll;
    forall x | x in PushAll(q, next, ps) && (x.kind.EvDelivery? || x.kind.EvCancel?)
      ensures (x.kind.EvDelivery? ==> x in q) && (x.kind.EvCancel? ==> x in q || x.ts == now)
    {
      PushAllMembers(q, next, ps, x);
      if i :| 0 <= i < |ps| && x == Event(ps[i].ts, next + i, ps[i].kind) {
        assert ps[i] in ps;
      }
    }
  }

  // After the handler, before any flush.
  lemma {:induction false} HandledQuiet<S>(env: Env<S>, c: Core<S>, e: Event, f: Feed, asked: set<Event>)
    requires GoodConfig(env.cfg) && env.cfg.mode == BatchMode
    requires TimedAt(e.ts, e.kind) && c.now == e.ts && SourcesOk(f, e.ts + 1)
    requires HasCancel([e] + f.queue, asked) ==>
               QuietAround(f, c.batch.ticks, e.ts, asked) && !e.kind.EvDelivery?
    ensures
      var eff := Handle(env, c, e.kind);
      eff.Effect? ==>
        && FreshPushes(env.cfg, e.ts, eff.pushes) && eff.core.now == e.ts
        && CancelsQuiet(Engine(eff.core, Schedule(f, eff.pushes)), asked + AskedBy(env, c, f, e))
  {
    HandleFresh(env, c, e.kind);
    HandleBatch(env, c, e.kind);
    hide Handle, SourcesOk, FreshPushes, PushAll, AskedBy;
    var eff := Handle(env, c, e.kind);
    if eff.Effect? {
      HandledCancels(env, c, f, e);
      var f1, asked' := Schedule(f, eff.pushes), asked + AskedBy(env, c, f, e);
      FreshAddsNoDelivery(env.cfg, f.queue, f.nextSeq, e.ts, eff.pushes);
      SourcesIgnoreQueue(f, f1, e.ts + 1);
      if HasCancel(f1.queue, asked') {
        var y :| y in f1.queue && OtherCancel(y, asked');
        assert y in [e] + f.queue && OtherCancel(y, asked);
        forall x | x in f1.queue && x.kind.EvDelivery? ensures e.ts < x.ts {
          assert x in f.queue;
        }
        forall x | x in f1.queue && OtherCancel(x, asked') ensures x.ts == e.ts {
          assert x in f.queue && OtherCancel(x, asked);
        }
      }
    }
  }

  // A flush empties the buffer while nothing else is due.
  lemma {:induction false} FlushedQuiet<S>(env: Env<S>, c: Core<S>, f: Feed, asked: set<Event>)
    requires GoodConfig(env.cfg) && FeedOk(f, c.now) && SourcesOk(f, c.now + 1) && !MustWait(f.queue, c.now)
    requires CancelsQuiet(Engine(c, f), asked)
    ensures
      var eff := Flush(env, c, c.now);
      eff.Effect? ==> eff.core.now == c.now && CancelsQuiet(Engine(eff.core, Schedule(f, eff.pushes)), asked)
  {
    FlushFresh(env, c, c.now);
    FlushShows(env, c, c.now);
    NoneDue(f, c.now);
    var eff := Flush(env, c, c.now);
    hide Flush, FeedOk, SourcesOk, FreshPushes, PushAll, Passed;
    if eff.Effect? {
      var f1 := Schedule(f, eff.pushes);
      FreshAddsNoDelivery(env.cfg, f.queue, f.nextSeq, c.now, eff.pushes);
      SourcesIgnoreQueue(f, f1, c.now + 1);
      forall x | x in f1.queue && x.kind.EvDelivery? ensures c.now < x.ts {
        assert x in f.queue;
      }
      forall x | x in f1.queue && OtherCancel(x, asked) ensures x.ts == c.now {
        assert x in f.queue ==> c.now < x.ts && HasCancel(f.queue, asked);
      }
    }
  }

  lemma {:induction false} ProcessQuiet<S>(env: Env<S>, c: Core<S>, f: Feed, e: Event, asked: set<Event>)
    requires GoodConfig(env.cfg) && env.cfg.mode == BatchMode
    requires TimedAt(e.ts, e.kind) && FeedOk(f, e.ts) && Timed(f.queue) && SourcesOk(f, e.ts + 1)
    requires HasCancel([e] + f.queue, asked) ==>
               QuietAround(f, c.batch.ticks, e.ts, asked) && !e.kind.EvDelivery?
    ensures Process(env, c, f, e).Stepped? ==>
              CancelsQuiet(Process(env, c, f, e).engine, asked + AskedBy(env, c, f, e))
  {
    var c1 := c.(now := e.ts);
    assert AskedBy(env, c1, f, e) == AskedBy(env, c, f, e);
    hide Handle, Flush, FeedOk, SourcesOk, Timed, Schedule, FreshPushes, QuietAround, HasCancel, AskedBy;
    HandledQuiet(env, c1, e, f, asked);
    var eff := Handle(env, c1, e.kind);
    if eff.Effect? {
      ScheduleOk(env.cfg, f, e.ts, eff.pushes);
      var f1 := Schedule(f, eff.pushes);
      SourcesIgnoreQueue(f, f1, e.ts + 1);
      if WantsFlush(env, eff) && !MustWait(f1.queue, e.ts) {
        FlushedQuiet(env, eff.core, f1, asked + AskedBy(env, c, f, e));
      }
    }
  }

  lemma {:induction false} NoneLeft(f: Feed, now: int)
    requires Remaining(f) == 0 && SourcesOk(f, now)
    ensures SourcesOk(f, now + 1)
  {
    if !NextItem(f).Neither? {
      DropShrinks(f);
    } else {
      NothingLeft(f, now);
    }
  }

  lemma {:induction false} DrainQuiet<S>(env: Env<S>, e: Engine<S>, asked: set<Event>)
    requires GoodConfig(env.cfg) && ClockOk(e) && PopFeed(env.cfg.feedLatency, e.feed).None?
    ensures
      var o := Drain(env, e.core, Ingest(env.cfg.feedLatency, e.feed));
      o.Flushed? ==> CancelsQuiet(o.engine, asked)
  {
    var f := Ingest(env.cfg.feedLatency, e.feed);
    IngestOk(env.cfg.feedLatency, e.feed, e.core.now);
    assert f.queue == [] && Remaining(f) == 0;
    hide Ingest, Flush, SourcesOk, QueueOk;
    NoneLeft(f, e.core.now);
    FlushedQuiet(env, e.core, f, asked);
  }

  // The cancels asked for once the next iteration is over.
  function AskedNext<S>(env: Env<S>, e: Engine<S>, asked: set<Event>): set<Event> {
    asked + match PopFeed(env.cfg.feedLatency, e.feed)
            case None => {}
            case Some((event, f)) => AskedBy(env, e.core, f, event)
  }

  lemma {:induction false} StepQuiet<S>(env: Env<S>, e: Engine<S>, asked: set<Event>)
    requires GoodConfig(env.cfg) && env.cfg.mode == BatchMode && ClockOk(e) && CancelsQuiet(e, asked)
    ensures
      var o := Advance(env, e);
      o.Stepped? || o.Flushed? ==> CancelsQuiet(o.engine, AskedNext(env, e, asked))
  {
    PopClock(env, e);
    hide ClockOk, Process, Ingest, FeedOk, SourcesOk, Timed, Flush, PopFeed, QuietAround, HasCancel, AskedBy;
    match PopFeed(env.cfg.feedLatency, e.feed) {
      case Some((event, f)) =>
        PopQuiet(env, e, asked);
        ProcessQuiet(env, e.core, f, event, asked);
        ProcessSteps(env, e.core, f, event);
      case None =>
        DrainQuiet(env, e, asked);
        assert AskedNext(env, e, asked) == asked;
    }
  }

  // ---- Runs ------------------------------------------------------------------------------------------

  lemma {:induction false} QuietNeverBreaks<S>(
    env: Env<S>, history: seq<OrderReport>, e: Engine<S>, asked: set<Event>)
    requires GoodConfig(env.cfg) && Sound(env.cfg, history, e) && CancelsQuiet(e, asked)
    requires !AskedInVain(env, e, asked)
    ensures !BreaksNext(env, e)
  {
    var pop := PopFeed(env.cfg.feedLatency, e.feed);
    if pop.Some? {
      var (event, f) := pop.value;
      PopSound(env, history, e);
      PopQuiet(env, e, asked);
      hide PopFeed, ClockOk, Fifo, LevelsOk, StreamsAt, MoneyOk, PositionAt, Room, LifeOk;
      if event.kind.EvAck? {
        AckFindsOrder(e.core.exchanges, DeskOf(e.core), event, f.queue);
      } else if OtherCancel(event, asked) {
        assert event in [event] + f.queue;
      }
    }
  }

  lemma {:induction false} RunQuiet<S(!new)>(env: Env<S>, e: Engine<S>, n: nat)
    requires Reaches(env, e, n) && env.cfg.mode == BatchMode && CancelsQuiet(e, {})
    ensures CancelsQuiet(After(env, e, n).value, Asked(env, e, n))
    decreases n
  {
    hide Advance, ClockOk, Fifo, LevelsOk, Owned, GoodStrategy, CancelsQuiet, PopFeed, AskedBy;
    if n > 0 {
      RunQuiet(env, e, n - 1);
      ClockNeverRunsBack(env, e, n - 1, n - 1);
      StepQuiet(env, After(env, e, n - 1).value, Asked(env, e, n - 1));
    }
  }

  // An empty buffer and no cancel queued, as in every start.
  ghost predicate BeginsQuietly<S>(e: Engine<S>) {
    e.core.batch.ticks == [] && e.core.batch.timer.None? && forall x :: x in e.feed.queue ==> !x.kind.EvCancel?
  }

  lemma {:induction false} StartsQuietly<S>(
    cfg: Config, s: S, sources: seq<seq<Tick>>, l3Sources: seq<seq<L3Update>>, l3Symbols: set<int>,
    external: seq<Push>)
    requires forall p :: p in external ==> External(p)
    ensures BeginsQuietly(Start(cfg, s, sources, l3Sources, l3Symbols, external))
  {
    hide PushAll;
    PushesAddNoCancel([], 0, external);
  }

  // If every cancel issued in a funding callback finds its order tracked when it is handled, every tick
  // is handed over within the maximum age.
  lemma {:induction false} DeadlineIsMet<S(!new)>(env: Env<S>, e: Engine<S>, n: nat)
    requires Reaches(env, e, n) && Limited(env.cfg) && BeginsQuietly(e)
    requires forall k :: 0 <= k < n && After(env, e, k).Some? ==>
               !AskedInVain(env, After(env, e, k).value, Asked(env, e, k))
    ensures HandedInTime(env.cfg, AllCalls(env, e, n))
  {
    hide After, Advance, ClockOk, Owned, GoodStrategy, BreaksNext, Asked, AskedInVain, ReportsDelivered;
    forall k | 0 <= k < n && After(env, e, k).Some? ensures !BreaksNext(env, After(env, e, k).value) {
      RunQuiet(env, e, k);
      RunKeepsSound(env, e, k);
      QuietNeverBreaks(env, ReportsDelivered(env, e, k), After(env, e, k).value, Asked(env, e, k));
    }
    BatchesMeetTheirDeadline(env, e, n);
  }

  lemma {:induction false} NothingAskedBy<S(!new)>(env: Env<S>, c: Core<S>, f: Feed, event: Event)
    requires FundingCancelsNothing(env)
    ensures AskedBy(env, c, f, event) == {}
  {
    hide Call, Fund, FundingMark, FundingCancelsNothing;
    if event.kind.EvFunding? {
      var c1 := c.(now := event.ts);
      var mark := FundingMark(c1, event.kind.funding.symbolId);
      var c2 := if mark.Some? then c1.(ledger := Fund(c1.ledger, event.kind.funding, mark.value)) else c1;
      FundingCallCancelsNothing(env, c2, event.kind.funding);
    }
  }

  lemma {:induction false} NothingAsked<S(!new)>(env: Env<S>, e: Engine<S>, n: nat)
    requires FundingCancelsNothing(env)
    ensures Asked(env, e, n) == {}
    decreases n
  {
    hide Advance, FundingCancelsNothing, AskedBy, PopFeed;
    if n > 0 {
      NothingAsked(env, e, n - 1);
      match After(env, e, n - 1) {
        case None =>
        case Some(last) =>
          match PopFeed(env.cfg.feedLatency, last.feed) {
            case None =>
            case Some((event, f)) => NothingAskedBy(env, last.core, f, event);
          }
      }
    }
  }

  // In particular if the strategy cancels nothing in its funding callback, in every run from a start.
  lemma {:induction false} CautiousStrategiesMeetIt<S(!new)>(
    env: Env<S>, s: S, sources: seq<seq<Tick>>, l3Sources: seq<seq<L3Update>>, l3Symbols: set<int>,
    external: seq<Push>, n: nat)
    requires GoodConfig(env.cfg) && GoodStrategy(env) && FundingCancelsNothing(env) && Limited(env.cfg)
    requires SourcesOk(Feed([], 0, sources, l3Sources), 0)
    requires forall p :: p in external ==> External(p) && p.ts >= 0
    requires After(env, Start(env.cfg, s, sources, l3Sources, l3Symbols, external), n).Some?
    ensures HandedInTime(env.cfg, AllCalls(env, Start(env.cfg, s, sources, l3Sources, l3Symbols, external), n))
  {
    var e := Start(env.cfg, s, sources, l3Sources, l3Symbols, external);
    StartSound(env.cfg, s, sources, l3Sources, l3Symbols, external);
    StartsQuietly(env.cfg, s, sources, l3Sources, l3Symbols, external);
    hide Start, Sound, GoodStrategy, FundingCancelsNothing, Asked, After, Limited, SourcesOk, BeginsQuietly, PopFeed;
    forall k: nat | k < n ensures Asked(env, e, k) == {} {
      NothingAsked(env, e, k);
    }
    DeadlineIsMet(env, e, n);
  }
}
