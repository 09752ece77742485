// The batch deadline, exactly: from a start, a finished run hands some tick over too late if and only
// if it strands a batch, that is, a handler that returns early swallows the event the batch was
// waiting for while another event is still to come.
module DeadlineExact {
  import opened Types
  import opened Ledgers
  import opened Exchanges
  import opened EventQueues
  import opened Feeds
  import opened EngineSpec
  import opened EngineClock
  import opened Batching
  import opened BatchDeadline

  // ---- The timer of the oldest tick ----------------------------------------------------------------

  function Deadline(cfg: Config, b: Batch): int
    requires b.ticks != []
  {
    b.ticks[0].tsLocal + cfg.maxBatch
  }

  predicate TimerOf(b: Batch, x: Event) {
    x.kind.EvTimer? && b.timer == Some(x.kind.timerId)
  }

  // The buffer's timer is queued, and wherever it is queued it stands at the oldest tick's deadline.
  ghost predicate Exactly(cfg: Config, b: Batch, q: Queue)
    requires b.ticks != []
  {
    && (exists x :: x in q && TimerOf(b, x))
    && (forall x :: x in q && TimerOf(b, x) ==> x.ts == Deadline(cfg, b))
  }

  ghost predicate OldestFirst(b: Batch) {
    forall i :: 0 <= i < |b.ticks| ==> b.ticks[0].tsLocal <= b.ticks[i].tsLocal
  }

  ghost predicate TimersKnown(b: Batch, q: Queue) {
    forall x :: x in q && x.kind.EvTimer? ==> x.kind.timerId < b.nextTimer
  }

  // Either the timer of the oldest tick is still to come, or this is the oldest tick's deadline.
  ghost predicate Punctual(cfg: Config, b: Batch, q: Queue, now: int) {
    && TimersKnown(b, q) && OldestFirst(b)
    && (b.ticks != [] ==> Exactly(cfg, b, q) || now == Deadline(cfg, b))
  }

  ghost predicate OnSchedule<S>(cfg: Config, e: Engine<S>) {
    OnTime(cfg, e) && Punctual(cfg, e.core.batch, e.feed.queue, e.core.now)
  }

  // ---- Which timers are scheduled --------------------------------------------------------------------

  ghost predicate NoTimers(ps: seq<Push>) {
    forall p :: p in ps ==> !p.kind.EvTimer?
  }

  // Only a delivery into an empty batch schedules a timer, with the batch's next number.
  ghost predicate TimerPushes(cfg: Config, b: Batch, kind: EventKind, ps: seq<Push>) {
    if kind.EvDelivery? && b.timer.None? then ps == [Push(kind.tick.tsLocal + cfg.maxBatch, EvTimer(b.nextTimer))]
    else NoTimers(ps)
  }

  lemma {:induction false} CommandsNoTimers(cfg: Config, l: Ledger, d: Desk, cmds: seq<Command>, ts: int)
    ensures NoTimers(Commands(cfg, l, d, cmds, ts).1)
    decreases cmds
  {
    if cmds != [] {
      CommandsNoTimers(cfg, l, OneCommand(cfg, l, d, cmds[0], ts).0, cmds[1..], ts);
    }
  }

  lemma {:induction false} CallNoTimers<S>(env: Env<S>, c: Core<S>, ts: int, payload: Payload)
    ensures Call(env, c, ts, payload).Effect? ==> NoTimers(Call(env, c, ts, payload).pushes)
  {
    hide Commands, NoTimers;
    match env.strategy(c.strategy, Callback(ts, c.market, payload)) {
      case Reply(s, cmds) => CommandsNoTimers(env.cfg, c.ledger, Desk(c.routes, c.nextOrderId), cmds, ts);
      case StrategyError =>
    }
  }

  lemma {:induction false} FlushNoTimers<S>(env: Env<S>, c: Core<S>, ts: int)
    ensures
      var eff := Flush(env, c, ts);
      eff.Effect? ==> NoTimers(eff.pushes) && eff.core.batch.nextTimer == c.batch.nextTimer
  {
    hide Commands;
    match HandOver(env, c.strategy, c.market, c.batch, ts) {
      case Handover(s, cmds, calls) =>
        CommandsNoTimers(env.cfg, c.ledger, Desk(c.routes, c.nextOrderId), cmds, ts);
      case Refused =>
    }
  }

  lemma {:induction false} AckNoTimers<S>(env: Env<S>, c: Core<S>, id: int)
    requires id in c.routes && id in ExchangeAt(c, c.routes[id]).orders
    ensures Handle(env, c, EvAck(id)).Effect? ==> NoTimers(Handle(env, c, EvAck(id)).pushes)
  {
    hide Record, JobOf, FillMarket, ForceCancel, ExchangeAt, AckNew;
  }

  lemma {:induction false} HandleTimers<S>(env: Env<S>, c: Core<S>, kind: EventKind)
    requires Limited(env.cfg) && GoodConfig(env.cfg) && TimedAt(c.now, kind)
    ensures
      var eff := Handle(env, c, kind);
      eff.Effect? ==> TimerPushes(env.cfg, c.batch, kind, eff.pushes)
  {
    if kind.EvFunding? {
      var mark := FundingMark(c, kind.funding.symbolId);
      CallNoTimers(env, if mark.Some? then c.(ledger := Fund(c.ledger, kind.funding, mark.value)) else c, c.now,
                   OnFunding(kind.funding));
      hide Call, Fund, FundingMark;
    } else if kind.EvAck? && kind.id in c.routes && kind.id in ExchangeAt(c, c.routes[kind.id]).orders {
      hide Handle;
      HandleFresh(env, c, kind);
      AckNoTimers(env, c, kind.id);
    } else {
      hide Call, OnTrade, Record, JobsOf, UpdateL3, UpdateL2, Submit, Cancel, AckCancel, AckNew, ExchangeAt, Delay,
        MarketAck, Remove;
    }
  }

  // Ingestion schedules market data only.
  lemma {:induction false} ItemsAreNoTimers(latency: int, f: Feed)
    requires !NextItem(f).Neither?
    ensures NoTimers(ItemPushes(latency, f))
  {
    hide NextItem;
  }

  lemma {:induction false} IngestAddsNoTimers(latency: int, f: Feed)
    ensures forall x :: x in Ingest(latency, f).queue && x.kind.EvTimer? ==> x in f.queue
    decreases Remaining(f)
  {
    hide PushAll, NextItem, ItemPushes;
    if CanIngest(f) {
      IngestOneRemaining(latency, f);
      var g := IngestOne(latency, f);
      var ps := ItemPushes(latency, f);
      ItemsAreNoTimers(latency, f);
      forall x | x in g.queue && x.kind.EvTimer? ensures x in f.queue {
        PushAllMembers(f.queue, f.nextSeq, ps, x);
      }
      IngestAddsNoTimers(latency, g);
    }
  }

  lemma {:induction false} PoppedTimers<S>(env: Env<S>, e: Engine<S>)
    ensures
      match PopFeed(env.cfg.feedLatency, e.feed)
      case Some((event, f)) => forall x :: x in [event] + f.queue && x.kind.EvTimer? ==> x in e.feed.queue
      case None => true
  {
    IngestAddsNoTimers(env.cfg.feedLatency, e.feed);
    hide Ingest;
    var g := Ingest(env.cfg.feedLatency, e.feed);
    if g.queue != [] {
      assert g.queue == [g.queue[0]] + g.queue[1..];
    }
  }

  // ---- One event against the schedule ----------------------------------------------------------------

  // The popped event finds the batch on schedule: it either comes before the timer, or at the deadline.
  lemma {:induction false} PopPunctual(cfg: Config, b: Batch, q0: Queue, e: Event, q: Queue, now: int)
    requires Punctual(cfg, b, q0, now) && Promised(cfg, b, q0, now) && now <= e.ts
    requires forall x :: x in q0 ==> x in [e] + q && e.ts <= x.ts
    requires forall x :: x in [e] + q && x.kind.EvTimer? ==> x in q0
    ensures Punctual(cfg, b, [e] + q, e.ts)
  {
    if b.ticks != [] {
      if Exactly(cfg, b, q0) {
        var x :| x in q0 && TimerOf(b, x);
        assert x in [e] + q;
      } else if Armed(cfg, b, q0) {
        var x :| x in q0 && x.kind.EvTimer? && b.timer == Some(x.kind.timerId) && InTime(cfg.maxBatch, b.ticks, x.ts);
        assert e.ts <= x.ts <= b.ticks[0].tsLocal + cfg.maxBatch;
      } else {
        assert q0[0] in q0;
      }
    }
  }

  lemma {:induction false} KnownAfter(cfg: Config, b: Batch, e: Event, q: Queue, next: int, ps: seq<Push>)
    requires TimersKnown(b, [e] + q) && TimerPushes(cfg, b, e.kind, ps) && cfg.maxBatch > 0
    ensures TimersKnown(BatchAfter(cfg, b, e.kind), PushAll(q, next, ps))
  {
    hide PushAll;
    forall x | x in PushAll(q, next, ps) && x.kind.EvTimer?
      ensures x.kind.timerId < BatchAfter(cfg, b, e.kind).nextTimer
    {
      PushAllMembers(q, next, ps, x);
      if x in q {
        assert x in [e] + q;
      } else {
        var i :| 0 <= i < |ps| && x == Event(ps[i].ts, next + i, ps[i].kind);
        assert ps[i] in ps;
      }
    }
  }

  // A timer that is neither fired nor replaced still stands alone at its deadline.
  lemma {:induction false} ExactlyKept(cfg: Config, b: Batch, e: Event, q: Queue, next: int, ps: seq<Push>)
    requires b.ticks != [] && Exactly(cfg, b, [e] + q) && TimerPushes(cfg, b, e.kind, ps) && !Fires(b, e.kind)
    ensures
      var b' := BatchAfter(cfg, b, e.kind);
      b'.ticks != [] && Exactly(cfg, b', PushAll(q, next, ps))
  {
    hide PushAll;
    var b', q' := BatchAfter(cfg, b, e.kind), PushAll(q, next, ps);
    var x :| x in [e] + q && TimerOf(b, x);
    assert x in q;
    PushAllMembers(q, next, ps, x);
    assert x in q' && TimerOf(b', x);
    forall y | y in q' && TimerOf(b', y) ensures y.ts == Deadline(cfg, b') {
      PushAllMembers(q, next, ps, y);
      assert y in [e] + q && TimerOf(b, y);
    }
  }

  // The first tick of a batch arms its own timer.
  lemma {:induction false} FirstTickArms(cfg: Config, b: Batch, e: Event, q: Queue, next: int, ps: seq<Push>)
    requires b.ticks == [] && b.timer.None? && e.kind.EvDelivery? && cfg.maxBatch > 0
    requires TimersKnown(b, [e] + q) && TimerPushes(cfg, b, e.kind, ps)
    ensures
      var b' := BatchAfter(cfg, b, e.kind);
      b'.ticks != [] && Exactly(cfg, b', PushAll(q, next, ps))
  {
    hide PushAll;
    var b', q' := BatchAfter(cfg, b, e.kind), PushAll(q, next, ps);
    var x := Event(ps[0].ts, next + 0, ps[0].kind);
    PushAllMembers(q, next, ps, x);
    assert x in q' && TimerOf(b', x);
    forall y | y in q' && TimerOf(b', y) ensures y.ts == Deadline(cfg, b') {
      PushAllMembers(q, next, ps, y);
      assert y in q ==> y in [e] + q;
    }
  }

  lemma {:induction false} FiresAtDeadline(cfg: Config, b: Batch, e: Event, q: Queue)
    requires b.ticks != [] && Exactly(cfg, b, [e] + q) && Fires(b, e.kind)
    ensures e.ts == Deadline(cfg, b)
  {
    assert e in [e] + q && TimerOf(b, e);
  }

  lemma {:induction false} PunctualAfter(cfg: Config, b: Batch, e: Event, q: Queue, next: int, ps: seq<Push>)
    requires Limited(cfg) && BatchOk(b, e.ts) && TimedAt(e.ts, e.kind)
    requires Punctual(cfg, b, [e] + q, e.ts) && TimerPushes(cfg, b, e.kind, ps)
    ensures Punctual(cfg, BatchAfter(cfg, b, e.kind), PushAll(q, next, ps), e.ts)
  {
    hide PushAll, Exactly, TimersKnown, TimerPushes;
    KnownAfter(cfg, b, e, q, next, ps);
    if b.ticks == [] {
      if e.kind.EvDelivery? {
        FirstTickArms(cfg, b, e, q, next, ps);
      }
    } else if Exactly(cfg, b, [e] + q) {
      if Fires(b, e.kind) {
        FiresAtDeadline(cfg, b, e, q);
      } else {
        ExactlyKept(cfg, b, e, q, next, ps);
      }
    }
  }

  // A batch is stranded only at its oldest tick's deadline.
  lemma {:induction false} BreaksAtDeadline<S>(cfg: Config, c: Core<S>, e: Event, q: Queue)
    requires Breaks(cfg, c, e, q) && Punctual(cfg, c.batch, [e] + q, e.ts)
    ensures e.ts == Deadline(cfg, c.batch)
  {
    assert forall x :: x in [e] + q && TimerOf(c.batch, x) ==> x in q;
  }

  lemma {:induction false} FlushedPunctual(cfg: Config, b: Batch, q: Queue, next: int, ps: seq<Push>, now: int)
    requires TimersKnown(b, q) && NoTimers(ps) && b.ticks == []
    ensures Punctual(cfg, b, PushAll(q, next, ps), now)
  {
    hide PushAll;
    forall x | x in PushAll(q, next, ps) && x.kind.EvTimer? ensures x.kind.timerId < b.nextTimer {
      PushAllMembers(q, next, ps, x);
    }
  }

  lemma {:induction false} SamePunctual(cfg: Config, b: Batch, b': Batch, q: Queue, now: int)
    requires Punctual(cfg, b, q, now) && b' == b.(pendingWakeup := b'.pendingWakeup)
    ensures Punctual(cfg, b', q, now)
  {
    if b.ticks != [] && Exactly(cfg, b, q) {
      var x :| x in q && TimerOf(b, x);
      assert TimerOf(b', x);
      forall y | y in q && TimerOf(b', y) ensures y.ts == Deadline(cfg, b') {
        assert TimerOf(b, y);
      }
    }
  }

  lemma {:induction false} FlushEmpties<S>(env: Env<S>, c: Core<S>, ts: int)
    ensures Flush(env, c, ts).Effect? ==> Flush(env, c, ts).core.batch.ticks == []
  {
    hide Commands, HandOver;
  }

  lemma {:induction false} FlushPunctual<S>(env: Env<S>, c: Core<S>, f: Feed, now: int)
    requires TimersKnown(c.batch, f.queue)
    ensures
      var fl := Flush(env, c, now);
      fl.Effect? ==> Punctual(env.cfg, fl.core.batch, PushAll(f.queue, f.nextSeq, fl.pushes), now)
  {
    FlushNoTimers(env, c, now);
    FlushEmpties(env, c, now);
    hide Flush, PushAll;
    var fl := Flush(env, c, now);
    if fl.Effect? {
      FlushedPunctual(env.cfg, fl.core.batch, f.queue, f.nextSeq, fl.pushes, now);
    }
  }

  lemma {:induction false} FinishPunctual<S>(env: Env<S>, c: Core<S>, eff: Effect<S>, f: Feed, e: Event)
    requires eff.Effect? && eff.core.now == e.ts
    requires Punctual(env.cfg, eff.core.batch, PushAll(f.queue, f.nextSeq, eff.pushes), e.ts)
    ensures
      var o := Finish(env, eff, f, e);
      o.Stepped? ==> Punctual(env.cfg, o.engine.core.batch, o.engine.feed.queue, e.ts)
  {
    var f1 := Schedule(f, eff.pushes);
    assert TimersKnown(eff.core.batch, f1.queue);
    hide Flush, PushAll, Punctual, TimersKnown;
    if WantsFlush(env, eff) {
      if MustWait(f1.queue, e.ts) {
        SamePunctual(env.cfg, eff.core.batch, eff.core.batch.(pendingWakeup := true), f1.queue, e.ts);
      } else {
        var fl := Flush(env, eff.core, e.ts);
        if fl.Effect? {
          FlushPunctual(env, eff.core, f1, e.ts);
          SamePunctual(env.cfg, fl.core.batch, fl.core.batch.(pendingWakeup := false),
                       PushAll(f1.queue, f1.nextSeq, fl.pushes), e.ts);
        }
      }
    }
  }

  lemma {:induction false} ProcessPunctual<S>(env: Env<S>, c0: Core<S>, f: Feed, e: Event, now: int)
    requires GoodConfig(env.cfg) && Limited(env.cfg) && TimedAt(e.ts, e.kind)
    requires BatchOk(c0.batch, now) && now <= e.ts && Punctual(env.cfg, c0.batch, [e] + f.queue, e.ts)
    ensures
      var o := Process(env, c0, f, e);
      o.Stepped? ==> Punctual(env.cfg, o.engine.core.batch, o.engine.feed.queue, e.ts)
  {
    var c := c0.(now := e.ts);
    var eff := Handle(env, c, e.kind);
    HandleBatch(env, c, e.kind);
    HandleFresh(env, c, e.kind);
    HandleTimers(env, c, e.kind);
    LaterOk(c.batch, now, e.ts);
    hide Handle, Finish, Flush, Punctual, PushAll;
    if eff.Effect? {
      PunctualAfter(env.cfg, c.batch, e, f.queue, f.nextSeq, eff.pushes);
      FinishPunctual(env, c, eff, f, e);
    }
  }

  lemma {:induction false} NoneQueued<S>(env: Env<S>, e: Engine<S>)
    requires PopFeed(env.cfg.feedLatency, e.feed).None?
    ensures TimersKnown(e.core.batch, Ingest(env.cfg.feedLatency, e.feed).queue)
  {
    hide Ingest;
  }

  // A step on schedule leaves the oldest tick's timer queued or its deadline reached.
  lemma {:induction false} PunctualStep<S>(env: Env<S>, e: Engine<S>)
    requires GoodConfig(env.cfg) && Limited(env.cfg) && ClockOk(e) && OnSchedule(env.cfg, e)
    ensures
      match Advance(env, e)
      case Stepped(next, event, _) => Punctual(env.cfg, next.core.batch, next.feed.queue, event.ts)
      case Flushed(next, _) => Punctual(env.cfg, next.core.batch, next.feed.queue, e.core.now)
      case _ => true
    ensures
      match PopFeed(env.cfg.feedLatency, e.feed)
      case Some((event, f)) => Punctual(env.cfg, e.core.batch, [event] + f.queue, event.ts)
      case None => true
  {
    PopSees(env, e);
    PoppedTimers(env, e);
    PopClock(env, e);
    IngestAddsNoTimers(env.cfg.feedLatency, e.feed);
    hide ClockOk, Process, Flush, Ingest, PopFeed, FeedOk, Timed, SourcesOk, Punctual, Promised, BatchOk, PushAll;
    match PopFeed(env.cfg.feedLatency, e.feed) {
      case Some((event, f)) =>
        PopPunctual(env.cfg, e.core.batch, e.feed.queue, event, f.queue, e.core.now);
        ProcessPunctual(env, e.core, f, event, e.core.now);
        ProcessSteps(env, e.core, f, event);
      case None =>
        var g := Ingest(env.cfg.feedLatency, e.feed);
        assert TimersKnown(e.core.batch, g.queue) by {
          NoneQueued(env, e);
        }
        FlushPunctual(env, e.core, g, e.core.now);
    }
  }

  // The iteration that strands a batch changes neither the batch nor what is queued behind the event.
  lemma {:induction false} BreakStep<S>(env: Env<S>, e: Engine<S>)
    requires GoodConfig(env.cfg) && Limited(env.cfg) && BreaksNext(env, e)
    ensures
      var (event, f) := PopFeed(env.cfg.feedLatency, e.feed).value;
      var o := Advance(env, e);
      && o.Stepped? && o.engine.core.batch == e.core.batch && o.engine.feed == f && o.engine.core.now == event.ts
  {
    hide PopFeed, Flush;
    var (event, f) := PopFeed(env.cfg.feedLatency, e.feed).value;
    assert Schedule(f, []) == f;
  }

  // Where a stranded batch stands: at the deadline of its oldest tick, with nothing else at this instant.
  ghost predicate Stranded<S>(cfg: Config, e: Engine<S>) {
    && e.core.batch.ticks != [] && e.core.now == Deadline(cfg, e.core.batch)
    && InTime(cfg.maxBatch, e.core.batch.ticks, e.core.now) && BatchOk(e.core.batch, e.core.now)
    && !MustWait(e.feed.queue, e.core.now) && SourcesOk(e.feed, e.core.now + 1)
  }

  lemma {:induction false} StrandedHere<S>(env: Env<S>, e: Engine<S>)
    requires GoodConfig(env.cfg) && Limited(env.cfg) && ClockOk(e) && OnSchedule(env.cfg, e) && BreaksNext(env, e)
    ensures Advance(env, e).Stepped? && Stranded(env.cfg, Advance(env, e).engine)
  {
    PunctualStep(env, e);
    BreakStep(env, e);
    PopClock(env, e);
    PopSees(env, e);
    hide Advance, ClockOk, HandedInTime, Punctual, BatchOk, PopFeed, SourcesOk, Armed, FeedOk, Timed;
    var (event, f) := PopFeed(env.cfg.feedLatency, e.feed).value;
    PromisedIsDue(env.cfg, e.core.batch, e.feed.queue, event, f.queue, e.core.now);
    BreaksAtDeadline(env.cfg, e.core, event, f.queue);
    LaterOk(e.core.batch, e.core.now, event.ts);
  }

  // One iteration from a state on schedule hands over in time and stays on schedule, or strands the batch.
  lemma {:induction false} ScheduleStep<S>(env: Env<S>, e: Engine<S>)
    requires GoodConfig(env.cfg) && Limited(env.cfg) && ClockOk(e) && OnSchedule(env.cfg, e)
    ensures
      match Advance(env, e)
      case Stepped(next, event, calls) =>
        HandedInTime(env.cfg, calls)
            && if BreaksNext(env, e) then Stranded(env.cfg, next) else OnSchedule(env.cfg, next)
      case Flushed(next, calls) => HandedInTime(env.cfg, calls) && OnSchedule(env.cfg, next)
      case _ => true
  {
    DeadlineStep(env, e);
    PunctualStep(env, e);
    AdvanceClock(env, e);
    if BreaksNext(env, e) {
      BreakStep(env, e);
      StrandedHere(env, e);
    }
    hide Advance, ClockOk, HandedInTime, Punctual, Promised, BatchOk, Stranded, PopFeed, SourcesOk, BreaksNext;
  }

  // ---- Late for good -----------------------------------------------------------------------------------

  // The next thing that happens comes after the oldest tick's deadline.
  ghost predicate Lost<S>(env: Env<S>, e: Engine<S>) {
    && e.core.batch.ticks != []
    && match PopFeed(env.cfg.feedLatency, e.feed)
       case Some((event, _)) => Deadline(env.cfg, e.core.batch) < event.ts
       case None => Deadline(env.cfg, e.core.batch) < e.core.now
  }

  ghost predicate Overdue(cfg: Config, b: Batch, now: int) {
    b.ticks != [] && Deadline(cfg, b) < now
  }

  lemma {:induction false} OverdueIsLost<S>(env: Env<S>, e: Engine<S>)
    requires GoodConfig(env.cfg) && ClockOk(e) && Overdue(env.cfg, e.core.batch, e.core.now)
    ensures Lost(env, e)
  {
    PopClock(env, e);
    hide PopFeed, ClockOk, FeedOk, Timed, SourcesOk;
  }

  lemma {:induction false} FlushLate<S>(env: Env<S>, c: Core<S>, before: seq<Callback>)
    requires Overdue(env.cfg, c.batch, c.now)
    ensures Flush(env, c, c.now).Effect? ==> !HandedInTime(env.cfg, before + Flush(env, c, c.now).calls)
  {
    hide Commands;
    var eff := Flush(env, c, c.now);
    if eff.Effect? {
      assert eff.calls[0] == Callback(c.now, c.market, OnTicks(c.batch.ticks));
      var calls := before + eff.calls;
      assert calls[|before|] == eff.calls[0];
    }
  }

  lemma {:induction false} ProcessLate<S>(env: Env<S>, c0: Core<S>, f: Feed, e: Event)
    requires Limited(env.cfg) && Overdue(env.cfg, c0.batch, e.ts) && GoodConfig(env.cfg) && TimedAt(e.ts, e.kind)
    ensures
      var o := Process(env, c0, f, e);
      o.Stepped? ==> !HandedInTime(env.cfg, o.calls) || Overdue(env.cfg, o.engine.core.batch, e.ts)
  {
    var c := c0.(now := e.ts);
    HandleBatch(env, c, e.kind);
    HandleFresh(env, c, e.kind);
    hide Handle, Flush, HandedInTime, PushAll;
    var eff := Handle(env, c, e.kind);
    if eff.Effect? {
      FlushLate(env, eff.core, eff.calls);
    }
  }

  // Once a tick can only be handed over late, every iteration hands it over late or leaves it so.
  lemma {:induction false} LostStep<S>(env: Env<S>, e: Engine<S>)
    requires GoodConfig(env.cfg) && Limited(env.cfg) && ClockOk(e) && Lost(env, e)
    ensures
      match Advance(env, e)
      case Stepped(next, _, calls) => !HandedInTime(env.cfg, calls) || Lost(env, next)
      case Flushed(next, calls) => !HandedInTime(env.cfg, calls)
      case Done(_) => false
      case Failed => true
  {
    PopClock(env, e);
    AdvanceClock(env, e);
    hide PopFeed, ClockOk, FeedOk, Timed, SourcesOk, Process, Flush, HandedInTime, Ingest;
    match PopFeed(env.cfg.feedLatency, e.feed) {
      case Some((event, f)) =>
        ProcessLate(env, e.core, f, event);
        ProcessSteps(env, e.core, f, event);
        var o := Advance(env, e);
        if o.Stepped? && HandedInTime(env.cfg, o.calls) {
          OverdueIsLost(env, o.engine);
        }
      case None =>
        FlushLate(env, e.core, []);
        var fl := Flush(env, e.core, e.core.now);
        if fl.Effect? {
          assert [] + fl.calls == fl.calls;
        }
    }
  }

  // A stranded batch can only be handed over late, if anything is still to come.
  lemma {:induction false} StrandedIsLost<S>(env: Env<S>, e: Engine<S>)
    requires GoodConfig(env.cfg) && ClockOk(e) && Stranded(env.cfg, e)
    requires PopFeed(env.cfg.feedLatency, e.feed).Some?
    ensures Lost(env, e)
  {
    NoneDue(e.feed, e.core.now);
    var later := e.(core := e.core.(now := e.core.now + 1));
    assert ClockOk(later);
    PopClock(env, later);
    hide PopFeed;
  }

  // ---- Whole runs ----------------------------------------------------------------------------------------

  // Does the next iteration strand a batch while another event is still to come?
  ghost predicate Strands<S>(env: Env<S>, e: Engine<S>) {
    BreaksNext(env, e)
    && match Advance(env, e)
       case Stepped(next, _, _) => PopFeed(env.cfg.feedLatency, next.feed).Some?
       case _ => false
  }

  // On schedule, or stranded with nothing to come but the final hand-over.
  ghost predicate Safe<S>(env: Env<S>, e: Engine<S>) {
    && ClockOk(e)
    && (OnSchedule(env.cfg, e) || (Stranded(env.cfg, e) && PopFeed(env.cfg.feedLatency, e.feed).None?))
  }

  lemma {:induction false} FinalHandoverInTime<S>(env: Env<S>, e: Engine<S>)
    requires GoodConfig(env.cfg) && Limited(env.cfg) && ClockOk(e)
    requires Stranded(env.cfg, e) && PopFeed(env.cfg.feedLatency, e.feed).None?
    ensures
      match Advance(env, e)
      case Flushed(next, calls) => HandedInTime(env.cfg, calls) && OnSchedule(env.cfg, next)
      case Failed => true
      case _ => false
  {
    FlushInTime(env, e.core);
    FlushEmpties(env, e.core, e.core.now);
    IngestAddsNoTimers(env.cfg.feedLatency, e.feed);
    PopSees(env, e);
    NoneQueued(env, e);
    var g := Ingest(env.cfg.feedLatency, e.feed);
    FlushPunctual(env, e.core, g, e.core.now);
    FlushFreshTime(env, e.core, e.core.now);
    hide Flush, PopFeed, ClockOk, Ingest, SourcesOk, Punctual, PushAll;
  }

  lemma {:induction false} SafeStep<S>(env: Env<S>, e: Engine<S>)
    requires GoodConfig(env.cfg) && Limited(env.cfg) && Safe(env, e) && !Strands(env, e)
    ensures
      match Advance(env, e)
      case Stepped(next, _, calls) => HandedInTime(env.cfg, calls) && Safe(env, next)
      case Flushed(next, calls) => HandedInTime(env.cfg, calls) && Safe(env, next)
      case _ => true
  {
    AdvanceClock(env, e);
    hide Advance, ClockOk, OnSchedule, Stranded, HandedInTime, PopFeed, SourcesOk;
    if OnSchedule(env.cfg, e) {
      ScheduleStep(env, e);
    } else {
      FinalHandoverInTime(env, e);
    }
  }

  lemma {:induction false} NeverStranded<S>(env: Env<S>, e: Engine<S>, n: nat)
    requires GoodConfig(env.cfg) && Limited(env.cfg) && Safe(env, e) && After(env, e, n).Some?
    requires forall k :: 0 <= k < n && After(env, e, k).Some? ==> !Strands(env, After(env, e, k).value)
    ensures HandedInTime(env.cfg, AllCalls(env, e, n)) && Safe(env, After(env, e, n).value)
    decreases n
  {
    hide Advance, Safe, Strands, HandedInTime;
    if n == 0 {
      NoCalls(env.cfg);
    } else {
      NeverStranded(env, e, n - 1);
      var last := After(env, e, n - 1).value;
      SafeStep(env, last);
      AppendInTime(env.cfg, AllCalls(env, e, n - 1), CallsOf(Advance(env, last)));
    }
  }

  lemma {:induction false} LatePrefix(cfg: Config, a: seq<Callback>, b: seq<Callback>)
    requires !HandedInTime(cfg, a) || !HandedInTime(cfg, b)
    ensures !HandedInTime(cfg, a + b)
  {
    if !HandedInTime(cfg, a) {
      var k :| 0 <= k < |a| && a[k].payload.OnTicks? && !InTime(cfg.maxBatch, a[k].payload.ticks, a[k].ts);
      assert (a + b)[k] == a[k];
    } else {
      var k :| 0 <= k < |b| && b[k].payload.OnTicks? && !InTime(cfg.maxBatch, b[k].payload.ticks, b[k].ts);
      assert (a + b)[|a| + k] == b[k];
    }
  }

  // After a batch was stranded some tick has been handed over late, or will be.
  lemma {:induction false} StrandedRunIsLate<S>(env: Env<S>, e: Engine<S>, k: nat, n: nat)
    requires GoodConfig(env.cfg) && Limited(env.cfg) && ClockOk(e) && k < n && After(env, e, n).Some?
    requires
      match After(env, e, k)
      case Some(mid) => OnSchedule(env.cfg, mid) && Strands(env, mid)
      case None => false
    ensures !HandedInTime(env.cfg, AllCalls(env, e, n)) || Lost(env, After(env, e, n).value)
    decreases n
  {
    hide Advance, ClockOk, OnSchedule, Stranded, HandedInTime, Lost, PopFeed;
    ClockNeverRunsBack(env, e, n - 1, n);
    ClockNeverRunsBack(env, e, n - 1, n - 1);
    var last := After(env, e, n - 1).value;
    if k == n - 1 {
      ScheduleStep(env, last);
      StrandedIsLost(env, After(env, e, n).value);
    } else {
      StrandedRunIsLate(env, e, k, n - 1);
      if HandedInTime(env.cfg, AllCalls(env, e, n - 1)) {
        LostStep(env, last);
      }
      if !HandedInTime(env.cfg, AllCalls(env, e, n - 1)) || !HandedInTime(env.cfg, CallsOf(Advance(env, last))) {
        LatePrefix(env.cfg, AllCalls(env, e, n - 1), CallsOf(Advance(env, last)));
      }
    }
  }

  // The first batch to be stranded was on schedule until then.
  lemma {:induction false} FirstStranding<S>(env: Env<S>, e: Engine<S>, k: nat) returns (first: nat)
    requires GoodConfig(env.cfg) && Limited(env.cfg) && ClockOk(e) && OnSchedule(env.cfg, e)
    requires After(env, e, k).Some? && Strands(env, After(env, e, k).value)
    ensures first <= k
    ensures
      match After(env, e, first)
      case Some(mid) => OnSchedule(env.cfg, mid) && Strands(env, mid)
      case None => false
    decreases k
  {
    hide Advance, ClockOk, OnSchedule, Stranded, PopFeed, After, HandedInTime;
    if j :| 0 <= j < k && After(env, e, j).Some? && Strands(env, After(env, e, j).value) {
      first := FirstStranding(env, e, j);
    } else {
      NeverStranded(env, e, k);
      first := k;
    }
  }

  // Exactly when the deadline is met: a finished run hands every tick over within the maximum age if
  // and only if no iteration strands a batch while another event is still to come.
  lemma {:induction false} DeadlineIsMetExactly<S>(env: Env<S>, e: Engine<S>, n: nat)
    requires GoodConfig(env.cfg) && Limited(env.cfg) && ClockOk(e) && OnSchedule(env.cfg, e)
    requires After(env, e, n).Some? && Advance(env, After(env, e, n).value).Done?
    ensures HandedInTime(env.cfg, AllCalls(env, e, n)) <==>
              forall k :: 0 <= k < n && After(env, e, k).Some? ==> !Strands(env, After(env, e, k).value)
  {
    hide Advance, ClockOk, OnSchedule, HandedInTime, Lost, PopFeed, After, Strands, AllCalls;
    if k :| 0 <= k < n && After(env, e, k).Some? && Strands(env, After(env, e, k).value) {
      var first := FirstStranding(env, e, k);
      StrandedRunIsLate(env, e, first, n);
      ClockNeverRunsBack(env, e, n, n);
      if Lost(env, After(env, e, n).value) {
        LostStep(env, After(env, e, n).value);
      }
    } else {
      NeverStranded(env, e, n);
    }
  }

  // Every start is on schedule.
  lemma {:induction false} StartIsOnSchedule<S>(
    cfg: Config, s: S, sources: seq<seq<Tick>>, l3Sources: seq<seq<L3Update>>, l3Symbols: set<int>,
    external: seq<Push>)
    requires forall p :: p in external ==> External(p)
    ensures OnSchedule(cfg, Start(cfg, s, sources, l3Sources, l3Symbols, external))
  {
    hide PushAll;
    PushAllEach([], 0, external, (ts: int, k: EventKind) => !k.EvTimer?);
  }
}
