// The batch deadline: with a maximum batch age, no tick is handed over later than that age after its
// delivery, unless a handler that returns early swallows the one event the batch was waiting for.
module BatchDeadline {
  import opened Types
  import opened Ledgers
  import opened Exchanges
  import opened EventQueues
  import opened Feeds
  import opened EngineSpec
  import opened EngineClock
  import opened Batching

  ghost predicate Limited(cfg: Config) {
    cfg.mode == BatchMode && cfg.maxBatch > 0
  }

  ghost predicate InTime(age: int, ticks: seq<Tick>, ts: int) {
    forall i :: 0 <= i < |ticks| ==> ts <= ticks[i].tsLocal + age
  }

  // The timer that will hand the buffer over in time is queued.
  ghost predicate Armed(cfg: Config, b: Batch, q: Queue) {
    exists x :: x in q && x.kind.EvTimer? && b.timer == Some(x.kind.timerId) && InTime(cfg.maxBatch, b.ticks, x.ts)
  }

  // Whatever is buffered will be handed over in time: its timer is queued, or the wakeup has come
  // and only waits for the other events of this instant.
  ghost predicate Promised(cfg: Config, b: Batch, q: Queue, now: int) {
    b.ticks != [] ==>
      Armed(cfg, b, q) || (b.pendingWakeup && MustWait(q, now) && InTime(cfg.maxBatch, b.ticks, now))
  }

  ghost predicate BatchOk(b: Batch, now: int) {
    && (b.timer.Some? ==> b.ticks != [])
    && forall i :: 0 <= i < |b.ticks| ==> b.ticks[i].tsLocal <= now
  }

  ghost predicate HandedInTime(cfg: Config, calls: seq<Callback>) {
    forall k :: 0 <= k < |calls| && calls[k].payload.OnTicks?
           ==> InTime(cfg.maxBatch, calls[k].payload.ticks, calls[k].ts)
  }

  // ---- What an event does to the batch ------------------------------------------------------------

  predicate Fires(b: Batch, kind: EventKind) {
    kind.EvTimer? && b.timer == Some(kind.timerId)
  }

  function BatchAfter(cfg: Config, b: Batch, kind: EventKind): Batch {
    match kind
    case EvDelivery(t) =>
      var b' := b.(ticks := b.ticks + [t]);
      if b.timer.None? && cfg.maxBatch > 0 then b'.(timer := Some(b.nextTimer), nextTimer := b.nextTimer + 1) else b'
    case EvReport(r) => b.(reports := b.reports + [r])
    case EvTimer(_) => if Fires(b, kind) then b.(timer := None) else b
    case _ => b
  }

  // A handler that finds no route for its order returns before the batch is looked at.
  predicate Skips<S>(c: Core<S>, kind: EventKind) {
    (kind.EvAck? || kind.EvCancel?) && kind.id !in c.routes
  }

  predicate Wakes(b: Batch, kind: EventKind) {
    kind.EvReport? || kind.EvFunding? || Fires(b, kind)
  }

  ghost predicate BatchEffect<S>(cfg: Config, c: Core<S>, kind: EventKind, eff: Effect<S>) {
    eff.Effect? ==>
      && eff.core.batch == BatchAfter(cfg, c.batch, kind)
      && (eff.early <==> Skips(c, kind)) && (eff.wake <==> Wakes(c.batch, kind))
      && (eff.early ==> eff.pushes == [])
      && (kind.EvDelivery? && c.batch.timer.None? && cfg.maxBatch > 0 ==>
            eff.pushes == [Push(kind.tick.tsLocal + cfg.maxBatch, EvTimer(c.batch.nextTimer))])
      && forall k :: 0 <= k < |eff.calls| ==> !eff.calls[k].payload.OnTicks?
  }

  lemma {:induction false} SilentBatch<S>(env: Env<S>, c: Core<S>, kind: EventKind)
    requires !Newsworthy(kind) && env.cfg.mode == BatchMode && !kind.EvAck?
    ensures BatchEffect(env.cfg, c, kind, Handle(env, c, kind))
  {
    hide OnTrade, Record, JobsOf, UpdateL3, UpdateL2, Submit, Cancel, AckCancel, ExchangeAt, Delay;
  }

  lemma {:induction false} MarketAckBatch<S>(env: Env<S>, c: Core<S>, s: int, id: int)
    requires id in ExchangeAt(c, s).orders
    ensures
      var eff := MarketAck(env, c, s, id);
      eff.Effect? && eff.core.batch == c.batch && eff.calls == [] && !eff.wake && !eff.early
  {
    hide Record, JobOf, FillMarket, ForceCancel, ExchangeAt;
  }

  lemma {:induction false} AckBatch<S>(env: Env<S>, c: Core<S>, id: int)
    ensures BatchEffect(env.cfg, c, EvAck(id), HandleAck(env, c, id))
  {
    hide AckNew, ExchangeAt, MarketAck;
    if id in c.routes && id in ExchangeAt(c, c.routes[id]).orders {
      MarketAckBatch(env, c, c.routes[id], id);
    }
  }

  lemma {:induction false} NewsBatch<S>(env: Env<S>, c: Core<S>, kind: EventKind)
    requires Newsworthy(kind) && env.cfg.mode == BatchMode
    ensures BatchEffect(env.cfg, c, kind, Handle(env, c, kind))
  {
    if kind.EvReport? {
      hide Call, Remove, ExchangeAt;
    } else if kind.EvFunding? {
      hide Call, Fund, FundingMark;
      var mark := FundingMark(c, kind.funding.symbolId);
      CallShows(env, if mark.Some? then c.(ledger := Fund(c.ledger, kind.funding, mark.value)) else c, c.now,
                OnFunding(kind.funding));
    } else {
      hide Call;
    }
  }

  lemma {:induction false} HandleBatch<S>(env: Env<S>, c: Core<S>, kind: EventKind)
    requires env.cfg.mode == BatchMode
    ensures BatchEffect(env.cfg, c, kind, Handle(env, c, kind))
  {
    hide BatchEffect, HandleAck;
    if Newsworthy(kind) {
      NewsBatch(env, c, kind);
    } else if kind.EvAck? {
      AckBatch(env, c, kind.id);
    } else {
      SilentBatch(env, c, kind);
    }
  }

  // ---- One event against the promise ----------------------------------------------------------------

  // The batch as the popped event finds it.
  ghost predicate Due(cfg: Config, b: Batch, e: Event, q: Queue) {
    && InTime(cfg.maxBatch, b.ticks, e.ts)
    && (b.ticks != [] ==> Armed(cfg, b, [e] + q) || b.pendingWakeup)
  }

  lemma {:induction false} StillArmed(cfg: Config, b: Batch, e: Event, q: Queue)
    requires Armed(cfg, b, [e] + q) && !Fires(b, e.kind)
    ensures Armed(cfg, b, q)
  {
    var x :| x in [e] + q && x.kind.EvTimer? && b.timer == Some(x.kind.timerId) && InTime(cfg.maxBatch, b.ticks, x.ts);
    assert x in q;
  }

  lemma {:induction false} ArmedMore(cfg: Config, b: Batch, q: Queue, next: int, ps: seq<Push>)
    requires Armed(cfg, b, q)
    ensures Armed(cfg, b, PushAll(q, next, ps))
  {
    var x :| x in q && x.kind.EvTimer? && b.timer == Some(x.kind.timerId) && InTime(cfg.maxBatch, b.ticks, x.ts);
    PushAllMembers(q, next, ps, x);
  }

  // A delivered tick joins the buffer; the oldest tick's timer still comes in time for it.
  lemma {:induction false} DeliveryArmed(cfg: Config, b: Batch, e: Event, q: Queue, next: int, ps: seq<Push>)
    requires e.kind.EvDelivery? && e.ts == e.kind.tick.tsLocal && BatchOk(b, e.ts) && cfg.maxBatch > 0
    requires b.ticks != [] ==> Armed(cfg, b, [e] + q)
    requires b.timer.None? ==> ps == [Push(e.ts + cfg.maxBatch, EvTimer(b.nextTimer))]
    ensures Armed(cfg, BatchAfter(cfg, b, e.kind), PushAll(q, next, ps))
  {
    var b', q' := BatchAfter(cfg, b, e.kind), PushAll(q, next, ps);
    if b.timer.None? {
      var x := Event(ps[0].ts, next + 0, ps[0].kind);
      PushAllMembers(q, next, ps, x);
      assert InTime(cfg.maxBatch, b'.ticks, x.ts);
      assert x in q';
    } else {
      var x :| x in [e] + q && x.kind.EvTimer? && b.timer == Some(x.kind.timerId)
          && InTime(cfg.maxBatch, b.ticks, x.ts);
      PushAllMembers(q, next, ps, x);
      assert x.ts <= b.ticks[0].tsLocal + cfg.maxBatch;
      assert InTime(cfg.maxBatch, b'.ticks, x.ts);
    }
  }

  // Unless the batch is looked at, or skipped over, its timer is still queued.
  lemma {:induction false} UntouchedArmed(cfg: Config, b: Batch, e: Event, q: Queue, next: int, ps: seq<Push>)
    requires Limited(cfg) && Due(cfg, b, e, q) && BatchOk(b, e.ts) && TimedAt(e.ts, e.kind)
    requires !Wakes(b, e.kind) && !b.pendingWakeup
    requires e.kind.EvDelivery? && b.timer.None? ==> ps == [Push(e.ts + cfg.maxBatch, EvTimer(b.nextTimer))]
    ensures
      var b' := BatchAfter(cfg, b, e.kind);
      b'.ticks != [] ==> Armed(cfg, b', PushAll(q, next, ps))
  {
    hide Armed, PushAll;
    if e.kind.EvDelivery? {
      DeliveryArmed(cfg, b, e, q, next, ps);
    } else if b.ticks != [] {
      StillArmed(cfg, b, e, q);
      ArmedMore(cfg, b, q, next, ps);
    }
  }

  lemma {:induction false} AfterStillInTime(cfg: Config, b: Batch, e: Event)
    requires InTime(cfg.maxBatch, b.ticks, e.ts) && BatchOk(b, e.ts) && TimedAt(e.ts, e.kind) && cfg.maxBatch > 0
    ensures
      var b' := BatchAfter(cfg, b, e.kind);
      InTime(cfg.maxBatch, b'.ticks, e.ts) && BatchOk(b', e.ts)
  {
  }

  lemma {:induction false} FlushInTime<S>(env: Env<S>, c: Core<S>)
    requires InTime(env.cfg.maxBatch, c.batch.ticks, c.now) && BatchOk(c.batch, c.now)
    ensures
      var eff := Flush(env, c, c.now);
      eff.Effect? ==> HandedInTime(env.cfg, eff.calls) && eff.core.batch.ticks == [] && eff.core.batch.timer.None?
  {
    hide Commands;
  }

  // The event at which the promise is broken: it is skipped, no timer is queued for the buffer, and
  // nothing else stands at its instant.
  ghost predicate Breaks<S>(cfg: Config, c: Core<S>, e: Event, q: Queue) {
    Skips(c, e.kind) && c.batch.ticks != [] && !Armed(cfg, c.batch, q) && !MustWait(q, e.ts)
  }

  lemma {:induction false} AppendInTime(cfg: Config, a: seq<Callback>, b: seq<Callback>)
    requires HandedInTime(cfg, a) && HandedInTime(cfg, b)
    ensures HandedInTime(cfg, a + b)
  {
  }

  lemma {:induction false} PushNothing(q: Queue, next: int)
    ensures PushAll(q, next, []) == q
  {
  }

  lemma {:induction false} FlushFreshTime<S>(env: Env<S>, c: Core<S>, ts: int)
    ensures Flush(env, c, ts).Effect? ==> Flush(env, c, ts).core.now == c.now
  {
    hide Commands, HandOver;
  }

  lemma {:induction false} FinishDeadline<S>(env: Env<S>, c: Core<S>, eff: Effect<S>, f: Feed, e: Event)
    requires Limited(env.cfg) && Due(env.cfg, c.batch, e, f.queue) && BatchOk(c.batch, e.ts) && TimedAt(e.ts, e.kind)
    requires eff.Effect? && BatchEffect(env.cfg, c, e.kind, eff) && eff.core.now == e.ts
    ensures
      var o := Finish(env, eff, f, e);
      o.Stepped? ==>
        var (b, q) := (o.engine.core.batch, o.engine.feed.queue);
        && o.engine.core.now == e.ts && BatchOk(b, e.ts) && HandedInTime(env.cfg, o.calls)
        && (Promised(env.cfg, b, q, e.ts) <==> !Breaks(env.cfg, c, e, f.queue))
  {
    FlushFreshTime(env, eff.core, e.ts);
    AfterStillInTime(env.cfg, c.batch, e);
    FlushInTime(env, eff.core);
    if e.kind.EvDelivery? {
      assert e.ts == e.kind.tick.tsLocal;
    }
    hide Flush, Armed, InTime, PushAll;
    var f1 := Schedule(f, eff.pushes);
    if WantsFlush(env, eff) {
      if !MustWait(f1.queue, e.ts) {
        var fl := Flush(env, eff.core, e.ts);
        if fl.Effect? {
          AppendInTime(env.cfg, eff.calls, fl.calls);
        }
      }
    } else if !eff.early {
      UntouchedArmed(env.cfg, c.batch, e, f.queue, f.nextSeq, eff.pushes);
    } else {
      assert PushAll(f.queue, f.nextSeq, []) == f.queue by {
        PushNothing(f.queue, f.nextSeq);
      }
      if c.batch.ticks != [] && Armed(env.cfg, c.batch, [e] + f.queue) {
        StillArmed(env.cfg, c.batch, e, f.queue);
      }
    }
  }

  // The popped event comes no later than the promise allows.
  lemma {:induction false} PromisedIsDue(cfg: Config, b: Batch, q0: Queue, e: Event, q: Queue, now: int)
    requires Promised(cfg, b, q0, now) && now <= e.ts
    requires forall x :: x in q0 ==> x in [e] + q && e.ts <= x.ts
    ensures Due(cfg, b, e, q)
  {
    if b.ticks != [] {
      if Armed(cfg, b, q0) {
        var x :| x in q0 && x.kind.EvTimer? && b.timer == Some(x.kind.timerId) && InTime(cfg.maxBatch, b.ticks, x.ts);
        assert x in [e] + q && e.ts <= x.ts;
      } else {
        assert q0[0] in q0;
      }
    }
  }

  lemma {:induction false} IngestKeepsMembers(latency: int, f: Feed)
    ensures forall x :: x in f.queue ==> x in Ingest(latency, f).queue
    decreases Remaining(f)
  {
    hide PushAll, NextItem;
    if CanIngest(f) {
      IngestOneRemaining(latency, f);
      var g := IngestOne(latency, f);
      forall x | x in f.queue ensures x in g.queue {
        PushAllMembers(f.queue, f.nextSeq, ItemPushes(latency, f), x);
      }
      IngestKeepsMembers(latency, g);
    }
  }

  // What a pop sees of the queue.
  lemma {:induction false} PopSees<S>(env: Env<S>, e: Engine<S>)
    requires GoodConfig(env.cfg) && ClockOk(e)
    ensures
      match PopFeed(env.cfg.feedLatency, e.feed)
      case Some((event, f)) => forall x :: x in e.feed.queue ==> x in [event] + f.queue && event.ts <= x.ts
      case None => e.feed.queue == []
  {
    IngestKeepsMembers(env.cfg.feedLatency, e.feed);
    IngestOk(env.cfg.feedLatency, e.feed, e.core.now);
    var g := Ingest(env.cfg.feedLatency, e.feed);
    hide Ingest, SourcesOk;
    assert e.feed.queue != [] ==> e.feed.queue[0] in g.queue;
    if g.queue != [] {
      assert g.queue == [g.queue[0]] + g.queue[1..];
      forall x | x in e.feed.queue ensures g.queue[0].ts <= x.ts {
        var i :| 0 <= i < |g.queue| && g.queue[i] == x;
        assert i > 0 ==> Before(g.queue[0], g.queue[i]);
      }
    }
  }

  ghost predicate OnTime<S>(cfg: Config, e: Engine<S>) {
    Promised(cfg, e.core.batch, e.feed.queue, e.core.now) && BatchOk(e.core.batch, e.core.now)
  }

  // Does the next iteration break the promise?
  ghost predicate BreaksNext<S>(env: Env<S>, e: Engine<S>) {
    match PopFeed(env.cfg.feedLatency, e.feed)
    case Some((event, f)) => Breaks(env.cfg, e.core, event, f.queue)
    case None => false
  }

  lemma {:induction false} BreaksSame<S>(cfg: Config, c: Core<S>, c': Core<S>, e: Event, q: Queue)
    requires c'.routes == c.routes && c'.batch == c.batch
    ensures Breaks(cfg, c', e, q) <==> Breaks(cfg, c, e, q)
  {
  }

  lemma {:induction false} LaterOk(b: Batch, now: int, later: int)
    requires BatchOk(b, now) && now <= later
    ensures BatchOk(b, later)
  {
  }

  // One iteration from a state that keeps its promise hands over in time, and it keeps the promise
  // exactly when it does not skip the one event the batch was waiting for.
  lemma {:induction false} DeadlineStep<S>(env: Env<S>, e: Engine<S>)
    requires GoodConfig(env.cfg) && Limited(env.cfg) && ClockOk(e) && OnTime(env.cfg, e)
    ensures
      match Advance(env, e)
      case Stepped(next, _, calls) =>
        HandedInTime(env.cfg, calls) && (OnTime(env.cfg, next) <==> !BreaksNext(env, e))
      case Flushed(next, calls) => HandedInTime(env.cfg, calls) && OnTime(env.cfg, next)
      case _ => true
  {
    PopSees(env, e);
    PopClock(env, e);
    hide ClockOk, Finish, Flush, Ingest, PopFeed, Handle, FeedOk, Timed, SourcesOk, Breaks;
    match PopFeed(env.cfg.feedLatency, e.feed) {
      case Some((event, f)) =>
        var c := e.core.(now := event.ts);
        PromisedIsDue(env.cfg, e.core.batch, e.feed.queue, event, f.queue, e.core.now);
        HandleBatch(env, c, event.kind);
        HandleFresh(env, c, event.kind);
        LaterOk(e.core.batch, e.core.now, event.ts);
        BreaksSame(env.cfg, e.core, c, event, f.queue);
        var eff := Handle(env, c, event.kind);
        hide BatchEffect, Promised, BatchOk, HandedInTime, Due;
        if eff.Effect? {
          FinishDeadline(env, c, eff, f, event);
          FinishSteps(env, eff, f, event);
        }
      case None =>
        FlushInTime(env, e.core);
        FlushFreshTime(env, e.core, e.core.now);
    }
  }

  lemma {:induction false} NoCalls(cfg: Config)
    ensures HandedInTime(cfg, [])
  {
  }

  // In a run that never skips the event its batch waits for, every tick is handed over at most the
  // maximum age after its delivery.
  lemma {:induction false} BatchesMeetTheirDeadline<S>(env: Env<S>, e: Engine<S>, n: nat)
    requires GoodConfig(env.cfg) && Limited(env.cfg) && ClockOk(e) && OnTime(env.cfg, e)
    requires After(env, e, n).Some?
    requires forall k :: 0 <= k < n && After(env, e, k).Some? ==> !BreaksNext(env, After(env, e, k).value)
    ensures HandedInTime(env.cfg, AllCalls(env, e, n)) && OnTime(env.cfg, After(env, e, n).value)
    decreases n
  {
    hide Advance, ClockOk, OnTime, BreaksNext, HandedInTime;
    if n == 0 {
      NoCalls(env.cfg);
    } else {
      BatchesMeetTheirDeadline(env, e, n - 1);
      ClockNeverRunsBack(env, e, n - 1, n - 1);
      var last := After(env, e, n - 1).value;
      DeadlineStep(env, last);
      AppendInTime(env.cfg, AllCalls(env, e, n - 1), CallsOf(Advance(env, last)));
    }
  }
}
