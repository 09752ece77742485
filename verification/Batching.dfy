// Batch mode: what is buffered is handed over exactly once, in order, and only when nothing else is
// due at that instant.
module Batching {
  import opened Types
  import opened Ledgers
  import opened Exchanges
  import opened EventQueues
  import opened Feeds
  import opened EngineSpec
  import opened EngineClock
  import opened EngineInvariant

  function TicksIn(p: Payload): seq<Tick> {
    match p
    case OnTick(t) => [t]
    case OnTicks(ts) => ts
    case _ => []
  }

  function ReportsIn(p: Payload): seq<OrderReport> {
    match p
    case OnReport(r) => [r]
    case OnReports(rs) => rs
    case _ => []
  }

  // All the ticks shown to the strategy by these callbacks, in order.
  function TicksShown(calls: seq<Callback>): seq<Tick> {
    if calls == [] then [] else TicksIn(calls[0].payload) + TicksShown(calls[1..])
  }

  function ReportsShown(calls: seq<Callback>): seq<OrderReport> {
    if calls == [] then [] else ReportsIn(calls[0].payload) + ReportsShown(calls[1..])
  }

  function ArrivedTick(e: Event): seq<Tick> {
    if e.kind.EvDelivery? then [e.kind.tick] else []
  }

  function ArrivedReport(e: Event): seq<OrderReport> {
    if e.kind.EvReport? then [e.kind.report] else []
  }

  lemma {:induction false} ShownAppend(a: seq<Callback>, b: seq<Callback>)
    ensures TicksShown(a + b) == TicksShown(a) + TicksShown(b)
    ensures ReportsShown(a + b) == ReportsShown(a) + ReportsShown(b)
  {
    hide TicksIn, ReportsIn;
    if a == [] {
      assert a + b == b;
    } else {
      assert (a + b)[1..] == a[1..] + b;
      ShownAppend(a[1..], b);
    }
  }

  lemma {:induction false} OneShown(cb: Callback)
    ensures TicksShown([cb]) == TicksIn(cb.payload) && ReportsShown([cb]) == ReportsIn(cb.payload)
  {
    assert [cb][1..] == [];
    assert TicksShown([]) == [] && ReportsShown([]) == [];
  }

  // In Tick mode nothing is ever buffered.
  predicate BufferOk(cfg: Config, b: Batch) {
    cfg.mode == TickMode ==> b.ticks == [] && b.reports == []
  }

  // What was buffered, then what arrived, is what was shown, then what is buffered now.
  ghost predicate Passed(
    before: Batch, ticks: seq<Tick>, reports: seq<OrderReport>, calls: seq<Callback>, after: Batch) {
    && before.ticks + ticks == TicksShown(calls) + after.ticks
    && before.reports + reports == ReportsShown(calls) + after.reports
  }

  lemma {:induction false} PassedTwice(
    a: Batch, ticks: seq<Tick>, reports: seq<OrderReport>, calls: seq<Callback>, b: Batch, more: seq<Callback>,
    c: Batch)
    requires Passed(a, ticks, reports, calls, b) && Passed(b, [], [], more, c)
    ensures Passed(a, ticks, reports, calls + more, c)
  {
    ShownAppend(calls, more);
    hide TicksShown, ReportsShown;
    assert b.ticks + [] == b.ticks && b.reports + [] == b.reports;
    assert TicksShown(calls) + (TicksShown(more) + c.ticks) == TicksShown(calls) + TicksShown(more) + c.ticks;
    assert ReportsShown(calls) + (ReportsShown(more) + c.reports)
           == ReportsShown(calls) + ReportsShown(more) + c.reports;
  }

  lemma {:induction false} NothingPassed(b: Batch, c: Batch)
    requires c.ticks == b.ticks && c.reports == b.reports
    ensures Passed(b, [], [], [], c)
  {
  }

  lemma {:induction false} CallShows<S>(env: Env<S>, c: Core<S>, ts: int, payload: Payload)
    ensures
      var eff := Call(env, c, ts, payload);
      eff.Effect? ==>
        && eff.core.batch == c.batch && TicksShown(eff.calls) == TicksIn(payload)
           && ReportsShown(eff.calls) == ReportsIn(payload)
        && |eff.calls| == 1 && eff.calls[0].payload == payload
  {
    OneShown(Callback(ts, c.market, payload));
    hide Commands, TicksShown, ReportsShown;
  }

  lemma {:induction false} NothingShown()
    ensures TicksShown([]) == [] && ReportsShown([]) == []
  {
  }

  lemma {:induction false} HandedOver<S>(env: Env<S>, s: S, market: map<int, Tick>, b: Batch, ts: int)
    ensures
      var h := HandOver(env, s, market, b, ts);
      h.Handover? ==> TicksShown(h.calls) == b.ticks && ReportsShown(h.calls) == b.reports
  {
    var t, r := Callback(ts, market, OnTicks(b.ticks)), Callback(ts, market, OnReports(b.reports));
    OneShown(t);
    OneShown(r);
    ShownAppend([t], [r]);
    hide TicksShown, ReportsShown;
    ShownAppend([], [r]);
    ShownAppend([t], []);
    assert TicksShown([]) == [] && ReportsShown([]) == [] by {
      NothingShown();
    }
    assert [] + [r] == [r] && [t] + [] == [t];
  }

  lemma {:induction false} FlushShows<S>(env: Env<S>, c: Core<S>, ts: int)
    ensures
      var eff := Flush(env, c, ts);
      eff.Effect? ==>
        && Passed(c.batch, [], [], eff.calls, eff.core.batch)
        && eff.core.batch.ticks == [] && eff.core.batch.reports == []
        && eff.core.batch.pendingWakeup == c.batch.pendingWakeup
  {
    HandedOver(env, c.strategy, c.market, c.batch, ts);
    hide Commands, HandOver, TicksShown, ReportsShown;
    if c.batch.ticks == [] && c.batch.reports == [] {
      NothingPassed(c.batch, c.batch);
    }
  }

  // Only deliveries, reports and funding payments concern the strategy.
  predicate Newsworthy(kind: EventKind) {
    kind.EvDelivery? || kind.EvReport? || kind.EvFunding?
  }

  lemma {:induction false} MarketAckShows<S>(env: Env<S>, c: Core<S>, s: int, id: int)
    requires id in ExchangeAt(c, s).orders
    ensures MarketAck(env, c, s, id).Effect?
    ensures MarketAck(env, c, s, id).core.batch == c.batch && MarketAck(env, c, s, id).calls == []
  {
    hide Record, JobOf, FillMarket, ForceCancel, ExchangeAt;
  }

  lemma {:induction false} HandleSilently<S>(env: Env<S>, c: Core<S>, kind: EventKind)
    requires !Newsworthy(kind)
    ensures
      var eff := Handle(env, c, kind);
      eff.Effect? ==>
        && eff.calls == [] && eff.core.batch.ticks == c.batch.ticks && eff.core.batch.reports == c.batch.reports
        && eff.core.batch.pendingWakeup == c.batch.pendingWakeup
  {
    hide Call, OnTrade, Record, JobsOf, UpdateL3, Submit, FillMarket, ForceCancel, AckNew, Cancel, AckCancel,
      ExchangeAt, ComputeFee, UpdateL2, MarketAck;
    if kind.EvAck? && kind.id in c.routes && kind.id in ExchangeAt(c, c.routes[kind.id]).orders {
      MarketAckShows(env, c, c.routes[kind.id], kind.id);
    }
  }

  ghost predicate Shows<S>(cfg: Config, c: Core<S>, e: Event, eff: Effect<S>) {
    eff.Effect? ==>
      && Passed(c.batch, ArrivedTick(e), ArrivedReport(e), eff.calls, eff.core.batch)
      && BufferOk(cfg, eff.core.batch) && eff.core.batch.pendingWakeup == c.batch.pendingWakeup
      && forall k :: 0 <= k < |eff.calls| ==> !eff.calls[k].payload.OnTicks? && !eff.calls[k].payload.OnReports?
  }

  lemma {:induction false} DeliveryShows<S>(env: Env<S>, c: Core<S>, e: Event)
    requires BufferOk(env.cfg, c.batch) && e.kind.EvDelivery?
    ensures Shows(env.cfg, c, e, HandleDelivery(env, c, e.kind.tick))
  {
    NothingShown();
    CallShows(env, c.(market := c.market[e.kind.tick.symbolId := e.kind.tick]), e.kind.tick.tsLocal,
              OnTick(e.kind.tick));
    hide Call, TicksShown, ReportsShown;
  }

  lemma {:induction false} ReportShows<S>(env: Env<S>, c: Core<S>, e: Event)
    requires BufferOk(env.cfg, c.batch) && e.kind.EvReport?
    ensures Shows(env.cfg, c, e, HandleReport(env, c, e.kind.report))
  {
    NothingShown();
    var c1 := Retire(c, e.kind.report);
    assert c1.batch == c.batch && c1.now == c.now;
    hide Call, TicksShown, ReportsShown, Retire;
    CallShows(env, c1, c.now, OnReport(e.kind.report));
  }

  lemma {:induction false} FundingShows<S>(env: Env<S>, c: Core<S>, e: Event)
    requires BufferOk(env.cfg, c.batch) && e.kind.EvFunding?
    ensures Shows(env.cfg, c, e, HandleFunding(env, c, e.kind.funding))
  {
    NothingShown();
    var event := e.kind.funding;
    hide Call, TicksShown, ReportsShown, Fund, FundingMark;
    var mark := FundingMark(c, event.symbolId);
    CallShows(env, if mark.Some? then c.(ledger := Fund(c.ledger, event, mark.value)) else c, c.now, OnFunding(event));
  }

  // Handlers show news at once in Tick mode and buffer it in Batch mode.
  lemma {:induction false} HandleShows<S>(env: Env<S>, c: Core<S>, e: Event)
    requires BufferOk(env.cfg, c.batch)
    ensures Shows(env.cfg, c, e, Handle(env, c, e.kind))
  {
    hide HandleDelivery, HandleReport, HandleFunding;
    if e.kind.EvDelivery? {
      DeliveryShows(env, c, e);
    } else if e.kind.EvReport? {
      ReportShows(env, c, e);
    } else if e.kind.EvFunding? {
      FundingShows(env, c, e);
    } else {
      NothingShown();
      HandleSilently(env, c, e.kind);
      hide Handle, TicksShown, ReportsShown;
    }
  }

  lemma {:induction false} SameBuffers(
    a: Batch, ticks: seq<Tick>, reports: seq<OrderReport>, calls: seq<Callback>, b: Batch, c: Batch)
    requires Passed(a, ticks, reports, calls, b) && c.ticks == b.ticks && c.reports == b.reports
    ensures Passed(a, ticks, reports, calls, c)
  {
  }

  lemma {:induction false} FinishShows<S>(
    env: Env<S>, b: Batch, ticks: seq<Tick>, reports: seq<OrderReport>, eff: Effect<S>, f: Feed, event: Event)
    requires eff.Effect? && Passed(b, ticks, reports, eff.calls, eff.core.batch) && BufferOk(env.cfg, eff.core.batch)
    ensures !Finish(env, eff, f, event).Flushed? && !Finish(env, eff, f, event).Done?
    ensures
      var o := Finish(env, eff, f, event);
      o.Stepped? ==>
        && o.event == event && Passed(b, ticks, reports, o.calls, o.engine.core.batch)
        && BufferOk(env.cfg, o.engine.core.batch)
  {
    hide Flush, Schedule, Passed;
    FlushShows(env, eff.core, eff.core.now);
    var fl := Flush(env, eff.core, eff.core.now);
    var o := Finish(env, eff, f, event);
    if o.Stepped? {
      if WantsFlush(env, eff) && !MustWait(Schedule(f, eff.pushes).queue, eff.core.now) {
        PassedTwice(b, ticks, reports, eff.calls, eff.core.batch, fl.calls, fl.core.batch);
        SameBuffers(b, ticks, reports, eff.calls + fl.calls, fl.core.batch, o.engine.core.batch);
      } else {
        SameBuffers(b, ticks, reports, eff.calls, eff.core.batch, o.engine.core.batch);
      }
    }
  }

  // One iteration passes news on: nothing is lost, repeated or reordered.
  lemma {:induction false} StepShows<S>(env: Env<S>, e: Engine<S>)
    requires BufferOk(env.cfg, e.core.batch)
    ensures
      match Advance(env, e)
      case Stepped(next, event, calls) =>
        && Passed(e.core.batch, ArrivedTick(event), ArrivedReport(event), calls, next.core.batch)
        && BufferOk(env.cfg, next.core.batch)
      case Flushed(next, calls) =>
        Passed(e.core.batch, [], [], calls, next.core.batch) && BufferOk(env.cfg, next.core.batch)
      case Done(next) => next.core == e.core && e.core.batch.ticks == [] && e.core.batch.reports == []
      case Failed => true
  {
    hide Handle, Flush, Schedule, PopFeed, Ingest, Passed;
    match PopFeed(env.cfg.feedLatency, e.feed) {
      case Some((event, f)) =>
        var c := e.core.(now := event.ts);
        HandleShows(env, c, event);
        var eff := Handle(env, c, event.kind);
        if eff.Effect? {
          FinishShows(env, e.core.batch, ArrivedTick(event), ArrivedReport(event), eff, f, event);
        }
      case None => FlushShows(env, e.core, e.core.now);
    }
  }

  // ---- Runs --------------------------------------------------------------------------------------

  // Every callback made in the first n iterations.
  function AllCalls<S>(env: Env<S>, e: Engine<S>, n: nat): seq<Callback>
  {
    if n == 0 then []
    else
      match After(env, e, n - 1)
      case None => []
      case Some(last) => AllCalls(env, e, n - 1) + CallsOf(Advance(env, last))
  }

  function TicksOf<S>(o: Outcome<S>): seq<Tick> {
    if o.Stepped? then ArrivedTick(o.event) else []
  }

  // Every tick whose delivery was processed in the first n iterations.
  function TicksDelivered<S>(env: Env<S>, e: Engine<S>, n: nat): seq<Tick>
  {
    if n == 0 then []
    else
      match After(env, e, n - 1)
      case None => []
      case Some(last) => TicksDelivered(env, e, n - 1) + TicksOf(Advance(env, last))
  }

  lemma {:induction false} Shift(
    calls: seq<Callback>, b: Batch, ticks: seq<Tick>, reports: seq<OrderReport>, more: seq<Callback>, b': Batch,
    allTicks: seq<Tick>, allReports: seq<OrderReport>)
    requires TicksShown(calls) + b.ticks == allTicks && ReportsShown(calls) + b.reports == allReports
    requires Passed(b, ticks, reports, more, b')
    ensures TicksShown(calls + more) + b'.ticks == allTicks + ticks
    ensures ReportsShown(calls + more) + b'.reports == allReports + reports
  {
    ShownAppend(calls, more);
    hide TicksShown, ReportsShown;
    assert TicksShown(calls) + (b.ticks + ticks) == TicksShown(calls) + b.ticks + ticks;
    assert TicksShown(calls) + (TicksShown(more) + b'.ticks) == TicksShown(calls) + TicksShown(more) + b'.ticks;
    assert ReportsShown(calls) + (b.reports + reports) == ReportsShown(calls) + b.reports + reports;
    assert ReportsShown(calls) + (ReportsShown(more) + b'.reports)
           == ReportsShown(calls) + ReportsShown(more) + b'.reports;
  }

  // The ticks and the reports shown to the strategy so far, followed by what is still buffered, are
  // exactly the deliveries processed so far, in order.
  lemma {:induction false} HandoversConcatenate<S>(env: Env<S>, e: Engine<S>, n: nat)
    requires After(env, e, n).Some? && e.core.batch.ticks == [] && e.core.batch.reports == []
    ensures
      var b := After(env, e, n).value.core.batch;
      && TicksShown(AllCalls(env, e, n)) + b.ticks == TicksDelivered(env, e, n)
      && ReportsShown(AllCalls(env, e, n)) + b.reports == ReportsDelivered(env, e, n)
      && BufferOk(env.cfg, b)
    decreases n
  {
    NothingShown();
    hide Advance, TicksShown, ReportsShown, Passed;
    if n > 0 {
      HandoversConcatenate(env, e, n - 1);
      var prev := After(env, e, n - 1).value;
      var o := Advance(env, prev);
      StepShows(env, prev);
      var ticks := TicksOf(o);
      var reports := if o.Stepped? then ArrivedReport(o.event) else [];
      Shift(AllCalls(env, e, n - 1), prev.core.batch, ticks, reports, CallsOf(o), After(env, e, n).value.core.batch,
            TicksDelivered(env, e, n - 1), ReportsDelivered(env, e, n - 1));
      assert ReportsDelivered(env, e, n) == ReportsDelivered(env, e, n - 1) + reports;
    }
  }

  // When a run is done the strategy has been shown everything that was delivered.
  lemma {:induction false} NothingStaysBuffered<S>(env: Env<S>, e: Engine<S>, n: nat)
    requires After(env, e, n).Some? && e.core.batch.ticks == [] && e.core.batch.reports == []
    requires Advance(env, After(env, e, n).value).Done?
    ensures TicksShown(AllCalls(env, e, n)) == TicksDelivered(env, e, n)
    ensures ReportsShown(AllCalls(env, e, n)) == ReportsDelivered(env, e, n)
  {
    hide Advance, TicksShown, ReportsShown, After, AllCalls, TicksDelivered, ReportsDelivered;
    HandoversConcatenate(env, e, n);
    StepShows(env, After(env, e, n).value);
  }

  // ---- When batches are handed over ------------------------------------------------------------------

  predicate HandsOver(calls: seq<Callback>) {
    exists k :: 0 <= k < |calls| && (calls[k].payload.OnTicks? || calls[k].payload.OnReports?)
  }

  lemma {:induction false} FinishHandsOver<S>(env: Env<S>, eff: Effect<S>, f: Feed, event: Event)
    requires eff.Effect? && !HandsOver(eff.calls)
    ensures
      var o := Finish(env, eff, f, event);
      o.Stepped? && HandsOver(o.calls) ==>
        WantsFlush(env, eff) && !MustWait(Schedule(f, eff.pushes).queue, eff.core.now)
  {
    hide Flush, Schedule;
  }

  lemma {:induction false} NoneDue(f: Feed, now: int)
    requires FeedOk(f, now)
    ensures !MustWait(f.queue, now) ==> forall x :: x in f.queue ==> now < x.ts
  {
    forall x | x in f.queue && !MustWait(f.queue, now) ensures now < x.ts {
      var i :| 0 <= i < |f.queue| && f.queue[i] == x;
      assert i > 0 ==> Before(f.queue[0], f.queue[i]);
    }
  }

  lemma {:induction false} ProcessHandsOver<S>(env: Env<S>, c: Core<S>, f: Feed, event: Event)
    requires GoodConfig(env.cfg) && TimedAt(event.ts, event.kind) && BufferOk(env.cfg, c.batch)
    requires FeedOk(f, event.ts) && Timed(f.queue) && SourcesOk(f, event.ts + 1)
    requires Process(env, c, f, event).Stepped? && HandsOver(Process(env, c, f, event).calls)
    ensures
      var eff := Handle(env, c.(now := event.ts), event.kind);
      && eff.Effect? && env.cfg.mode == BatchMode
      && (forall x :: x in Schedule(f, eff.pushes).queue ==> event.ts < x.ts)
      && SourcesOk(Schedule(f, eff.pushes), event.ts + 1)
  {
    var c1 := c.(now := event.ts);
    HandleFresh(env, c1, event.kind);
    HandleShows(env, c1, event);
    var eff := Handle(env, c1, event.kind);
    hide Handle, Flush, Schedule, FeedOk, SourcesOk, Timed, FreshPushes, Passed, TimedAt, Finish;
    FinishHandsOver(env, eff, f, event);
    ScheduleOk(env.cfg, f, event.ts, eff.pushes);
    var due := Schedule(f, eff.pushes);
    SourcesIgnoreQueue(f, due, event.ts + 1);
    NoneDue(due, event.ts);
  }

  // A batch is handed over only when everything scheduled, and everything still in the sources, lies
  // strictly in the future.
  lemma {:induction false} BatchesWaitForTheirInstant<S>(env: Env<S>, e: Engine<S>)
    requires GoodConfig(env.cfg) && ClockOk(e) && BufferOk(env.cfg, e.core.batch)
    requires Advance(env, e).Stepped? && HandsOver(Advance(env, e).calls)
    ensures PopFeed(env.cfg.feedLatency, e.feed).Some?
    ensures
      var (event, f) := PopFeed(env.cfg.feedLatency, e.feed).value;
      var eff := Handle(env, e.core.(now := event.ts), event.kind);
      && eff.Effect? && env.cfg.mode == BatchMode
      && (forall x :: x in Schedule(f, eff.pushes).queue ==> event.ts < x.ts)
      && SourcesOk(Schedule(f, eff.pushes), event.ts + 1)
  {
    PopClock(env, e);
    hide Process, PopFeed, ClockOk, Flush, Ingest, Handle, FeedOk, SourcesOk, Timed, Schedule;
    var (event, f) := PopFeed(env.cfg.feedLatency, e.feed).value;
    ProcessHandsOver(env, e.core, f, event);
  }
}
