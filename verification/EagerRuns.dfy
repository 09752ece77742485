// Lazy ingestion inside the running engine: whatever the strategy does, a run handles exactly the market
// events of the fully scheduled queue, in its order, in either mode.
module EagerRuns {
  import opened Types
  import opened EventQueues
  import opened Feeds
  import opened EngineSpec
  import opened EngineClock
  import opened EngineInvariant

  // ---- The market events of a queue --------------------------------------------------------------

  // A queued market event without its number; the engine's own events are left out.
  function MarketItem(e: Event): seq<Push> {
    if Outside(e.kind) then [Push(e.ts, e.kind)] else []
  }

  function MarketOf(q: Queue): seq<Push> {
    if q == [] then [] else MarketItem(q[0]) + MarketOf(q[1..])
  }

  // Behind everything that is due no later.
  function PutAfter(s: seq<Push>, p: Push): seq<Push> {
    if s == [] then [p] else if p.ts < s[0].ts then [p] + s else [s[0]] + PutAfter(s[1..], p)
  }

  function PutAll(s: seq<Push>, ps: seq<Push>): seq<Push>
    decreases ps
  {
    if ps == [] then s else PutAll(if Outside(ps[0].kind) then PutAfter(s, ps[0]) else s, ps[1..])
  }

  lemma {:induction false} MarketLater(q: Queue, ts: int)
    requires forall i :: 0 <= i < |q| ==> ts < q[i].ts
    ensures forall i :: 0 <= i < |MarketOf(q)| ==> ts < MarketOf(q)[i].ts
  {
    if q != [] {
      MarketLater(q[1..], ts);
    }
  }

  lemma {:induction false} PutBehind(a: seq<Push>, s: seq<Push>, p: Push)
    requires |a| <= 1 && (a != [] ==> a[0].ts <= p.ts)
    ensures PutAfter(a + s, p) == a + PutAfter(s, p)
  {
    if a != [] {
      assert (a + s)[0] == a[0] && (a + s)[1..] == s && a == [a[0]];
    } else {
      assert a + s == s;
    }
  }

  lemma {:induction false} MarketInsert(q: Queue, e: Event)
    requires Sorted(q) && forall i :: 0 <= i < |q| ==> q[i].seqNo < e.seqNo
    ensures MarketOf(Insert(q, e)) == if Outside(e.kind) then PutAfter(MarketOf(q), Push(e.ts, e.kind)) else MarketOf(q)
  {
    var p := Push(e.ts, e.kind);
    if q == [] {
      assert [e][1..] == [];
    } else if Before(e, q[0]) {
      forall i | 0 <= i < |q| ensures e.ts < q[i].ts {
        assert i > 0 ==> Before(q[0], q[i]);
      }
      MarketLater(q, e.ts);
      assert Insert(q, e)[1..] == q;
    } else {
      MarketInsert(q[1..], e);
      assert Insert(q, e)[1..] == Insert(q[1..], e);
      PutBehind(MarketItem(q[0]), MarketOf(q[1..]), p);
    }
  }

  lemma {:induction false} MarketPushes(q: Queue, next: int, now: int, ps: seq<Push>)
    requires QueueOk(q, next, now) && AllFrom(ps, now)
    ensures MarketOf(PushAll(q, next, ps)) == PutAll(MarketOf(q), ps)
    decreases ps
  {
    hide Insert, MarketOf, PutAfter;
    if ps != [] {
      InsertOk(q, next, now, ps[0]);
      MarketInsert(q, Event(ps[0].ts, next, ps[0].kind));
      MarketPushes(Insert(q, Event(ps[0].ts, next, ps[0].kind)), next + 1, now, ps[1..]);
    }
  }

  lemma {:induction false} PutNone(s: seq<Push>, ps: seq<Push>)
    requires forall p :: p in ps ==> !Outside(p.kind)
    ensures PutAll(s, ps) == s
    decreases ps
  {
    if ps != [] {
      assert ps[0] in ps;
      PutNone(s, ps[1..]);
    }
  }

  // All the market events still to come, in the order in which eager scheduling would pop them.
  function ToCome(latency: int, f: Feed): seq<Push> {
    MarketOf(Eager(latency, f))
  }

  // Timers and other events of the engine's own do not change what the market still holds.
  lemma {:induction false} OwnPushesKeepMarket(latency: int, f: Feed, now: int, ps: seq<Push>)
    requires FeedOk(f, now) && latency >= 0 && AllFrom(ps, now) && forall p :: p in ps ==> !Outside(p.kind)
    ensures ToCome(latency, Schedule(f, ps)) == ToCome(latency, f)
  {
    var f1 := Schedule(f, ps);
    hide PushAll, QueueOk, SourcesOk, MarketOf, PutAll, AllPushes, AllFrom;
    PushAllOk(f.queue, f.nextSeq, now, ps);
    SameSourcesSamePushes(latency, f, f1);
    AllPushesFrom(latency, f, now);
    MarketPushes(f.queue, f.nextSeq, now, ps);
    PutNone(MarketOf(f.queue), ps);
    MarketPushes(f1.queue, f1.nextSeq, now, AllPushes(latency, f));
    MarketPushes(f.queue, f.nextSeq, now, AllPushes(latency, f));
  }

  lemma {:induction false} PopMarket(latency: int, f: Feed, now: int)
    requires FeedOk(f, now) && latency >= 0
    ensures
      match PopFeed(latency, f)
      case Some((e, rest)) => ToCome(latency, f) == MarketItem(e) + ToCome(latency, rest) && FeedOk(rest, e.ts)
      case None => ToCome(latency, f) == [] && ToCome(latency, Ingest(latency, f)) == []
  {
    hide Eager, FeedOk, Ingest, MarketItem;
    PopIsEagerHead(latency, f, now);
    IngestKeepsEager(latency, f);
  }

  // ---- One iteration ----------------------------------------------------------------------------------

  // Whatever a handler or the strategy schedules, the market still holds the same.
  lemma {:induction false} FreshPushesKeepMarket(cfg: Config, f: Feed, now: int, ps: seq<Push>)
    requires GoodConfig(cfg) && FeedOk(f, now) && Timed(f.queue) && FreshPushes(cfg, now, ps)
    ensures
      var g := Schedule(f, ps);
      FeedOk(g, now) && Timed(g.queue) && ToCome(cfg.feedLatency, g) == ToCome(cfg.feedLatency, f)
  {
    FreshIsLater(cfg, now, ps);
    hide Schedule, ToCome, FeedOk, Timed, AllFrom, TimedAt;
    OwnPushesKeepMarket(cfg.feedLatency, f, now, ps);
    ScheduleOk(cfg, f, now, ps);
  }

  lemma {:induction false} FinishKeepsMarket<S>(env: Env<S>, eff: Effect<S>, f: Feed, event: Event)
    requires GoodConfig(env.cfg) && eff.Effect? && FeedOk(f, eff.core.now) && Timed(f.queue)
    requires FreshPushes(env.cfg, eff.core.now, eff.pushes)
    ensures
      var o := Finish(env, eff, f, event);
      o.Stepped? ==>
        o.event == event && ToCome(env.cfg.feedLatency, o.engine.feed) == ToCome(env.cfg.feedLatency, f)
  {
    hide Flush, ToCome, FeedOk, Timed, FreshPushes, Schedule;
    var f1 := Schedule(f, eff.pushes);
    FreshPushesKeepMarket(env.cfg, f, eff.core.now, eff.pushes);
    FlushFresh(env, eff.core, eff.core.now);
    var fl := Flush(env, eff.core, eff.core.now);
    if fl.Effect? {
      FreshPushesKeepMarket(env.cfg, f1, eff.core.now, fl.pushes);
    }
  }

  lemma {:induction false} ProcessKeepsMarket<S>(env: Env<S>, c: Core<S>, f: Feed, event: Event)
    requires GoodConfig(env.cfg) && FeedOk(f, event.ts) && Timed(f.queue) && TimedAt(event.ts, event.kind)
    ensures
      var o := Process(env, c, f, event);
      o.Stepped? ==>
        o.event == event && ToCome(env.cfg.feedLatency, o.engine.feed) == ToCome(env.cfg.feedLatency, f)
  {
    hide Handle, Finish, ToCome, FeedOk, Timed, FreshPushes, TimedAt;
    var c1 := c.(now := event.ts);
    HandleFresh(env, c1, event.kind);
    var eff := Handle(env, c1, event.kind);
    if eff.Effect? {
      FinishKeepsMarket(env, eff, f, event);
    }
  }

  // One iteration takes the next market event, or an event of the engine's own.
  lemma {:induction false} StepTakesNext<S>(env: Env<S>, e: Engine<S>)
    requires GoodConfig(env.cfg) && ClockOk(e)
    ensures
      match Advance(env, e)
      case Stepped(next, event, _) =>
        ToCome(env.cfg.feedLatency, e.feed) == MarketItem(event) + ToCome(env.cfg.feedLatency, next.feed)
      case Flushed(next, _) =>
        ToCome(env.cfg.feedLatency, e.feed) == ToCome(env.cfg.feedLatency, next.feed) == []
      case Done(_) => ToCome(env.cfg.feedLatency, e.feed) == []
      case Failed => true
  {
    hide Ingest, Process, Flush, ToCome, FeedOk, Timed, MarketItem, TimedAt, PopFeed, SourcesOk, FreshPushes, Schedule;
    PopMarket(env.cfg.feedLatency, e.feed, e.core.now);
    PopClock(env, e);
    match PopFeed(env.cfg.feedLatency, e.feed) {
      case Some((event, f)) =>
        ProcessSteps(env, e.core, f, event);
        ProcessKeepsMarket(env, e.core, f, event);
      case None =>
        var g := Ingest(env.cfg.feedLatency, e.feed);
        FlushFresh(env, e.core, e.core.now);
        var fl := Flush(env, e.core, e.core.now);
        if fl.Effect? {
          FreshPushesKeepMarket(env.cfg, g, e.core.now, fl.pushes);
        }
    }
  }

  // ---- Whole runs -------------------------------------------------------------------------------------

  function MarketOfStep<S>(o: Outcome<S>): seq<Push> {
    if o.Stepped? then MarketItem(o.event) else []
  }

  // The market events handled in the first n iterations.
  function MarketHandled<S>(env: Env<S>, e: Engine<S>, n: nat): seq<Push> {
    if n == 0 then []
    else
      match After(env, e, n - 1)
      case None => []
      case Some(last) => MarketHandled(env, e, n - 1) + MarketOfStep(Advance(env, last))
  }

  lemma {:induction false} AppendAssoc(a: seq<Push>, b: seq<Push>, c: seq<Push>)
    ensures a + (b + c) == a + b + c && a + [] == a
  {
  }

  // After any number of iterations, whatever the strategy does, the market events handled so far
  // followed by those still to come are the events of the queue in which everything was scheduled up front.
  lemma {:induction false} LazyRunsAreEager<S>(env: Env<S>, e: Engine<S>, n: nat)
    requires GoodConfig(env.cfg) && ClockOk(e) && After(env, e, n).Some?
    ensures
      MarketHandled(env, e, n) + ToCome(env.cfg.feedLatency, After(env, e, n).value.feed)
      == ToCome(env.cfg.feedLatency, e.feed)
    decreases n
  {
    hide Advance, ClockOk, ToCome;
    if n == 0 {
      assert [] + ToCome(env.cfg.feedLatency, e.feed) == ToCome(env.cfg.feedLatency, e.feed);
    } else {
      LazyRunsAreEager(env, e, n - 1);
      ClockNeverRunsBack(env, e, n - 1, n - 1);
      var last := After(env, e, n - 1).value;
      StepTakesNext(env, last);
      AppendAssoc(MarketHandled(env, e, n - 1), MarketOfStep(Advance(env, last)),
                  ToCome(env.cfg.feedLatency, After(env, e, n).value.feed));
      assert [] + ToCome(env.cfg.feedLatency, last.feed) == ToCome(env.cfg.feedLatency, last.feed);
    }
  }

  // A finished run has handled exactly those events, each once, whatever else it has handled.
  lemma {:induction false} FinishedRunsHandleEverything<S>(env: Env<S>, e: Engine<S>, n: nat)
    requires GoodConfig(env.cfg) && ClockOk(e) && After(env, e, n).Some?
    requires Advance(env, After(env, e, n).value).Done?
    ensures MarketHandled(env, e, n) == ToCome(env.cfg.feedLatency, e.feed)
  {
    hide Advance, ClockOk, ToCome, After, MarketHandled;
    LazyRunsAreEager(env, e, n);
    ClockNeverRunsBack(env, e, n, n);
    StepTakesNext(env, After(env, e, n).value);
    AppendAssoc(MarketHandled(env, e, n), [], []);
  }

  lemma {:induction false} EmptyQueueOk()
    ensures QueueOk([], 0, 0)
  {
  }

  lemma {:induction false} FromBoth(a: seq<Push>, b: seq<Push>)
    requires AllFrom(b, 0) && forall p :: p in a ==> p.ts >= 0
    ensures AllFrom(a + b, 0)
  {
    forall i | 0 <= i < |a + b| ensures 0 <= (a + b)[i].ts {
      assert (a + b)[i] in a || (a + b)[i] == b[i - |a|];
    }
  }

  lemma {:induction false} NoMarket()
    ensures MarketOf([]) == []
  {
  }

  lemma {:induction false} FeedHoldsEverything(
    latency: int, sources: seq<seq<Tick>>, l3Sources: seq<seq<L3Update>>, external: seq<Push>)
    requires latency >= 0 && SourcesOk(Feed([], 0, sources, l3Sources), 0)
    requires forall p :: p in external ==> p.ts >= 0
    ensures
      var f := Feed(PushAll([], 0, external), |external|, sources, l3Sources);
      ToCome(latency, f) == PutAll([], external + AllPushes(latency, f))
  {
    var f := Feed(PushAll([], 0, external), |external|, sources, l3Sources);
    var later := AllPushes(latency, f);
    EmptyQueueOk();
    hide PushAll, SourcesOk, MarketOf, PutAll, AllPushes, AllFrom, QueueOk;
    SourcesIgnoreQueue(Feed([], 0, sources, l3Sources), f, 0);
    AllPushesFrom(latency, f, 0);
    FromBoth(external, later);
    PushAllAppend([], 0, external, later);
    MarketPushes([], 0, 0, external + later);
    NoMarket();
  }

  // What is to come from a fresh start: the external events, then every source item in merge order,
  // each behind whatever is due no later.
  lemma {:induction false} StartHoldsEverything<S>(
    cfg: Config, s: S, sources: seq<seq<Tick>>, l3Sources: seq<seq<L3Update>>, l3Symbols: set<int>, external: seq<Push>)
    requires GoodConfig(cfg) && SourcesOk(Feed([], 0, sources, l3Sources), 0)
    requires forall p :: p in external ==> External(p) && p.ts >= 0
    ensures
      var e := Start(cfg, s, sources, l3Sources, l3Symbols, external);
      ToCome(cfg.feedLatency, e.feed) == PutAll([], external + AllPushes(cfg.feedLatency, e.feed))
  {
    var e := Start(cfg, s, sources, l3Sources, l3Symbols, external);
    hide PushAll, SourcesOk, ToCome, PutAll, AllPushes;
    FeedHoldsEverything(cfg.feedLatency, sources, l3Sources, external);
  }
}
