// No look-ahead: what the sources hold after time T cannot influence anything through time T.
module Causality {
  import opened Types
  import opened EventQueues
  import opened Feeds
  import opened EngineSpec
  import opened EngineClock

  // The leading items of a source no later than T.
  function TicksUpTo(s: seq<Tick>, T: int): seq<Tick> {
    if s == [] || s[0].tsExchange > T then [] else [s[0]] + TicksUpTo(s[1..], T)
  }

  function L3UpTo(s: seq<L3Update>, T: int): seq<L3Update> {
    if s == [] || s[0].tsExchange > T then [] else [s[0]] + L3UpTo(s[1..], T)
  }

  // Same queue, and sources that hold the same items through T.
  ghost predicate AgreeFeed(f: Feed, g: Feed, T: int) {
    && f.queue == g.queue && f.nextSeq == g.nextSeq
    && |f.sources| == |g.sources| && |f.l3Sources| == |g.l3Sources|
    && (forall i :: 0 <= i < |f.sources| ==> TicksUpTo(f.sources[i], T) == TicksUpTo(g.sources[i], T))
    && (forall i :: 0 <= i < |f.l3Sources| ==> L3UpTo(f.l3Sources[i], T) == L3UpTo(g.l3Sources[i], T))
  }

  ghost predicate Agree<S>(a: Engine<S>, b: Engine<S>, T: int) {
    a.core == b.core && AgreeFeed(a.feed, b.feed, T)
  }

  predicate DueBy(f: Feed, T: int) {
    !NextItem(f).Neither? && ItemTime(f) <= T
  }

  // Heads no later than T stand in the same places on both sides.
  ghost predicate AgreeHeads(a: seq<Option<Stamp>>, b: seq<Option<Stamp>>, T: int) {
    && |a| == |b|
    && forall i :: 0 <= i < |a| ==>
         && (a[i].Some? && a[i].value.0 <= T ==> b[i] == a[i])
         && (b[i].Some? && b[i].value.0 <= T ==> b[i] == a[i])
  }

  lemma {:induction false} SameTickHead(s: seq<Tick>, t: seq<Tick>, T: int)
    requires TicksUpTo(s, T) == TicksUpTo(t, T) && s != [] && s[0].tsExchange <= T
    ensures t != [] && t[0] == s[0] && TicksUpTo(s[1..], T) == TicksUpTo(t[1..], T)
  {
    assert TicksUpTo(s, T)[0] == s[0] && TicksUpTo(s, T)[1..] == TicksUpTo(s[1..], T);
    assert TicksUpTo(t, T)[0] == t[0] && TicksUpTo(t, T)[1..] == TicksUpTo(t[1..], T);
  }

  lemma {:induction false} SameL3Head(s: seq<L3Update>, t: seq<L3Update>, T: int)
    requires L3UpTo(s, T) == L3UpTo(t, T) && s != [] && s[0].tsExchange <= T
    ensures t != [] && t[0] == s[0] && L3UpTo(s[1..], T) == L3UpTo(t[1..], T)
  {
    assert L3UpTo(s, T)[0] == s[0] && L3UpTo(s, T)[1..] == L3UpTo(s[1..], T);
    assert L3UpTo(t, T)[0] == t[0] && L3UpTo(t, T)[1..] == L3UpTo(t[1..], T);
  }

  lemma {:induction false} HeadsAgree(f: Feed, g: Feed, T: int)
    requires AgreeFeed(f, g, T)
    ensures AgreeHeads(TickHeads(f.sources), TickHeads(g.sources), T)
    ensures AgreeHeads(L3Heads(f.l3Sources), L3Heads(g.l3Sources), T)
    ensures forall i :: 0 <= i < |f.sources| && f.sources[i] != [] && f.sources[i][0].tsExchange <= T ==>
              g.sources[i] != [] && g.sources[i][0] == f.sources[i][0]
    ensures forall i :: 0 <= i < |f.l3Sources| && f.l3Sources[i] != [] && f.l3Sources[i][0].tsExchange <= T ==>
              g.l3Sources[i] != [] && g.l3Sources[i][0] == f.l3Sources[i][0]
  {
    hide TicksUpTo, L3UpTo;
    forall i | 0 <= i < |f.sources| && f.sources[i] != [] && f.sources[i][0].tsExchange <= T
      ensures g.sources[i] != [] && g.sources[i][0] == f.sources[i][0]
    {
      SameTickHead(f.sources[i], g.sources[i], T);
    }
    forall i | 0 <= i < |g.sources| && g.sources[i] != [] && g.sources[i][0].tsExchange <= T
      ensures f.sources[i] != [] && f.sources[i][0] == g.sources[i][0]
    {
      SameTickHead(g.sources[i], f.sources[i], T);
    }
    forall i | 0 <= i < |f.l3Sources| && f.l3Sources[i] != [] && f.l3Sources[i][0].tsExchange <= T
      ensures g.l3Sources[i] != [] && g.l3Sources[i][0] == f.l3Sources[i][0]
    {
      SameL3Head(f.l3Sources[i], g.l3Sources[i], T);
    }
    forall i | 0 <= i < |g.l3Sources| && g.l3Sources[i] != [] && g.l3Sources[i][0].tsExchange <= T
      ensures f.l3Sources[i] != [] && f.l3Sources[i][0] == g.l3Sources[i][0]
    {
      SameL3Head(g.l3Sources[i], f.l3Sources[i], T);
    }
  }

  // The earliest head through T is the same on both sides.
  lemma {:induction false} EarliestAgrees(a: seq<Option<Stamp>>, b: seq<Option<Stamp>>, T: int)
    requires AgreeHeads(a, b, T)
    ensures
      var x, y := Earliest(a), Earliest(b);
      && (x.Some? && a[x.value].value.0 <= T ==> y == x)
      && (y.Some? && b[y.value].value.0 <= T ==> x == y)
  {
    hide Earliest;
    var x, y := Earliest(a), Earliest(b);
    if x.Some? && a[x.value].value.0 <= T {
      assert b[x.value] == a[x.value];
      assert y.Some? && !Less(b[x.value].value, b[y.value].value);
      assert b[y.value] == a[y.value];
      assert x.value == y.value;
    } else if y.Some? && b[y.value].value.0 <= T {
      assert a[y.value] == b[y.value];
      assert x.Some? && !Less(a[y.value].value, a[x.value].value);
      assert a[x.value] == b[x.value];
      assert x.value == y.value;
    }
  }

  lemma {:induction false} SameNextItem(f: Feed, g: Feed, T: int)
    requires AgreeFeed(f, g, T) && DueBy(f, T)
    ensures NextItem(g) == NextItem(f)
  {
    HeadsAgree(f, g, T);
    hide Earliest, AgreeFeed;
    var l3f, tf := L3Heads(f.l3Sources), TickHeads(f.sources);
    var l3g, tg := L3Heads(g.l3Sources), TickHeads(g.sources);
    EarliestAgrees(tf, tg, T);
    EarliestAgrees(l3f, l3g, T);
  }

  // If the next item is due by T on one side, the other side has the same next item.
  lemma {:induction false} NextAgrees(latency: int, f: Feed, g: Feed, T: int)
    requires AgreeFeed(f, g, T) && DueBy(f, T)
    ensures DueBy(g, T) && NextItem(g) == NextItem(f) && ItemTime(g) == ItemTime(f)
    ensures ItemPushes(latency, g) == ItemPushes(latency, f)
    ensures AgreeFeed(DropItem(f), DropItem(g), T)
  {
    SameNextItem(f, g, T);
    hide NextItem, TicksUpTo, L3UpTo;
    match NextItem(f) {
      case FromL3(i) => SameL3Head(f.l3Sources[i], g.l3Sources[i], T);
      case FromTicks(j) => SameTickHead(f.sources[j], g.sources[j], T);
    }
  }

  lemma {:induction false} AgreeSymmetric(f: Feed, g: Feed, T: int)
    requires AgreeFeed(f, g, T)
    ensures AgreeFeed(g, f, T)
  {
  }

  // Nothing queued or left in the sources before the given time.
  lemma {:induction false} AllBeyond(f: Feed, now: int, T: int)
    requires FeedOk(f, now) && !DueBy(f, T)
    requires f.queue == [] || f.queue[0].ts > T
    ensures FeedOk(f, T + 1)
  {
    hide NextItem;
    forall i | 0 <= i < |f.queue| ensures T + 1 <= f.queue[i].ts {
      assert i > 0 ==> Before(f.queue[0], f.queue[i]);
    }
    hide SourcesOk, QueueOk;
    if NextItem(f).Neither? {
      NothingLeft(f, now);
    } else {
      NextIsEarliest(f, now);
      SourcesLater(f, ItemTime(f), T + 1);
    }
  }

  ghost predicate HeadBy(f: Feed, T: int) {
    f.queue != [] && f.queue[0].ts <= T
  }

  lemma {:induction false} SameQueue(f: Feed, g: Feed, T: int)
    requires AgreeFeed(f, g, T)
    ensures f.queue == g.queue && f.nextSeq == g.nextSeq
  {
  }

  lemma {:induction false} IngestOneAgrees(latency: int, f: Feed, g: Feed, T: int)
    requires AgreeFeed(f, g, T) && DueBy(f, T) && CanIngest(f) && CanIngest(g)
    ensures AgreeFeed(IngestOne(latency, f), IngestOne(latency, g), T)
  {
    hide NextItem, PushAll, ItemPushes, DropItem;
    NextAgrees(latency, f, g, T);
  }

  lemma {:induction false} BeyondStays(latency: int, f: Feed, T: int)
    requires latency >= 0 && FeedOk(f, T + 1)
    ensures !HeadBy(Ingest(latency, f), T)
  {
    hide Ingest, SourcesOk;
    IngestOk(latency, f, T + 1);
  }

  // Lazy ingestion looks at the same items on both sides as long as the clock stays within T.
  lemma {:induction false} IngestAgrees(latency: int, f: Feed, g: Feed, now: int, T: int)
    requires latency >= 0 && FeedOk(f, now) && FeedOk(g, now) && AgreeFeed(f, g, T)
    ensures
      var f', g' := Ingest(latency, f), Ingest(latency, g);
      && (HeadBy(f', T) <==> HeadBy(g', T))
      && (HeadBy(f', T) ==> AgreeFeed(f', g', T))
    decreases Remaining(f)
  {
    hide NextItem, PushAll, FeedOk, AgreeFeed, ItemPushes, IngestOne;
    if DueBy(f, T) {
      NextAgrees(latency, f, g, T);
      SameQueue(f, g, T);
      if CanIngest(f) {
        IngestOneRemaining(latency, f);
        IngestOneOk(latency, f, now);
        IngestOneOk(latency, g, now);
        IngestOneAgrees(latency, f, g, T);
        IngestAgrees(latency, IngestOne(latency, f), IngestOne(latency, g), now, T);
      }
    } else {
      if DueBy(g, T) {
        AgreeSymmetric(f, g, T);
        NextAgrees(latency, g, f, T);
      }
      SameQueue(f, g, T);
      if !HeadBy(f, T) {
        AllBeyond(f, now, T);
        AllBeyond(g, now, T);
        BeyondStays(latency, f, T);
        BeyondStays(latency, g, T);
      }
    }
  }

  // Does the next iteration stay within T?
  predicate Within<S>(o: Outcome<S>, T: int) {
    o.Stepped? && o.event.ts <= T
  }

  // Popping in lockstep: if either side pops an event no later than T, both pop the same one, and what
  // they are left with still agrees through T.
  lemma {:induction false} StepAgrees<S>(env: Env<S>, a: Engine<S>, b: Engine<S>, T: int)
    requires GoodConfig(env.cfg) && ClockOk(a) && ClockOk(b) && Agree(a, b, T)
    ensures
      var x, y := PopFeed(env.cfg.feedLatency, a.feed), PopFeed(env.cfg.feedLatency, b.feed);
      && (x.Some? && x.value.0.ts <= T <==> y.Some? && y.value.0.ts <= T)
      && (x.Some? && x.value.0.ts <= T ==> x.value.0 == y.value.0 && AgreeFeed(x.value.1, y.value.1, T))
  {
    hide Ingest, FeedOk;
    IngestAgrees(env.cfg.feedLatency, a.feed, b.feed, a.core.now, T);
  }

  lemma {:induction false} ProcessAgrees<S>(env: Env<S>, c: Core<S>, f: Feed, g: Feed, event: Event, T: int)
    requires AgreeFeed(f, g, T)
    ensures
      var x, y := Process(env, c, f, event), Process(env, c, g, event);
      && (x.Stepped? <==> y.Stepped?) && (x.Failed? <==> y.Failed?)
      && (x.Stepped? ==> y.event == x.event && y.calls == x.calls && Agree(x.engine, y.engine, T))
  {
    hide Handle, Flush, PushAll, TicksUpTo, L3UpTo;
  }

  // The events and callbacks of the first n iterations, as far as they stay within T.
  function Through<S>(env: Env<S>, e: Engine<S>, T: int, n: nat): (seq<Event>, seq<Callback>, Core<S>)
    decreases n
  {
    if n == 0 then ([], [], e.core)
    else
      var o := Advance(env, e);
      if !Within(o, T) then ([], [], e.core)
      else
        var (events, calls, core) := Through(env, o.engine, T, n - 1);
        ([o.event] + events, o.calls + calls, core)
  }

  lemma {:induction false} OutOfRange<S>(env: Env<S>, e: Engine<S>, T: int)
    requires GoodConfig(env.cfg) && ClockOk(e)
    requires
      var x := PopFeed(env.cfg.feedLatency, e.feed);
      x.None? || x.value.0.ts > T
    ensures !Within(Advance(env, e), T)
  {
    hide PopFeed, ClockOk, Ingest, Flush, Handle, FeedOk, Timed, SourcesOk, TimedAt;
    PopClock(env, e);
    match PopFeed(env.cfg.feedLatency, e.feed) {
      case Some((event, f)) => ProcessClock(env, e.core, f, event);
      case None =>
    }
  }

  // Causality. Two engines with one strategy and one latency source, whose sorted sources agree on
  // every item through T, pop the same events, make the same callbacks and pass through the same
  // exchange, account and strategy state for as long as simulated time stays within T.
  lemma {:induction false} NoLookAhead<S>(env: Env<S>, a: Engine<S>, b: Engine<S>, T: int, n: nat)
    requires GoodConfig(env.cfg) && ClockOk(a) && ClockOk(b) && Agree(a, b, T)
    ensures Through(env, a, T, n) == Through(env, b, T, n)
    decreases n
  {
    hide PopFeed, Process, ClockOk, Ingest, Flush;
    if n > 0 {
      StepAgrees(env, a, b, T);
      var x, y := PopFeed(env.cfg.feedLatency, a.feed), PopFeed(env.cfg.feedLatency, b.feed);
      AdvanceClock(env, a);
      AdvanceClock(env, b);
      if x.Some? && x.value.0.ts <= T {
        ProcessAgrees(env, a.core, x.value.1, y.value.1, x.value.0, T);
        var o, p := Advance(env, a), Advance(env, b);
        if o.Stepped? {
          NoLookAhead(env, o.engine, p.engine, T, n - 1);
        }
      } else {
        OutOfRange(env, a, T);
        OutOfRange(env, b, T);
      }
    }
  }

  lemma {:induction false} AfterZero<S>(env: Env<S>, e: Engine<S>)
    ensures After(env, e, 0) == Some(e)
  {
  }

  // Once a run has left T behind, every later iteration and every later callback lies beyond T.
  lemma {:induction false} BeyondForever<S>(env: Env<S>, e: Engine<S>, T: int, n: nat)
    requires GoodConfig(env.cfg) && ClockOk(e) && e.core.now > T && After(env, e, n).Some?
    ensures
      var o := Advance(env, After(env, e, n).value);
      forall k :: 0 <= k < |CallsOf(o)| ==> CallsOf(o)[k].ts > T
  {
    hide Advance, ClockOk, After;
    ClockNeverRunsBack(env, e, 0, n);
    AfterZero(env, e);
    AdvanceClock(env, After(env, e, n).value);
  }

  // Does the next iteration hand over a buffer because nothing is left?
  predicate HandsOverAtEnd<S>(env: Env<S>, e: Engine<S>) {
    env.cfg.mode == BatchMode && (e.core.batch.ticks != [] || e.core.batch.reports != [])
  }

  lemma {:induction false} FlushCalls<S>(env: Env<S>, c: Core<S>, ts: int)
    ensures
      var eff := Flush(env, c, ts);
      eff.Effect? ==> (eff.calls == [] <==> c.batch.ticks == [] && c.batch.reports == [])
  {
    hide Commands;
  }

  // The one place where the end of a stream shows. Of two engines that agree through T, one has run
  // out of events and the other has events left, all of them beyond T. The other then makes no call by
  // T, and the first makes none by T exactly when it has no buffer to hand over.
  lemma {:induction false} FinalFlushSeesTheEnd<S>(env: Env<S>, a: Engine<S>, b: Engine<S>, T: int)
    requires GoodConfig(env.cfg) && ClockOk(a) && ClockOk(b) && Agree(a, b, T) && a.core.now <= T
    requires PopFeed(env.cfg.feedLatency, a.feed).None? && PopFeed(env.cfg.feedLatency, b.feed).Some?
    requires !Advance(env, a).Failed?
    ensures forall k :: 0 <= k < |CallsOf(Advance(env, b))| ==> CallsOf(Advance(env, b))[k].ts > T
    ensures (forall k :: 0 <= k < |CallsOf(Advance(env, a))| ==> CallsOf(Advance(env, a))[k].ts > T)
            <==> !HandsOverAtEnd(env, a)
  {
    StepAgrees(env, a, b, T);
    AdvanceClock(env, a);
    AdvanceClock(env, b);
    FlushCalls(env, a.core, a.core.now);
    hide PopFeed, ClockOk, Ingest, Process, Flush;
    var calls := CallsOf(Advance(env, a));
    if calls != [] {
      assert calls[0].ts <= T;
    }
  }
}
