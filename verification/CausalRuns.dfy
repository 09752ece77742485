// No look-ahead over whole runs: two finished runs whose sources agree through T make the same calls by
// T, exactly unless one of them runs out of events with a buffer to hand over while the other does not.
module CausalRuns {
  import opened Types
  import opened EventQueues
  import opened Feeds
  import opened EngineSpec
  import opened EngineClock
  import opened Termination
  import opened Batching
  import opened BatchDeadline
  import opened Causality

  function IfBy(call: Callback, T: int): seq<Callback> {
    if call.ts <= T then [call] else []
  }

  // The calls made no later than T.
  function CallsBy(calls: seq<Callback>, T: int): seq<Callback> {
    if calls == [] then [] else IfBy(calls[0], T) + CallsBy(calls[1..], T)
  }

  lemma {:induction false} CallsByAppend(a: seq<Callback>, b: seq<Callback>, T: int)
    ensures CallsBy(a + b, T) == CallsBy(a, T) + CallsBy(b, T)
  {
    hide IfBy;
    if a == [] {
      assert a + b == b;
    } else {
      assert (a + b)[1..] == a[1..] + b;
      CallsByAppend(a[1..], b, T);
    }
  }

  lemma {:induction false} NoneBy(calls: seq<Callback>, T: int)
    requires forall k :: 0 <= k < |calls| ==> calls[k].ts > T
    ensures CallsBy(calls, T) == []
  {
    if calls != [] {
      NoneBy(calls[1..], T);
    }
  }

  lemma {:induction false} SomeBy(calls: seq<Callback>, T: int)
    requires calls != [] && calls[0].ts <= T
    ensures CallsBy(calls, T) != []
  {
  }

  // ---- A run from its first iteration on -----------------------------------------------------------

  lemma {:induction false} RunFirst<S>(env: Env<S>, e: Engine<S>, n: nat)
    requires GoesOn(Advance(env, e)) && After(env, e, n + 1).Some?
    ensures After(env, e, n + 1) == After(env, Advance(env, e).engine, n)
    ensures AllCalls(env, e, n + 1) == CallsOf(Advance(env, e)) + AllCalls(env, Advance(env, e).engine, n)
    decreases n
  {
    hide Advance;
    AfterFirst(env, e, n);
    if n == 0 {
      assert After(env, e, 0) == Some(e) && AllCalls(env, e, 0) == [];
    } else {
      AfterFirst(env, e, n - 1);
      RunFirst(env, e, n - 1);
      var (first, rest) := (CallsOf(Advance(env, e)), AllCalls(env, Advance(env, e).engine, n - 1));
      var last := CallsOf(Advance(env, After(env, e, n).value));
      assert first + rest + last == first + (rest + last);
    }
  }

  lemma {:induction false} RunStops<S>(env: Env<S>, e: Engine<S>, n: nat)
    requires !GoesOn(Advance(env, e)) && n > 0
    ensures After(env, e, n).None?
    decreases n
  {
    hide Advance;
    assert After(env, e, 0) == Some(e);
    if n > 1 {
      RunStops(env, e, n - 1);
    }
  }

  // ---- Beyond T -----------------------------------------------------------------------------------------

  lemma {:induction false} QuietBeyond<S>(env: Env<S>, e: Engine<S>, T: int, n: nat)
    requires GoodConfig(env.cfg) && ClockOk(e) && e.core.now > T && After(env, e, n).Some?
    ensures CallsBy(AllCalls(env, e, n), T) == []
    decreases n
  {
    hide Advance, ClockOk, CallsBy;
    if n == 0 {
      NoneBy([], T);
    } else {
      QuietBeyond(env, e, T, n - 1);
      BeyondForever(env, e, T, n - 1);
      var last := After(env, e, n - 1).value;
      NoneBy(CallsOf(Advance(env, last)), T);
      CallsByAppend(AllCalls(env, e, n - 1), CallsOf(Advance(env, last)), T);
    }
  }

  // The next event lies beyond T.
  ghost predicate NextBeyond<S>(env: Env<S>, e: Engine<S>, T: int) {
    var x := PopFeed(env.cfg.feedLatency, e.feed);
    x.Some? && x.value.0.ts > T
  }

  lemma {:induction false} StepBeyond<S>(env: Env<S>, e: Engine<S>, T: int)
    requires GoodConfig(env.cfg) && ClockOk(e) && NextBeyond(env, e, T)
    ensures
      match Advance(env, e)
      case Stepped(next, event, calls) =>
        next.core.now > T && ClockOk(next) && CallsBy(calls, T) == []
      case Failed => true
      case _ => false
  {
    AdvanceClock(env, e);
    hide PopFeed, ClockOk, Process, CallsBy, SourcesOk;
    var (event, f) := PopFeed(env.cfg.feedLatency, e.feed).value;
    ProcessSteps(env, e.core, f, event);
    match Advance(env, e) {
      case Stepped(_, _, calls) => NoneBy(calls, T);
      case _ =>
    }
  }

  lemma {:induction false} FirstOf<S>(env: Env<S>, e: Engine<S>, n: nat) returns (next: Engine<S>)
    requires n > 0 && After(env, e, n).Some?
    ensures GoesOn(Advance(env, e)) && next == Advance(env, e).engine
  {
    hide Advance, After;
    if GoesOn(Advance(env, e)) {
      next := Advance(env, e).engine;
    } else {
      RunStops(env, e, n);
    }
  }

  lemma {:induction false} QuietFromHere<S>(env: Env<S>, e: Engine<S>, T: int, n: nat)
    requires GoodConfig(env.cfg) && ClockOk(e) && NextBeyond(env, e, T) && After(env, e, n).Some?
    ensures CallsBy(AllCalls(env, e, n), T) == []
    ensures n > 0 ==> After(env, e, n).value.core.now > T
  {
    if n > 0 {
      StepBeyond(env, e, T);
      hide Advance, ClockOk, NextBeyond, CallsBy, After, AllCalls;
      var next := FirstOf(env, e, n);
      RunFirst(env, e, n - 1);
      ClockNeverRunsBack(env, next, 0, n - 1);
      AfterZero(env, next);
      QuietBeyond(env, next, T, n - 1);
      CallsByAppend(CallsOf(Advance(env, e)), AllCalls(env, next, n - 1), T);
      assert [] + CallsBy(AllCalls(env, next, n - 1), T) == [];
    } else {
      NoneBy([], T);
    }
  }

  // ---- Two runs -------------------------------------------------------------------------------------------

  // One of two engines that agree through T has run out of events, with a buffer to hand over at a time
  // no later than T, and the other has not.
  ghost predicate EndShows<S>(env: Env<S>, a: Engine<S>, b: Engine<S>, T: int) {
    && Agree(a, b, T) && a.core.now <= T && HandsOverAtEnd(env, a)
    && (PopFeed(env.cfg.feedLatency, a.feed).None? <==> PopFeed(env.cfg.feedLatency, b.feed).Some?)
  }

  ghost predicate EndShowsAt<S>(env: Env<S>, a: Engine<S>, b: Engine<S>, T: int, k: nat) {
    match (After(env, a, k), After(env, b, k))
    case (Some(x), Some(y)) => EndShows(env, x, y, T)
    case _ => false
  }

  ghost predicate IsDone<S>(env: Env<S>, e: Engine<S>, n: nat) {
    match After(env, e, n)
    case Some(last) => Advance(env, last).Done?
    case None => false
  }

  lemma {:induction false} NothingToIngest(latency: int, f: Feed)
    requires PopFeed(latency, f).None?
    ensures Ingest(latency, f) == f
  {
    hide NextItem;
    if CanIngest(f) {
      var g := IngestOne(latency, f);
      ItemPushesNonEmpty(latency, f);
      var ps := ItemPushes(latency, f);
      PushAllMembers(f.queue, f.nextSeq, ps, Event(ps[0].ts, f.nextSeq + 0, ps[0].kind));
      IngestKeepsMembers(latency, g);
      assert g.queue[0] in Ingest(latency, g).queue;
    }
  }

  lemma {:induction false} Drained<S>(env: Env<S>, e: Engine<S>)
    requires PopFeed(env.cfg.feedLatency, e.feed).None?
    ensures Advance(env, e) == Drain(env, e.core, e.feed)
    ensures Advance(env, e).Done? <==> !HandsOverAtEnd(env, e)
    ensures !Advance(env, e).Stepped?
  {
    NothingToIngest(env.cfg.feedLatency, e.feed);
    hide Ingest, Flush;
  }

  // When both have run out of events they go on alike.
  lemma {:induction false} DrainedAlike<S>(env: Env<S>, a: Engine<S>, b: Engine<S>, T: int)
    requires Agree(a, b, T)
    requires PopFeed(env.cfg.feedLatency, a.feed).None? && PopFeed(env.cfg.feedLatency, b.feed).None?
    ensures
      match (Advance(env, a), Advance(env, b))
      case (Flushed(x, calls), Flushed(y, calls')) => Agree(x, y, T) && calls == calls'
      case (Done(_), Done(_)) => true
      case (Failed, Failed) => true
      case _ => false
  {
    Drained(env, a);
    Drained(env, b);
    hide Advance, Flush, PopFeed, PushAll, TicksUpTo, L3UpTo;
  }

  // Both pop an event by T, or both have run out of events.
  ghost predicate Together<S>(env: Env<S>, a: Engine<S>, b: Engine<S>, T: int) {
    var x, y := PopFeed(env.cfg.feedLatency, a.feed), PopFeed(env.cfg.feedLatency, b.feed);
    (x.Some? && x.value.0.ts <= T) || (x.None? && y.None?)
  }

  ghost predicate StepsAlike<S>(o: Outcome<S>, p: Outcome<S>, T: int) {
    && (GoesOn(o) <==> GoesOn(p))
    && (GoesOn(o) ==>
          && CallsOf(o) == CallsOf(p) && Agree(o.engine, p.engine, T)
          && ClockOk(o.engine) && ClockOk(p.engine))
  }

  // Two engines that agree through T step alike, or neither pops an event by T.
  lemma {:induction false} SameStep<S>(env: Env<S>, a: Engine<S>, b: Engine<S>, T: int)
    requires GoodConfig(env.cfg) && ClockOk(a) && ClockOk(b) && Agree(a, b, T)
    ensures Together(env, a, b, T) ==> StepsAlike(Advance(env, a), Advance(env, b), T)
    ensures !Together(env, a, b, T) ==>
              && (PopFeed(env.cfg.feedLatency, a.feed).None? || NextBeyond(env, a, T))
              && (PopFeed(env.cfg.feedLatency, b.feed).None? || NextBeyond(env, b, T))
  {
    StepAgrees(env, a, b, T);
    AdvanceClock(env, a);
    AdvanceClock(env, b);
    var x, y := PopFeed(env.cfg.feedLatency, a.feed), PopFeed(env.cfg.feedLatency, b.feed);
    if x.None? && y.None? {
      DrainedAlike(env, a, b, T);
    }
    hide PopFeed, ClockOk, Process, AgreeFeed, SourcesOk, Drain, Ingest;
    if x.Some? && x.value.0.ts <= T {
      ProcessAgrees(env, a.core, x.value.1, y.value.1, x.value.0, T);
      ProcessSteps(env, a.core, x.value.1, x.value.0);
      ProcessSteps(env, b.core, y.value.1, y.value.0);
    }
  }

  // A run that cannot call by T any more: it is done here, or goes on beyond T.
  ghost predicate Quiet<S>(env: Env<S>, e: Engine<S>, T: int) {
    e.core.now > T || NextBeyond(env, e, T) || Advance(env, e).Done?
  }

  lemma {:induction false} QuietRun<S>(env: Env<S>, e: Engine<S>, T: int, n: nat)
    requires GoodConfig(env.cfg) && ClockOk(e) && Quiet(env, e, T) && After(env, e, n).Some?
    ensures CallsBy(AllCalls(env, e, n), T) == []
    ensures n > 0 ==> After(env, e, n).value.core.now > T
  {
    hide Advance, ClockOk, NextBeyond, CallsBy;
    if e.core.now > T {
      QuietBeyond(env, e, T, n);
      ClockNeverRunsBack(env, e, 0, n);
    } else if NextBeyond(env, e, T) {
      QuietFromHere(env, e, T, n);
    } else {
      if n > 0 {
        RunStops(env, e, n);
      }
      NoneBy([], T);
    }
  }

  // A run that ends with a buffer to hand over still calls, at its present time.
  lemma {:induction false} EndCalls<S>(env: Env<S>, e: Engine<S>, T: int)
    requires GoodConfig(env.cfg) && ClockOk(e) && e.core.now <= T && HandsOverAtEnd(env, e)
    requires PopFeed(env.cfg.feedLatency, e.feed).None?
    ensures !Advance(env, e).Done? && !Advance(env, e).Stepped?
    ensures GoesOn(Advance(env, e)) ==> CallsBy(CallsOf(Advance(env, e)), T) != []
  {
    Drained(env, e);
    FlushCalls(env, e.core, e.core.now);
    AdvanceClock(env, e);
    hide PopFeed, ClockOk, Flush, CallsBy, HandsOverAtEnd, Ingest;
    if Advance(env, e).Flushed? {
      SomeBy(CallsOf(Advance(env, e)), T);
    }
  }

  lemma {:induction false} DoneFirst<S>(env: Env<S>, e: Engine<S>, n: nat)
    requires GoesOn(Advance(env, e)) && IsDone(env, e, n)
    ensures n > 0 && IsDone(env, Advance(env, e).engine, n - 1)
  {
    AfterZero(env, e);
    hide Advance, After;
    AfterFirst(env, e, n - 1);
  }

  lemma {:induction false} CallsByFirst<S>(env: Env<S>, e: Engine<S>, T: int, n: nat)
    requires GoesOn(Advance(env, e)) && n > 0 && IsDone(env, e, n)
    ensures CallsBy(AllCalls(env, e, n), T)
            == CallsBy(CallsOf(Advance(env, e)), T) + CallsBy(AllCalls(env, Advance(env, e).engine, n - 1), T)
  {
    hide Advance, After, AllCalls, CallsBy;
    RunFirst(env, e, n - 1);
    CallsByAppend(CallsOf(Advance(env, e)), AllCalls(env, Advance(env, e).engine, n - 1), T);
  }

  lemma {:induction false} NoMoreCalls<S>(env: Env<S>, e: Engine<S>, n: nat)
    requires !GoesOn(Advance(env, e)) && After(env, e, n).Some?
    ensures n == 0 && AllCalls(env, e, n) == []
  {
    hide Advance;
    if n > 0 {
      RunStops(env, e, n);
    }
  }

  // At the point where the end shows, only the run that has ended still calls by T.
  lemma {:induction false} EndTells<S>(env: Env<S>, a: Engine<S>, b: Engine<S>, T: int, m: nat, n: nat)
    requires GoodConfig(env.cfg) && ClockOk(a) && ClockOk(b) && EndShows(env, a, b, T)
    requires PopFeed(env.cfg.feedLatency, a.feed).None?
    requires IsDone(env, a, m) && After(env, b, n).Some?
    ensures CallsBy(AllCalls(env, a, m), T) != [] && CallsBy(AllCalls(env, b, n), T) == []
  {
    SameStep(env, a, b, T);
    EndCalls(env, a, T);
    hide PopFeed, ClockOk, CallsBy, NextBeyond, Agree, AllCalls, Advance, After, HandsOverAtEnd, StepsAlike;
    QuietFromHere(env, b, T, n);
    if GoesOn(Advance(env, a)) {
      DoneFirst(env, a, m);
      CallsByFirst(env, a, T, m);
    } else {
      NoMoreCalls(env, a, m);
      AfterZero(env, a);
    }
  }

  lemma {:induction false} AgreeBothWays<S>(a: Engine<S>, b: Engine<S>, T: int)
    requires Agree(a, b, T)
    ensures Agree(b, a, T)
  {
  }

  lemma {:induction false} EndShowsLater<S>(env: Env<S>, a: Engine<S>, b: Engine<S>, T: int, k: nat)
    requires GoesOn(Advance(env, a)) && GoesOn(Advance(env, b))
    ensures EndShowsAt(env, a, b, T, k + 1) <==> EndShowsAt(env, Advance(env, a).engine, Advance(env, b).engine, T, k)
  {
    hide Advance, EndShows;
    AfterFirst(env, a, k);
    AfterFirst(env, b, k);
  }

  // From here on neither run calls by T, and the end of neither shows.
  lemma {:induction false} ApartFromHere<S>(env: Env<S>, a: Engine<S>, b: Engine<S>, T: int, m: nat, n: nat)
    requires GoodConfig(env.cfg) && ClockOk(a) && ClockOk(b) && !EndShowsAt(env, a, b, T, 0)
    requires Quiet(env, a, T) && Quiet(env, b, T)
    requires After(env, a, m).Some? && After(env, b, n).Some?
    ensures CallsBy(AllCalls(env, a, m), T) == CallsBy(AllCalls(env, b, n), T)
    ensures forall k: nat :: !EndShowsAt(env, a, b, T, k)
  {
    hide Advance, ClockOk, Quiet, CallsBy, After, AllCalls, Agree, PopFeed, HandsOverAtEnd;
    QuietRun(env, a, T, m);
    QuietRun(env, b, T, n);
    forall k: nat ensures !EndShowsAt(env, a, b, T, k) {
      if k > 0 && After(env, a, k).Some? {
        QuietRun(env, a, T, k);
      }
    }
  }

  lemma {:induction false} BothQuiet<S>(env: Env<S>, a: Engine<S>, b: Engine<S>, T: int)
    requires GoodConfig(env.cfg) && ClockOk(a) && ClockOk(b) && Agree(a, b, T)
    requires !Together(env, a, b, T) && !EndShows(env, a, b, T)
    ensures Quiet(env, a, T) && Quiet(env, b, T)
  {
    SameStep(env, a, b, T);
    hide Advance, ClockOk, PopFeed, AgreeFeed;
    if PopFeed(env.cfg.feedLatency, a.feed).None? {
      Drained(env, a);
    }
    if PopFeed(env.cfg.feedLatency, b.feed).None? {
      Drained(env, b);
    }
  }

  // Two finished runs whose sources agree through T make the same calls by T, exactly unless at some
  // iteration the end of one of them shows.
  lemma {:induction false} SameCallsExactly<S>(env: Env<S>, a: Engine<S>, b: Engine<S>, T: int, m: nat, n: nat)
    requires GoodConfig(env.cfg) && ClockOk(a) && ClockOk(b) && Agree(a, b, T)
    requires IsDone(env, a, m) && IsDone(env, b, n)
    ensures CallsBy(AllCalls(env, a, m), T) == CallsBy(AllCalls(env, b, n), T)
            <==> !exists k: nat :: EndShowsAt(env, a, b, T, k)
    decreases m, 1
  {
    SameStep(env, a, b, T);
    var x, y := PopFeed(env.cfg.feedLatency, a.feed), PopFeed(env.cfg.feedLatency, b.feed);
    assert After(env, a, 0) == Some(a) && After(env, b, 0) == Some(b);
    assert EndShowsAt(env, a, b, T, 0) <==> EndShows(env, a, b, T);
    hide Advance, ClockOk, PopFeed, AgreeFeed, CallsBy, AllCalls, HandsOverAtEnd;
    if EndShows(env, a, b, T) {
      hide After;
      if x.None? {
        EndTells(env, a, b, T, m, n);
      } else {
        AgreeBothWays(a, b, T);
        EndTells(env, b, a, T, n, m);
      }
    } else if Together(env, a, b, T) {
      StepTogether(env, a, b, T, m, n);
    } else {
      BothQuiet(env, a, b, T);
      ApartFromHere(env, a, b, T, m, n);
    }
  }

  lemma {:induction false} SamePrefix(p: seq<Callback>, x: seq<Callback>, y: seq<Callback>)
    ensures p + x == p + y <==> x == y
  {
    assert (p + x)[|p|..] == x && (p + y)[|p|..] == y;
  }

  lemma {:induction false} BothStop<S>(env: Env<S>, a: Engine<S>, b: Engine<S>, T: int)
    requires !GoesOn(Advance(env, a)) && !EndShowsAt(env, a, b, T, 0)
    ensures forall k: nat :: !EndShowsAt(env, a, b, T, k)
  {
    hide Advance, After, EndShows;
    forall k: nat ensures !EndShowsAt(env, a, b, T, k) {
      if k > 0 {
        RunStops(env, a, k);
      }
    }
  }

  lemma {:induction false} EndShowsFirst<S>(env: Env<S>, a: Engine<S>, b: Engine<S>, T: int)
    requires GoesOn(Advance(env, a)) && GoesOn(Advance(env, b)) && !EndShowsAt(env, a, b, T, 0)
    ensures
      var x, y := Advance(env, a).engine, Advance(env, b).engine;
      (exists k: nat :: EndShowsAt(env, a, b, T, k)) <==> (exists k: nat :: EndShowsAt(env, x, y, T, k))
  {
    hide Advance, After, EndShowsAt;
    var x, y := Advance(env, a).engine, Advance(env, b).engine;
    if k: nat :| EndShowsAt(env, a, b, T, k) {
      EndShowsLater(env, a, b, T, k - 1);
      assert EndShowsAt(env, x, y, T, k - 1);
    }
    if k: nat :| EndShowsAt(env, x, y, T, k) {
      EndShowsLater(env, a, b, T, k);
      assert EndShowsAt(env, a, b, T, k + 1);
    }
  }

  lemma {:induction false} StepTogether<S>(env: Env<S>, a: Engine<S>, b: Engine<S>, T: int, m: nat, n: nat)
    requires GoodConfig(env.cfg) && IsDone(env, a, m) && IsDone(env, b, n) && !EndShowsAt(env, a, b, T, 0)
    requires StepsAlike(Advance(env, a), Advance(env, b), T)
    ensures CallsBy(AllCalls(env, a, m), T) == CallsBy(AllCalls(env, b, n), T)
            <==> !exists k: nat :: EndShowsAt(env, a, b, T, k)
    decreases m, 0
  {
    hide Advance, ClockOk, Agree, CallsBy, After, AllCalls, EndShows, EndShowsAt;
    if GoesOn(Advance(env, a)) {
      var x, y := Advance(env, a).engine, Advance(env, b).engine;
      DoneFirst(env, a, m);
      DoneFirst(env, b, n);
      SameCallsExactly(env, x, y, T, m - 1, n - 1);
      EndShowsFirst(env, a, b, T);
      CallsByFirst(env, a, T, m);
      CallsByFirst(env, b, T, n);
      SamePrefix(CallsBy(CallsOf(Advance(env, a)), T), CallsBy(AllCalls(env, x, m - 1), T),
                 CallsBy(AllCalls(env, y, n - 1), T));
    } else {
      BothStop(env, a, b, T);
      NoMoreCalls(env, a, m);
      NoMoreCalls(env, b, n);
    }
  }
}
