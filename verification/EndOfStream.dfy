// Two starts whose sources agree through 10, and whose calls by 10 differ.
module EndOfStream {
  import opened Types
  import opened Stats
  import opened QueueModels
  import opened EventQueues
  import opened Feeds
  import opened EngineSpec
  import opened EngineClock
  import opened Termination
  import opened Batching
  import opened Causality
  import opened CausalRuns

  const PATIENT: Config := Config(0, 0, BatchMode, 0, NoLog, 0, 0, 0, 0, 0, Conservative)

  const NEWS: Tick := Tick(10, 10, 0, 1, 1, 1, Buy)

  const LATER_NEWS: Tick := Tick(100, 100, 1, 1, 1, 1, Buy)

  function PatientEnv(): Env<int> {
    Env(PATIENT, (s, cb) => Reply(s, []), (now, draw) => 0)
  }

  // One delivery at 10, and a source holding the given ticks.
  function PatientStart(source: seq<Tick>): Engine<int> {
    Start(PATIENT, 0, [source], [], {}, [Push(10, EvDelivery(NEWS))])
  }

  function PatientNext(source: seq<Tick>): Engine<int> {
    Engine(PatientStart(source).core.(market := map[1 := NEWS], now := 10, batch := Batch([NEWS], [], None, 1, false)),
           Feed([], 1, [source], []))
  }

  lemma {:induction false} PatientHeads(source: seq<Tick>, q: Queue)
    requires source == [] || source == [LATER_NEWS]
    ensures
      var f := Feed(q, 1, [source], []);
      if source == [] then NextItem(f).Neither? else NextItem(f) == FromTicks(0) && ItemTime(f) == 100
  {
    var heads := TickHeads([source]);
    assert |heads| == 1;
    assert source != [] ==> heads[0].Some?;
    var best := Earliest(heads);
    assert source == [] ==> best.None?;
  }

  lemma {:induction false} PatientQueue(source: seq<Tick>)
    ensures PatientStart(source).feed == Feed([Event(10, 0, EvDelivery(NEWS))], 1, [source], [])
  {
    PushOne([], 0, Push(10, EvDelivery(NEWS)));
  }

  lemma {:induction false} PatientStep(source: seq<Tick>)
    requires source == [] || source == [LATER_NEWS]
    ensures
      var o := Advance(PatientEnv(), PatientStart(source));
      o.Stepped? && o.engine == PatientNext(source) && o.calls == []
  {
    var e := PatientStart(source);
    PatientQueue(source);
    PatientHeads(source, e.feed.queue);
    assert PushAll([], 1, []) == [];
    hide Insert, NextItem, PushAll;
    assert Ingest(0, e.feed) == e.feed;
  }

  lemma {:induction false} PatientClock(source: seq<Tick>)
    requires source == [] || source == [LATER_NEWS]
    ensures ClockOk(PatientStart(source)) && ClockOk(PatientNext(source))
  {
    PatientStep(source);
    StartClock(PATIENT, 0, [source], [], {}, [Push(10, EvDelivery(NEWS))]);
    hide ClockOk, Advance, PatientNext;
    AdvanceClock(PatientEnv(), PatientStart(source));
  }

  lemma {:induction false} PatientPop(source: seq<Tick>)
    requires source == [] || source == [LATER_NEWS]
    ensures PopFeed(0, PatientNext(source).feed).None? <==> source == []
  {
    var f := PatientNext(source).feed;
    PatientHeads(source, []);
    hide NextItem, PushAll;
    if PopFeed(0, f).None? {
      NothingToIngest(0, f);
      if CanIngest(f) {
        IngestOneRemaining(0, f);
      }
    }
  }

  lemma {:induction false} PatientFlush()
    ensures Advance(PatientEnv(), PatientNext([])).Flushed?
    ensures CallsOf(Advance(PatientEnv(), PatientNext([]))) == [Callback(10, map[1 := NEWS], OnTicks([NEWS]))]
  {
    var e := PatientNext([]);
    PatientPop([]);
    hide PopFeed, Commands, Ingest;
    var h := HandOver(PatientEnv(), 0, e.core.market, e.core.batch, 10);
    assert h.Handover? && h.calls == [Callback(10, e.core.market, OnTicks([NEWS]))] + [];
    assert h.commands == [];
  }

  lemma {:induction false} PatientAgree()
    ensures Agree(PatientStart([]), PatientStart([LATER_NEWS]), 10)
    ensures Agree(PatientNext([]), PatientNext([LATER_NEWS]), 10)
  {
    hide PushAll;
  }

  lemma {:induction false} PatientEnd()
    ensures EndShows(PatientEnv(), PatientNext([]), PatientNext([LATER_NEWS]), 10)
    ensures NextBeyond(PatientEnv(), PatientNext([LATER_NEWS]), 10)
  {
    PatientAgree();
    PatientPop([]);
    PatientPop([LATER_NEWS]);
    PatientClock([]);
    PatientClock([LATER_NEWS]);
    hide ClockOk, PopFeed, AgreeFeed;
    SameStep(PatientEnv(), PatientNext([]), PatientNext([LATER_NEWS]), 10);
  }

  lemma {:induction false} PatientCalls()
    ensures CallsBy(AllCalls(PatientEnv(), PatientStart([]), 2), 10)
            == [Callback(10, map[1 := NEWS], OnTicks([NEWS]))]
  {
    var env, a := PatientEnv(), PatientStart([]);
    var call := Callback(10, map[1 := NEWS], OnTicks([NEWS]));
    PatientStep([]);
    PatientFlush();
    hide Advance, PatientStart, PatientNext;
    assert After(env, a, 0) == Some(a) && AllCalls(env, a, 0) == [];
    assert After(env, a, 1) == Some(PatientNext([])) && AllCalls(env, a, 1) == [] + [];
    assert AllCalls(env, a, 2) == [] + [call];
    assert [call][1..] == [];
  }

  lemma {:induction false} SilentSoFar<S>(env: Env<S>, e: Engine<S>, next: Engine<S>, T: int, n: nat)
    requires GoodConfig(env.cfg) && ClockOk(next) && NextBeyond(env, next, T) && After(env, e, n).Some?
    requires GoesOn(Advance(env, e)) && Advance(env, e).engine == next && CallsOf(Advance(env, e)) == []
    ensures CallsBy(AllCalls(env, e, n), T) == []
  {
    hide Advance, ClockOk, NextBeyond, After;
    if n == 0 {
      NoneBy([], T);
    } else {
      RunFirst(env, e, n - 1);
      QuietFromHere(env, next, T, n - 1);
      assert [] + AllCalls(env, next, n - 1) == AllCalls(env, next, n - 1);
    }
  }

  lemma {:induction false} PatientSilence(n: nat)
    requires After(PatientEnv(), PatientStart([LATER_NEWS]), n).Some?
    ensures CallsBy(AllCalls(PatientEnv(), PatientStart([LATER_NEWS]), n), 10) == []
  {
    PatientStep([LATER_NEWS]);
    PatientEnd();
    PatientClock([LATER_NEWS]);
    hide Advance, ClockOk, NextBeyond, PatientStart, PatientNext, After, AllCalls, CallsBy;
    SilentSoFar(PatientEnv(), PatientStart([LATER_NEWS]), PatientNext([LATER_NEWS]), 10, n);
  }

  // The run whose source is empty is told of the tick at 10; the run whose source still holds a trade at
  // 100 is told nothing by 10, however far it goes.
  lemma {:induction false} TheEndCanShow()
    ensures Agree(PatientStart([]), PatientStart([LATER_NEWS]), 10)
    ensures EndShowsAt(PatientEnv(), PatientStart([]), PatientStart([LATER_NEWS]), 10, 1)
    ensures CallsBy(AllCalls(PatientEnv(), PatientStart([]), 2), 10)
            == [Callback(10, map[1 := NEWS], OnTicks([NEWS]))]
    ensures forall n: nat :: After(PatientEnv(), PatientStart([LATER_NEWS]), n).Some? ==>
              CallsBy(AllCalls(PatientEnv(), PatientStart([LATER_NEWS]), n), 10) == []
  {
    var env, a, b := PatientEnv(), PatientStart([]), PatientStart([LATER_NEWS]);
    PatientStep([]);
    PatientStep([LATER_NEWS]);
    PatientAgree();
    PatientEnd();
    PatientCalls();
    hide Advance, Agree, EndShows, PatientStart, PatientNext, PatientEnv, AllCalls, CallsBy;
    assert After(env, a, 0) == Some(a) && After(env, b, 0) == Some(b);
    forall n: nat | After(env, b, n).Some? ensures CallsBy(AllCalls(env, b, n), 10) == [] {
      PatientSilence(n);
    }
  }
}
