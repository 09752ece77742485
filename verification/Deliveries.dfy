// What a finished run has handled of its sources, counted: every tick once when it happened and once when
// it became known, every order message once, and every external event once, each at its own time.
module Deliveries {
  import opened Types
  import opened EventQueues
  import opened Feeds
  import opened EngineSpec
  import opened EngineClock
  import opened EngineInvariant
  import opened EagerRuns

  // ---- What the sources stand for ------------------------------------------------------------------------

  // A tick happens at its exchange time. It becomes known at its local time if it carries one, and
  // otherwise one feed latency after it happened; it is then delivered under that time.
  function EventsOfTick(latency: int, t: Tick): multiset<Push> {
    var known := if t.tsLocal != 0 then t.tsLocal else t.tsExchange + latency;
    multiset{Push(t.tsExchange, EvTick(t)), Push(known, EvDelivery(t.(tsLocal := known)))}
  }

  function EventsOfTicks(latency: int, ticks: seq<Tick>): multiset<Push> {
    if ticks == [] then multiset{} else EventsOfTick(latency, ticks[0]) + EventsOfTicks(latency, ticks[1..])
  }

  function EventsOfUpdates(us: seq<L3Update>): multiset<Push> {
    if us == [] then multiset{} else multiset{Push(us[0].tsExchange, EvL3(us[0]))} + EventsOfUpdates(us[1..])
  }

  function TickSourceEvents(latency: int, sources: seq<seq<Tick>>): multiset<Push> {
    if sources == [] then multiset{}
    else TickSourceEvents(latency, sources[..|sources| - 1]) + EventsOfTicks(latency, sources[|sources| - 1])
  }

  function L3SourceEvents(sources: seq<seq<L3Update>>): multiset<Push> {
    if sources == [] then multiset{}
    else L3SourceEvents(sources[..|sources| - 1]) + EventsOfUpdates(sources[|sources| - 1])
  }

  lemma {:induction false} TakeTick(latency: int, sources: seq<seq<Tick>>, j: nat)
    requires j < |sources| && sources[j] != []
    ensures TickSourceEvents(latency, sources)
            == EventsOfTick(latency, sources[j][0]) + TickSourceEvents(latency, Take(sources, j))
  {
    hide EventsOfTick;
    var n := |sources| - 1;
    if j < n {
      TakeTick(latency, sources[..n], j);
      assert Take(sources, j)[..n] == Take(sources[..n], j);
    } else {
      assert Take(sources, j)[..n] == sources[..n];
    }
  }

  lemma {:induction false} TakeUpdate(sources: seq<seq<L3Update>>, i: nat)
    requires i < |sources| && sources[i] != []
    ensures L3SourceEvents(sources)
            == multiset{Push(sources[i][0].tsExchange, EvL3(sources[i][0]))} + L3SourceEvents(Take(sources, i))
  {
    var n := |sources| - 1;
    if i < n {
      TakeUpdate(sources[..n], i);
      assert Take(sources, i)[..n] == Take(sources[..n], i);
    } else {
      assert Take(sources, i)[..n] == sources[..n];
    }
  }

  lemma {:induction false} PushesOfTick(latency: int, t: Tick)
    ensures multiset(TickPushes(latency, t)) == EventsOfTick(latency, t)
  {
  }

  lemma {:induction false} NoTicks(latency: int, sources: seq<seq<Tick>>)
    requires forall i :: 0 <= i < |sources| ==> sources[i] == []
    ensures TickSourceEvents(latency, sources) == multiset{}
  {
    if sources != [] {
      NoTicks(latency, sources[..|sources| - 1]);
    }
  }

  lemma {:induction false} NoUpdates(sources: seq<seq<L3Update>>)
    requires forall i :: 0 <= i < |sources| ==> sources[i] == []
    ensures L3SourceEvents(sources) == multiset{}
  {
    if sources != [] {
      NoUpdates(sources[..|sources| - 1]);
    }
  }

  lemma {:induction false} AllEmpty(f: Feed)
    requires NextItem(f).Neither?
    ensures forall i :: 0 <= i < |f.sources| ==> f.sources[i] == []
    ensures forall i :: 0 <= i < |f.l3Sources| ==> f.l3Sources[i] == []
  {
    var l3h, th := L3Heads(f.l3Sources), TickHeads(f.sources);
    forall i | 0 <= i < |f.sources| ensures f.sources[i] == [] {
      assert th[i].None?;
    }
    forall i | 0 <= i < |f.l3Sources| ensures f.l3Sources[i] == [] {
      assert l3h[i].None?;
    }
  }

  lemma {:induction false} ItemEvents(latency: int, f: Feed)
    requires !NextItem(f).Neither?
    ensures
      TickSourceEvents(latency, f.sources) + L3SourceEvents(f.l3Sources)
      == multiset(ItemPushes(latency, f))
         + (TickSourceEvents(latency, DropItem(f).sources) + L3SourceEvents(DropItem(f).l3Sources))
  {
    hide TickSourceEvents, L3SourceEvents, EventsOfTick, Take, TickPushes;
    match NextItem(f) {
      case FromL3(i) => TakeUpdate(f.l3Sources, i);
      case FromTicks(j) =>
        TakeTick(latency, f.sources, j);
        PushesOfTick(latency, f.sources[j][0]);
    }
  }

  // Merging the sources neither loses nor repeats anything.
  lemma {:induction false} MergeKeepsAll(latency: int, f: Feed)
    ensures multiset(AllPushes(latency, f)) == TickSourceEvents(latency, f.sources) + L3SourceEvents(f.l3Sources)
    decreases Remaining(f)
  {
    if NextItem(f).Neither? {
      AllEmpty(f);
      NoTicks(latency, f.sources);
      NoUpdates(f.l3Sources);
    } else {
      hide ItemPushes, NextItem, TickSourceEvents, L3SourceEvents;
      DropShrinks(f);
      MergeKeepsAll(latency, DropItem(f));
      ItemEvents(latency, f);
    }
  }

  // ---- What a run handles --------------------------------------------------------------------------------

  lemma {:induction false} PutAfterAdds(s: seq<Push>, p: Push)
    ensures multiset(PutAfter(s, p)) == multiset(s) + multiset{p}
  {
    if s != [] && p.ts >= s[0].ts {
      PutAfterAdds(s[1..], p);
      assert s == [s[0]] + s[1..];
    }
  }

  lemma {:induction false} PutAllAdds(s: seq<Push>, ps: seq<Push>)
    requires forall p :: p in ps ==> Outside(p.kind)
    ensures multiset(PutAll(s, ps)) == multiset(s) + multiset(ps)
    decreases ps
  {
    hide PutAfter;
    if ps != [] {
      assert ps[0] in ps && ps == [ps[0]] + ps[1..];
      PutAfterAdds(s, ps[0]);
      PutAllAdds(PutAfter(s, ps[0]), ps[1..]);
    }
  }

  lemma {:induction false} MergedOutside(latency: int, f: Feed)
    ensures forall p :: p in AllPushes(latency, f) ==> Outside(p.kind)
    decreases Remaining(f)
  {
    if !NextItem(f).Neither? {
      DropShrinks(f);
      MergedOutside(latency, DropItem(f));
    }
  }

  lemma {:induction false} StartPushes<S>(
    cfg: Config, s: S, sources: seq<seq<Tick>>, l3Sources: seq<seq<L3Update>>, l3Symbols: set<int>, external: seq<Push>)
    ensures
      var f := Start(cfg, s, sources, l3Sources, l3Symbols, external).feed;
      f.sources == sources && f.l3Sources == l3Sources
  {
  }

  // A finished run has handled the external events and the events of its sources, each exactly as often as
  // it occurs, at its own time, and nothing else from outside.
  lemma {:induction false} FinishedRunsDeliverEverything<S>(
    env: Env<S>, s: S, sources: seq<seq<Tick>>, l3Sources: seq<seq<L3Update>>, l3Symbols: set<int>,
    external: seq<Push>, n: nat)
    requires GoodConfig(env.cfg) && SourcesOk(Feed([], 0, sources, l3Sources), 0)
    requires forall p :: p in external ==> External(p) && p.ts >= 0
    requires
      var e := Start(env.cfg, s, sources, l3Sources, l3Symbols, external);
      After(env, e, n).Some? && Advance(env, After(env, e, n).value).Done?
    ensures
      var e := Start(env.cfg, s, sources, l3Sources, l3Symbols, external);
      multiset(MarketHandled(env, e, n))
      == multiset(external) + TickSourceEvents(env.cfg.feedLatency, sources) + L3SourceEvents(l3Sources)
  {
    var e := Start(env.cfg, s, sources, l3Sources, l3Symbols, external);
    StartPushes(env.cfg, s, sources, l3Sources, l3Symbols, external);
    StartClock(env.cfg, s, sources, l3Sources, l3Symbols, external);
    hide Start, Advance, After, MarketHandled, SourcesOk, ClockOk, ToCome, PutAll, AllPushes, TickSourceEvents,
      L3SourceEvents;
    FinishedRunsHandleEverything(env, e, n);
    StartHoldsEverything(env.cfg, s, sources, l3Sources, l3Symbols, external);
    var later := AllPushes(env.cfg.feedLatency, e.feed);
    MergedOutside(env.cfg.feedLatency, e.feed);
    forall p | p in external + later ensures Outside(p.kind) {
      assert p in external || p in later;
    }
    PutAllAdds([], external + later);
    MergeKeepsAll(env.cfg.feedLatency, e.feed);
  }

  // ---- One tick --------------------------------------------------------------------------------------------

  lemma {:induction false} TickAmong(latency: int, ticks: seq<Tick>, k: nat, p: Push)
    requires k < |ticks| && p in EventsOfTick(latency, ticks[k])
    ensures p in EventsOfTicks(latency, ticks)
  {
    hide EventsOfTick;
    if k > 0 {
      TickAmong(latency, ticks[1..], k - 1, p);
    }
  }

  lemma {:induction false} TickInSource(latency: int, sources: seq<seq<Tick>>, i: nat, k: nat, p: Push)
    requires i < |sources| && k < |sources[i]| && p in EventsOfTick(latency, sources[i][k])
    ensures p in TickSourceEvents(latency, sources)
  {
    hide EventsOfTick, EventsOfTicks;
    var n := |sources| - 1;
    if i < n {
      TickInSource(latency, sources[..n], i, k, p);
    } else {
      TickAmong(latency, sources[n], k, p);
    }
  }

  // The m-th iteration handles this event at this time.
  ghost predicate HandledBy<S>(env: Env<S>, e: Engine<S>, m: nat, ts: int, kind: EventKind) {
    match After(env, e, m)
    case None => false
    case Some(last) =>
      match Advance(env, last)
      case Stepped(_, event, _) => event.ts == ts && event.kind == kind
      case _ => false
  }

  // Some iteration among the first n handles this event at this time.
  ghost predicate Handled<S>(env: Env<S>, e: Engine<S>, n: nat, ts: int, kind: EventKind) {
    exists m: nat :: m < n && HandledBy(env, e, m, ts, kind)
  }

  lemma {:induction false} HandledSomewhere<S>(env: Env<S>, e: Engine<S>, n: nat, p: Push)
    requires p in MarketHandled(env, e, n)
    ensures Handled(env, e, n, p.ts, p.kind)
    decreases n
  {
    hide Advance;
    if p in MarketHandled(env, e, n - 1) {
      HandledSomewhere(env, e, n - 1, p);
    } else {
      assert HandledBy(env, e, n - 1, p.ts, p.kind);
    }
  }

  lemma {:induction false} OneOfMany(a: multiset<Push>, b: multiset<Push>, c: multiset<Push>, all: seq<Push>, p: Push)
    requires multiset(all) == a + b + c && p in b
    ensures p in all
  {
    assert p in multiset(all);
  }

  lemma {:induction false} TickMoments(latency: int, t: Tick, known: int)
    requires known == if t.tsLocal != 0 then t.tsLocal else t.tsExchange + latency
    ensures Push(t.tsExchange, EvTick(t)) in EventsOfTick(latency, t)
    ensures Push(known, EvDelivery(t.(tsLocal := known))) in EventsOfTick(latency, t)
  {
  }

  // The tick is handled when it happened and when it became known.
  ghost predicate Arrives<S>(env: Env<S>, e: Engine<S>, n: nat, t: Tick) {
    var known := if t.tsLocal != 0 then t.tsLocal else t.tsExchange + env.cfg.feedLatency;
    && Handled(env, e, n, t.tsExchange, EvTick(t))
    && Handled(env, e, n, known, EvDelivery(t.(tsLocal := known)))
  }

  lemma {:induction false} TickArrives<S>(
    env: Env<S>, e: Engine<S>, n: nat, a: multiset<Push>, sources: seq<seq<Tick>>, c: multiset<Push>, i: nat, k: nat)
    requires multiset(MarketHandled(env, e, n)) == a + TickSourceEvents(env.cfg.feedLatency, sources) + c
    requires i < |sources| && k < |sources[i]|
    ensures Arrives(env, e, n, sources[i][k])
  {
    hide MarketHandled, TickSourceEvents, EventsOfTick, Handled;
    var t, latency := sources[i][k], env.cfg.feedLatency;
    var known := if t.tsLocal != 0 then t.tsLocal else t.tsExchange + latency;
    var truth, delivery := Push(t.tsExchange, EvTick(t)), Push(known, EvDelivery(t.(tsLocal := known)));
    TickMoments(latency, t, known);
    TickInSource(latency, sources, i, k, truth);
    TickInSource(latency, sources, i, k, delivery);
    var ticks, all := TickSourceEvents(latency, sources), MarketHandled(env, e, n);
    OneOfMany(a, ticks, c, all, truth);
    OneOfMany(a, ticks, c, all, delivery);
    HandledSomewhere(env, e, n, truth);
    HandledSomewhere(env, e, n, delivery);
  }

  // So every tick of every source is traded against the resting orders at its exchange time, and delivered
  // at its local time, or one feed latency later than it happened if it has none.
  lemma {:induction false} EveryTickArrives<S>(
    env: Env<S>, s: S, sources: seq<seq<Tick>>, l3Sources: seq<seq<L3Update>>, l3Symbols: set<int>,
    external: seq<Push>, n: nat, i: nat, k: nat)
    requires GoodConfig(env.cfg) && SourcesOk(Feed([], 0, sources, l3Sources), 0)
    requires forall p :: p in external ==> External(p) && p.ts >= 0
    requires
      var e := Start(env.cfg, s, sources, l3Sources, l3Symbols, external);
      After(env, e, n).Some? && Advance(env, After(env, e, n).value).Done?
    requires i < |sources| && k < |sources[i]|
    ensures Arrives(env, Start(env.cfg, s, sources, l3Sources, l3Symbols, external), n, sources[i][k])
  {
    hide Start, Advance, After, MarketHandled, SourcesOk, TickSourceEvents, L3SourceEvents, Arrives, External;
    FinishedRunsDeliverEverything(env, s, sources, l3Sources, l3Symbols, external, n);
    TickArrives(env, Start(env.cfg, s, sources, l3Sources, l3Symbols, external), n, multiset(external), sources,
                L3SourceEvents(l3Sources), i, k);
  }

  // Even without any latency a tick is traded before it is delivered.
  lemma {:induction false} TickIsTradedFirst(latency: int, f: Feed, now: int)
    requires SourcesOk(f, now) && CanIngest(f) && NextItem(f).FromTicks? && latency >= 0
    ensures
      var t := f.sources[NextItem(f).j][0];
      exists x, y ::
        && x in IngestOne(latency, f).queue && y in IngestOne(latency, f).queue && Before(x, y)
        && x.kind == EvTick(t) && y.kind.EvDelivery? && y.kind.tick == t.(tsLocal := y.ts)
        && f.nextSeq <= x.seqNo < y.seqNo < IngestOne(latency, f).nextSeq
  {
    hide PushAll;
    var t := f.sources[NextItem(f).j][0];
    var ps := ItemPushes(latency, f);
    var x, y := Event(ps[0].ts, f.nextSeq + 0, ps[0].kind), Event(ps[1].ts, f.nextSeq + 1, ps[1].kind);
    PushAllMembers(f.queue, f.nextSeq, ps, x);
    PushAllMembers(f.queue, f.nextSeq, ps, y);
    assert Before(x, y);
  }
}
