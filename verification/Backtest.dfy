// A backtest from beginning to end: set the engine up, run it, and what holds when it is done.
module Backtests {
  import opened Types
  import opened Ledgers
  import opened Exchanges
  import opened EventQueues
  import opened Feeds
  import opened EngineSpec
  import opened EngineClock
  import opened Lifecycle
  import opened LifecycleRun
  import opened EngineMoney
  import opened EngineInvariant
  import opened EngineGuarantees
  import opened Batching
  import opened BatchDeadline
  import opened ReportStreams
  import opened QueueViews
  import opened Stats
  import opened OrderFees
  import opened PlacedOrders
  import opened PnlHistory
  import opened BookKeepers
  import opened ExchangeBoards
  import opened Termination
  import opened Engines

  // A tracked order that rests in the exchange it is routed to.
  ghost predicate Resting(xs: map<int, Exchange>, routes: map<int, int>, id: int)
    requires id in routes
  {
    var live := LiveIn(xs, routes[id], id);
    live.Some? && (live.value.state == Open || live.value.state == PartiallyFilled)
  }

  // The symbols of the per-order sources, each with its updates.
  datatype L3Source = L3Source(symbol: int, updates: seq<L3Update>)

  function UpdatesOf(sources: seq<L3Source>): seq<seq<L3Update>> {
    seq(|sources|, i requires 0 <= i < |sources| => sources[i].updates)
  }

  function SymbolsOf(sources: seq<L3Source>): set<int> {
    set i | 0 <= i < |sources| :: sources[i].symbol
  }

  lemma {:induction false} SymbolsGrow(sources: seq<L3Source>, i: nat)
    requires i < |sources|
    ensures SymbolsOf(sources[..i + 1]) == SymbolsOf(sources[..i]) + {sources[i].symbol}
  {
    var longer, shorter := sources[..i + 1], sources[..i];
    assert longer == shorter + [sources[i]];
    forall s ensures s in SymbolsOf(longer) <==> s in SymbolsOf(shorter) + {sources[i].symbol} {
      if s == sources[i].symbol {
        assert longer[i].symbol == s;
      }
      if k :| 0 <= k < |shorter| && shorter[k].symbol == s {
        assert longer[k].symbol == s;
      }
      if k :| 0 <= k < |longer| && longer[k].symbol == s {
        assert k < i ==> shorter[k].symbol == s;
      }
    }
  }

  method Attach<S(!new)>(engine: BacktestEngine<S>, sources: seq<seq<Tick>>, l3Sources: seq<L3Source>)
    requires engine.sources == [] && engine.l3Sources == [] && engine.l3Symbols == {}
    modifies engine`sources, engine`l3Sources, engine`l3Symbols
    ensures engine.sources == sources && engine.l3Sources == UpdatesOf(l3Sources)
            && engine.l3Symbols == SymbolsOf(l3Sources)
  {
    for i := 0 to |sources|
      invariant engine.sources == sources[..i] && engine.l3Sources == [] && engine.l3Symbols == {}
    {
      engine.AddTickSource(sources[i]);
    }
    assert sources[..|sources|] == sources;
    assert l3Sources[..0] == [] && UpdatesOf([]) == [] && SymbolsOf([]) == {};
    for i := 0 to |l3Sources|
      invariant engine.sources == sources
      invariant engine.l3Sources == UpdatesOf(l3Sources[..i]) && engine.l3Symbols == SymbolsOf(l3Sources[..i])
    {
      SymbolsGrow(l3Sources, i);
      assert UpdatesOf(l3Sources[..i + 1]) == UpdatesOf(l3Sources[..i]) + [l3Sources[i].updates];
      engine.AddL3Source(l3Sources[i].symbol, l3Sources[i].updates);
    }
    assert l3Sources[..|l3Sources|] == l3Sources;
  }

  method Announce<S(!new)>(engine: BacktestEngine<S>, external: seq<Push>)
    modifies engine`nextSeq, engine.queue
    ensures engine.FeedState() == Schedule(old(engine.FeedState()), external)
  {
    hide Schedule;
    ScheduleNone(engine.FeedState());
    for i := 0 to |external|
      invariant engine.FeedState() == Schedule(old(engine.FeedState()), external[..i])
    {
      ScheduleTwice(old(engine.FeedState()), external[..i], [external[i]]);
      assert external[..i + 1] == external[..i] + [external[i]];
      assert [Push(external[i].ts, external[i].kind)] == [external[i]];
      engine.PushEvent(external[i].ts, external[i].kind);
    }
    assert external[..|external|] == external;
  }

  // The fills logged for a placed order are what was told of it, at its own terms; no other id has any.
  ghost predicate BookedAsTold<S>(env: Env<S>, start: Engine<S>, n: nat, l: Ledger, id: int) {
    var (placed, fs) := (Placed(env, start, n), Mine(l.log.fills, id));
    if id in placed then Matches(env.cfg.makerBps, placed[id], fs, Of(ReportsDelivered(env, start, n), id))
    else fs == []
  }

  // With every fill kept, the log accounts for all that the run has placed, filled and paid.
  ghost predicate LogAccounts<S>(env: Env<S>, start: Engine<S>, n: nat, l: Ledger) {
    HistoryOk(l, Payments(env, start, n)) && forall id :: BookedAsTold(env, start, n, l, id)
  }

  lemma {:induction false} StillNonEmpty(a: Queue, b: Queue)
    requires a != [] && forall x :: x in a ==> x in b
    ensures b != []
  {
    assert a[0] in b;
  }

  // A run is done only when nothing was queued.
  lemma {:induction false} DrainedQueue<S>(env: Env<S>, e: Engine<S>)
    requires Advance(env, e).Done?
    ensures e.feed.queue == []
  {
    hide Process, Flush, Ingest;
    var f := PopFeed(env.cfg.feedLatency, e.feed);
    if f.Some? {
      ProcessSteps(env, e.core, f.value.1, f.value.0);
    }
    IngestKeepsMembers(env.cfg.feedLatency, e.feed);
    if e.feed.queue != [] {
      StillNonEmpty(e.feed.queue, Ingest(env.cfg.feedLatency, e.feed).queue);
    }
  }

  lemma {:induction false} FinishedRunAccounts<S(!new)>(env: Env<S>, start: Engine<S>, n: nat, last: Engine<S>)
    requires Reaches(env, start, n) && EndsAfter(env, start, n, true, last)
    requires Unused(start) && HistoryOk(start.core.ledger, [])
    ensures LogAccounts(env, start, n, last.core.ledger)
  {
    var e := After(env, start, n).value;
    DoneIsEmpty(env, e);
    DrainedQueue(env, e);
    HistoryIsRecomputed(env, start, n);
    hide After, Advance, Sound, GoodStrategy, Placed, Matches, Mine, Payments, ReportsDelivered, Of, Ingest, PopFeed;
    forall id ensures BookedAsTold(env, start, n, last.core.ledger, id) {
      EveryPlacedOrderIsBooked(env, start, n, id);
      assert ReportsFor([], id) == [];
      assert Story(ReportsDelivered(env, start, n), [], id) == Of(ReportsDelivered(env, start, n), id);
    }
  }

  // What a successful run leaves behind.
  lemma {:induction false} SuccessLeaves<S(!new)>(env: Env<S>, start: Engine<S>, n: nat, last: Engine<S>)
    requires GoodConfig(env.cfg) && GoodStrategy(env) && Sound(env.cfg, [], start)
    requires start.core.batch.ticks == [] && start.core.batch.reports == [] && EndsAfter(env, start, n, true, last)
    ensures last.feed.queue == [] && Remaining(last.feed) == 0 && MoneyOk(last.core.ledger)
    ensures forall id :: id in last.core.routes ==> Resting(last.core.exchanges, last.core.routes, id)
    ensures TicksShown(AllCalls(env, start, n)) == TicksDelivered(env, start, n)
  {
    DrainedRunsLeaveRestingOrders(env, start, n, 0);
    forall id | id in last.core.routes ensures Resting(last.core.exchanges, last.core.routes, id) {
      DrainedRunsLeaveRestingOrders(env, start, n, id);
    }
    DoneIsEmpty(env, After(env, start, n).value);
    LedgersStayInStep(env, start, n);
    NothingStaysBuffered(env, start, n);
    hide Advance, After, AllCalls, TicksShown, Sound, BooksAgree, OneTotal, Ingest;
  }

  lemma {:induction false} Started<S(!new)>(env: Env<S>, start: Engine<S>, n: nat, ok: bool, last: Engine<S>)
    requires GoodConfig(env.cfg) && GoodStrategy(env) && Sound(env.cfg, [], start)
    requires EndsAfter(env, start, n, ok, last)
    ensures Reaches(env, start, n)
  {
    hide After, Advance, Sound, GoodStrategy;
  }

  method Prepare<S(!new)>(env: Env<S>, s: S, sources: seq<seq<Tick>>, l3Sources: seq<L3Source>, external: seq<Push>)
    returns (engine: BacktestEngine<S>)
    ensures fresh(engine) && engine.Valid() && fresh(engine.Repr()) && engine.env == env && engine.shown == []
    ensures engine.State() == Start(env.cfg, s, sources, UpdatesOf(l3Sources), SymbolsOf(l3Sources), external)
  {
    hide UpdatesOf, SymbolsOf, PushAll, BookKeeper.Valid, ExchangeBoard.Valid;
    engine := new BacktestEngine(env, s);
    Attach(engine, sources, l3Sources);
    Announce(engine, external);
  }

  // A whole backtest. If it succeeds nothing is left to do, every order still tracked rests in its
  // exchange, the ledgers are in step, the strategy was shown every tick delivered, in order, and with
  // every fill kept the log accounts for the whole run.
  method Backtest<S(!new)>(
    env: Env<S>, s: S, sources: seq<seq<Tick>>, l3Sources: seq<L3Source>, external: seq<Push>)
    returns (engine: BacktestEngine<S>, ok: bool, ghost n: nat)
    requires GoodConfig(env.cfg) && GoodStrategy(env)
    requires RunEnds(env, Start(env.cfg, s, sources, UpdatesOf(l3Sources), SymbolsOf(l3Sources), external))
    requires SourcesOk(Feed([], 0, sources, UpdatesOf(l3Sources)), 0)
    requires forall p :: p in external ==> External(p) && p.ts >= 0
    ensures
      var start := Start(env.cfg, s, sources, UpdatesOf(l3Sources), SymbolsOf(l3Sources), external);
      EndsAfter(env, start, n, ok, engine.State()) && (ok ==> TicksShown(engine.shown) == TicksDelivered(env, start, n))
    ensures ok ==>
              && engine.queue.heap == [] && MoneyOk(engine.books.view)
              && forall id :: id in engine.routes ==> Resting(engine.board.view, engine.routes, id)
    ensures
      var start := Start(env.cfg, s, sources, UpdatesOf(l3Sources), SymbolsOf(l3Sources), external);
      ok && env.cfg.logMode == All ==> LogAccounts(env, start, n, engine.books.view)
  {
    engine := Prepare(env, s, sources, l3Sources, external);
    ghost var start := engine.State();
    StartSound(env.cfg, s, sources, UpdatesOf(l3Sources), SymbolsOf(l3Sources), external);
    StartIsUnused(env.cfg, s, sources, UpdatesOf(l3Sources), SymbolsOf(l3Sources), external);
    if env.cfg.logMode == All {
      StartHistory(env.cfg, s, sources, UpdatesOf(l3Sources), SymbolsOf(l3Sources), external);
    }
    assert start.core.batch.ticks == [] && start.core.batch.reports == [];
    hide Start, Sound, GoodStrategy, RunEnds, SourcesOk, EndsAfter, AllCalls, TicksShown, Resting, UpdatesOf, SymbolsOf,
      TicksDelivered, MoneyOk, External, LogAccounts, Unused, HistoryOk, BacktestEngine.Valid;
    ok, n := engine.Run();
    if ok {
      assert engine.shown == AllCalls(env, start, n);
      SuccessLeaves(env, start, n, engine.State());
      if env.cfg.logMode == All {
        Started(env, start, n, ok, engine.State());
        FinishedRunAccounts(env, start, n, engine.State());
      }
    }
  }
}
