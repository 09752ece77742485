// What the trade log holds of a whole run: all its fills, or the last ones that fit the ring.
module FillLogs {
  import opened Types
  import opened Accounts
  import opened Stats
  import opened RiskGuards
  import opened Ledgers
  import opened EventQueues
  import opened Feeds
  import opened EngineSpec
  import opened EngineClock
  import opened EngineMoney

  // The log holds what its mode promises of these fills.
  ghost predicate LogHolds(l: LogState, fills: seq<TradeFill>) {
    match l.mode
    case All => l.fills == fills
    case RingBuffer(cap) => l.ring == LastFills(fills, Capacity(cap))
    case SummaryOnly => l.fills == [] && l.ring == []
    case NoLog => l.fills == [] && l.ring == []
  }

  // ---- Ledger steps ----------------------------------------------------------------------------------

  lemma {:induction false} FillHeld(l: LogState, fills: seq<TradeFill>, f: TradeFill)
    requires LogHolds(l, fills)
    ensures LogHolds(LogFill(l, f), fills + [f])
  {
    hide SummaryFill;
    if l.mode.RingBuffer? {
      RingHoldsLast(fills, l.mode.cap, f);
    }
    hide RingPush, LastFills;
  }

  lemma {:induction false} FillsHeld(l: LogState, fills: seq<TradeFill>, jobs: seq<FillJob>)
    requires LogHolds(l, fills)
    ensures LogHolds(LogFills(l, jobs), fills + FillsOf(jobs))
  {
    hide LogFill, LogHolds;
    if jobs == [] {
      assert fills + FillsOf(jobs) == fills;
    } else {
      var init, f := jobs[..|jobs| - 1], jobs[|jobs| - 1].fill;
      FillsHeld(l, fills, init);
      FillHeld(LogFills(l, init), fills + FillsOf(init), f);
      assert fills + FillsOf(init) + [f] == fills + FillsOf(jobs);
    }
  }

  lemma {:induction false} RecordHeld(l: Ledger, fills: seq<TradeFill>, jobs: seq<FillJob>)
    requires LogHolds(l.log, fills)
    ensures LogHolds(Record(l, jobs).log, fills + FillsOf(jobs))
  {
    hide LogFills, SettleAll, FillsOf, LastFills;
    FillsHeld(l.log, fills, jobs);
    SettleFrame(l.(log := LogFills(l.log, jobs)), jobs);
  }

  lemma {:induction false} FundHeld(l: Ledger, fills: seq<TradeFill>, event: FundingEvent, mark: int)
    requires LogHolds(l.log, fills)
    ensures LogHolds(Fund(l, event, mark).log, fills)
  {
    hide SummaryPnl, FundingPnl, UpdatePnl, LastFills;
  }

  // ---- Whole runs ------------------------------------------------------------------------------------

  function BookedBy<S>(env: Env<S>, c: Core<S>, event: Event): seq<TradeFill> {
    FillsOf(EventJobs(env, c.(now := event.ts), event.kind))
  }

  // Every fill booked in the first n iterations, in order.
  function FillsBooked<S>(env: Env<S>, e: Engine<S>, n: nat): seq<TradeFill> {
    if n == 0 then []
    else
      match After(env, e, n - 1)
      case None => []
      case Some(last) =>
        FillsBooked(env, e, n - 1)
        + match Advance(env, last)
          case Stepped(_, event, _) => BookedBy(env, last.core, event)
          case _ => []
  }

  lemma {:induction false} EventHeld<S>(env: Env<S>, c: Core<S>, kind: EventKind, fills: seq<TradeFill>)
    requires LogHolds(c.ledger.log, fills) && Handle(env, c, kind).Effect?
    ensures LogHolds(Handle(env, c, kind).core.ledger.log, fills + FillsOf(EventJobs(env, c, kind)))
  {
    EventLedger(env, c, kind);
    hide Handle, Record, Fund, FundingMark, LogHolds;
    if kind.EvFunding? {
      assert EventJobs(env, c, kind) == [];
      assert fills + FillsOf([]) == fills;
      var mark := FundingMark(c, kind.funding.symbolId);
      if mark.Some? {
        FundHeld(c.ledger, fills, kind.funding, mark.value);
      }
    } else {
      hide EventJobs, FillsOf;
      RecordHeld(c.ledger, fills, EventJobs(env, c, kind));
    }
  }

  lemma {:induction false} FinishHeld<S>(env: Env<S>, eff: Effect<S>, f: Feed, event: Event)
    requires eff.Effect?
    ensures Finish(env, eff, f, event).Stepped? ==> Finish(env, eff, f, event).engine.core.ledger == eff.core.ledger
  {
    hide Flush, Schedule;
    FlushLedger(env, eff.core, eff.core.now);
  }

  lemma {:induction false} StepHeld<S>(env: Env<S>, e: Engine<S>, fills: seq<TradeFill>)
    requires LogHolds(e.core.ledger.log, fills)
    ensures
      match Advance(env, e)
      case Stepped(next, event, _) => LogHolds(next.core.ledger.log, fills + BookedBy(env, e.core, event))
      case Flushed(next, _) => LogHolds(next.core.ledger.log, fills)
      case _ => true
  {
    hide Handle, Finish, Flush, LogHolds, PopFeed, Ingest, Schedule, EventJobs, FillsOf;
    match PopFeed(env.cfg.feedLatency, e.feed) {
      case Some((event, f)) =>
        var c := e.core.(now := event.ts);
        ProcessSteps(env, e.core, f, event);
        var eff := Handle(env, c, event.kind);
        if eff.Effect? {
          EventHeld(env, c, event.kind, fills);
          FinishHeld(env, eff, f, event);
        }
      case None => FlushLedger(env, e.core, e.core.now);
    }
  }

  lemma {:induction false} RunHeld<S>(env: Env<S>, e: Engine<S>, n: nat)
    requires LogHolds(e.core.ledger.log, []) && After(env, e, n).Some?
    ensures LogHolds(After(env, e, n).value.core.ledger.log, FillsBooked(env, e, n))
    decreases n
  {
    hide Advance, LogHolds, BookedBy;
    if n > 0 {
      RunHeld(env, e, n - 1);
      StepHeld(env, After(env, e, n - 1).value, FillsBooked(env, e, n - 1));
      assert FillsBooked(env, e, n - 1) + [] == FillsBooked(env, e, n - 1);
    }
  }

  // From any start and after any number of iterations the log holds what its mode promises: every fill
  // booked so far, the last of them up to the capacity of the ring, or none.
  lemma {:induction false} LogKeepsItsPromise<S>(
    env: Env<S>, s: S, sources: seq<seq<Tick>>, l3Sources: seq<seq<L3Update>>, l3Symbols: set<int>,
    external: seq<Push>, n: nat)
    requires After(env, Start(env.cfg, s, sources, l3Sources, l3Symbols, external), n).Some?
    ensures
      var e := Start(env.cfg, s, sources, l3Sources, l3Symbols, external);
      LogHolds(After(env, e, n).value.core.ledger.log, FillsBooked(env, e, n))
  {
    var e := Start(env.cfg, s, sources, l3Sources, l3Symbols, external);
    assert LogHolds(e.core.ledger.log, []);
    hide After, LogHolds, FillsBooked, Start;
    RunHeld(env, e, n);
  }
}
