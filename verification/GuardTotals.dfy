// The risk guard keeps its own total: whatever the trade log keeps of them, every profit and payment counts,
// and the switch is thrown exactly when their running total has reached the loss limit.
module GuardTotals {
  import opened Types
  import opened Arith
  import opened Accounts
  import opened Stats
  import opened Ledgers
  import opened EventQueues
  import opened Feeds
  import opened EngineSpec
  import opened EngineClock
  import opened EngineMoney
  import opened PnlHistory

  // ---- What is booked ------------------------------------------------------------------------------------

  function FilledAccount(a: AccountState, jobs: seq<FillJob>): AccountState {
    if jobs == [] then a
    else
      var j := jobs[|jobs| - 1];
      AfterFill(FilledAccount(a, jobs[..|jobs| - 1]), j.order, j.fill.qty, j.fill.price)
  }

  // For each fill its time and what the account realises on it, less its fee.
  function SettledPnl(a: AccountState, jobs: seq<FillJob>): History {
    if jobs == [] then []
    else
      var (init, j) := (jobs[..|jobs| - 1], jobs[|jobs| - 1]);
      var gain := FillPnl(FilledAccount(a, init), j.order, j.fill.qty, j.fill.price);
      SettledPnl(a, init) + [(j.fill.tsExchange, Clamp(gain - j.fill.fee))]
  }

  // What an event books: a funding payment, or what its fills realise.
  function BookedPnl<S>(env: Env<S>, c: Core<S>, kind: EventKind): History {
    if kind.EvFunding? then PaymentBy(c, kind) else SettledPnl(c.ledger.account, EventJobs(env, c, kind))
  }

  // Everything booked in the first n iterations.
  function PnlBooked<S>(env: Env<S>, e: Engine<S>, n: nat): History {
    if n == 0 then []
    else
      match After(env, e, n - 1)
      case None => []
      case Some(last) =>
        PnlBooked(env, e, n - 1)
        + match Advance(env, last)
          case Stepped(_, event, _) => BookedPnl(env, last.core.(now := event.ts), event.kind)
          case _ => []
  }

  // The guard's total and switch are those of this history, and so is what the log keeps of it.
  ghost predicate GuardOk(l: Ledger, h: History) {
    && l.guard.running == SatSum(h)
    && (l.guard.killed <==> LimitHit(h, l.guard.maxLoss))
    && (if l.log.mode == NoLog then l.log.history == [] else l.log.history == h)
  }

  // ---- Ledger steps --------------------------------------------------------------------------------------

  lemma {:induction false} HitOrReached(h: History, p: (int, int), maxLoss: int)
    ensures LimitHit(h + [p], maxLoss) <==> LimitHit(h, maxLoss) || (maxLoss < 0 && SatSum(h + [p]) <= maxLoss)
  {
    hide SatSum;
    var h' := h + [p];
    forall k | 0 < k <= |h| ensures h'[..k] == h[..k] {}
    assert h'[..|h| + 1] == h';
    if LimitHit(h, maxLoss) {
      var k :| 0 < k <= |h| && SatSum(h[..k]) <= maxLoss;
      assert SatSum(h'[..k]) <= maxLoss;
    }
    if maxLoss < 0 && SatSum(h') <= maxLoss {
      assert SatSum(h'[..|h| + 1]) <= maxLoss;
    }
  }

  lemma {:induction false} SumStep(h: History, p: (int, int))
    ensures SatSum(h + [p]) == SatAdd(SatSum(h), p.1)
  {
    assert (h + [p])[..|h|] == h;
  }

  lemma {:induction false} BookPnlGuard(l: Ledger, ts: int, pnl: int, isTrade: bool, h: History)
    requires GuardOk(l, h)
    ensures GuardOk(BookPnl(l, ts, pnl, isTrade), h + [(ts, pnl)])
  {
    hide SatSum, SatAdd, SummaryPnl, LimitHit;
    SumStep(h, (ts, pnl));
    HitOrReached(h, (ts, pnl), l.guard.maxLoss);
  }

  lemma {:induction false} SettleAccount(l: Ledger, jobs: seq<FillJob>)
    ensures SettleAll(l, jobs).account == FilledAccount(l.account, jobs)
  {
    hide NetPnl, AfterFill, LogPnl;
    if jobs != [] {
      SettleAccount(l, jobs[..|jobs| - 1]);
    }
  }

  lemma {:induction false} GuardIgnoresAccount(l: Ledger, l': Ledger, h: History)
    requires GuardOk(l, h) && l'.guard == l.guard && l'.log.mode == l.log.mode && l'.log.history == l.log.history
    ensures GuardOk(l', h)
  {
  }

  lemma {:induction false} SettleGuard(l: Ledger, jobs: seq<FillJob>, h: History)
    requires GuardOk(l, h)
    ensures GuardOk(SettleAll(l, jobs), h + SettledPnl(l.account, jobs))
  {
    hide GuardOk, AfterFill, FillPnl, Clamp, BookPnl;
    if jobs == [] {
      assert h + [] == h;
    } else {
      var init, j := jobs[..|jobs| - 1], jobs[|jobs| - 1];
      SettleGuard(l, init, h);
      SettleAccount(l, init);
      var last := SettleAll(l, init);
      var moved := last.(account := AfterFill(last.account, j.order, j.fill.qty, j.fill.price));
      var pnl := NetPnl(last.account, j);
      GuardIgnoresAccount(last, moved, h + SettledPnl(l.account, init));
      BookPnlGuard(moved, j.fill.tsExchange, pnl, true, h + SettledPnl(l.account, init));
      assert h + SettledPnl(l.account, init) + [(j.fill.tsExchange, pnl)] == h + SettledPnl(l.account, jobs);
    }
  }

  lemma {:induction false} RecordGuard(l: Ledger, jobs: seq<FillJob>, h: History)
    requires GuardOk(l, h)
    ensures GuardOk(Record(l, jobs), h + SettledPnl(l.account, jobs))
  {
    hide GuardOk, SettleAll, SettledPnl, LogFills;
    var mid := l.(log := LogFills(l.log, jobs));
    LogFillsFrame(l.log, jobs);
    GuardIgnoresAccount(l, mid, h);
    SettleGuard(mid, jobs, h);
  }

  lemma {:induction false} FundGuard(l: Ledger, event: FundingEvent, mark: int, h: History)
    requires GuardOk(l, h)
    ensures GuardOk(Fund(l, event, mark), h + [(event.tsExchange, FundingPnl(l.account, event, mark))])
  {
    hide GuardOk, FundingPnl, AfterFunding, BookPnl;
    var moved := l.(account := AfterFunding(l.account, event, mark));
    GuardIgnoresAccount(l, moved, h);
    BookPnlGuard(moved, event.tsExchange, FundingPnl(l.account, event, mark), false, h);
  }

  // ---- Iterations ----------------------------------------------------------------------------------------

  lemma {:induction false} EventGuard<S>(env: Env<S>, c: Core<S>, kind: EventKind, h: History)
    requires GuardOk(c.ledger, h) && Handle(env, c, kind).Effect?
    ensures GuardOk(Handle(env, c, kind).core.ledger, h + BookedPnl(env, c, kind))
  {
    EventLedger(env, c, kind);
    hide Handle, Record, Fund, FundingMark, EventJobs, GuardOk, FundingPnl, SettledPnl;
    assert h + [] == h;
    if kind.EvFunding? {
      var mark := FundingMark(c, kind.funding.symbolId);
      if mark.Some? {
        FundGuard(c.ledger, kind.funding, mark.value, h);
      }
    } else {
      RecordGuard(c.ledger, EventJobs(env, c, kind), h);
    }
  }

  lemma {:induction false} StepGuard<S>(env: Env<S>, e: Engine<S>, h: History)
    requires GuardOk(e.core.ledger, h)
    ensures
      match Advance(env, e)
      case Stepped(next, event, _) =>
        GuardOk(next.core.ledger, h + BookedPnl(env, e.core.(now := event.ts), event.kind))
      case Flushed(next, _) => GuardOk(next.core.ledger, h)
      case _ => true
  {
    hide Handle, Finish, Flush, GuardOk, PopFeed, Ingest, BookedPnl;
    match PopFeed(env.cfg.feedLatency, e.feed) {
      case Some((event, f)) =>
        var c := e.core.(now := event.ts);
        ProcessSteps(env, e.core, f, event);
        var eff := Handle(env, c, event.kind);
        if eff.Effect? {
          EventGuard(env, c, event.kind, h);
          FinishLedger(env, eff, f, event);
        }
      case None => FlushLedger(env, e.core, e.core.now);
    }
  }

  // ---- Whole runs ----------------------------------------------------------------------------------------

  // In every state of every run, in every log mode: the guard's total is the saturating sum of everything
  // booked, its switch is thrown if and only if some running total of that reached the loss limit, and the
  // history that a log keeps is the same.
  lemma {:induction false} GuardCountsEverything<S>(env: Env<S>, e: Engine<S>, n: nat)
    requires GuardOk(e.core.ledger, []) && After(env, e, n).Some?
    ensures GuardOk(After(env, e, n).value.core.ledger, PnlBooked(env, e, n))
    decreases n
  {
    hide Advance, GuardOk, BookedPnl;
    if n > 0 {
      GuardCountsEverything(env, e, n - 1);
      StepGuard(env, After(env, e, n - 1).value, PnlBooked(env, e, n - 1));
      assert PnlBooked(env, e, n - 1) + [] == PnlBooked(env, e, n - 1);
    }
  }

  lemma {:induction false} StartGuard<S>(
    cfg: Config, s: S, sources: seq<seq<Tick>>, l3Sources: seq<seq<L3Update>>, l3Symbols: set<int>,
    external: seq<Push>)
    ensures GuardOk(Start(cfg, s, sources, l3Sources, l3Symbols, external).core.ledger, [])
  {
  }
}
