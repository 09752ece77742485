// Totals over a whole run: the trades, fees, wins, gross profit and loss, and holding time of the summary are
// those of the stored fills, recomputed, and the funding totals of the account those of the payments booked.
module SummaryTotals {
  import opened Types
  import opened Arith
  import opened Accounts
  import opened Stats
  import opened Ledgers
  import opened EventQueues
  import opened Feeds
  import opened EngineSpec
  import opened EngineClock
  import opened LifecycleSteps
  import opened LifecycleRun
  import opened ReportStreams
  import opened EngineMoney
  import opened EngineInvariant
  import opened EngineGuarantees
  import opened PnlHistory

  // ---- Totals of fills and of profits -------------------------------------------------------------------

  // Saturating totals that go on from what stands there already.
  function FeesFrom(total: int, fills: seq<TradeFill>): int {
    if fills == [] then total else SatAdd(FeesFrom(total, fills[..|fills| - 1]), fills[|fills| - 1].fee)
  }

  function ProfitFrom(total: int, h: History): int {
    if h == [] then total
    else
      var (before, pnl) := (ProfitFrom(total, h[..|h| - 1]), h[|h| - 1].1);
      if pnl > 0 then SatAdd(before, pnl) else before
  }

  function LossFrom(total: int, h: History): int {
    if h == [] then total
    else
      var (before, pnl) := (LossFrom(total, h[..|h| - 1]), h[|h| - 1].1);
      if pnl < 0 then SatAdd(before, pnl) else before
  }

  function WinsFrom(total: nat, h: History): nat {
    if h == [] then total else WinsFrom(total, h[..|h| - 1]) + if h[|h| - 1].1 > 0 then 1 else 0
  }

  // Only fills that realise something count as held.
  function Held(deltas: seq<PnlDelta>): int {
    if deltas == [] then 0
    else
      var (before, last) := (Held(deltas[..|deltas| - 1]), deltas[|deltas| - 1]);
      if last.pnl != 0 then SatAdd(before, last.holdingPeriod) else before
  }

  ghost predicate GrossOf(s: Summary, profit: int, loss: int, wins: nat, h: History) {
    s.grossProfit == ProfitFrom(profit, h) && s.grossLoss == LossFrom(loss, h) && s.winCount == WinsFrom(wins, h)
  }

  // With every fill kept, the totals are those of the stored fills.
  ghost predicate TotalsOk(l: LogState) {
    && l.mode == All
    && l.summary.totalTrades == |l.fills|
    && l.summary.totalFees == FeesFrom(0, l.fills)
    && l.summary.totalHolding == Held(PnlDeltas(l.fills))
    && GrossOf(l.summary, 0, 0, 0, TradeEntries(l.fills))
  }

  lemma {:induction false} GrossAppend(profit: int, loss: int, wins: nat, a: History, b: History)
    ensures ProfitFrom(profit, a + b) == ProfitFrom(ProfitFrom(profit, a), b)
    ensures LossFrom(loss, a + b) == LossFrom(LossFrom(loss, a), b)
    ensures WinsFrom(wins, a + b) == WinsFrom(WinsFrom(wins, a), b)
  {
    hide SatAdd;
    if b == [] {
      assert a + b == a;
    } else {
      assert (a + b)[..|a + b| - 1] == a + b[..|b| - 1];
      GrossAppend(profit, loss, wins, a, b[..|b| - 1]);
    }
  }

  // ---- Ledger steps ----------------------------------------------------------------------------------------

  // Logging fills moves the counts and leaves gross profit alone.
  lemma {:induction false} LogFillTotals(log: LogState, jobs: seq<FillJob>)
    requires log.mode == All && log.summary.lots == LotsAfter(log.fills)
    requires log.summary.totalTrades == |log.fills| && log.summary.totalFees == FeesFrom(0, log.fills)
    requires log.summary.totalHolding == Held(PnlDeltas(log.fills))
    ensures
      var log' := LogFills(log, jobs);
      && log'.summary.totalTrades == |log'.fills| && log'.summary.totalFees == FeesFrom(0, log'.fills)
      && log'.summary.totalHolding == Held(PnlDeltas(log'.fills))
      && log'.summary.grossProfit == log.summary.grossProfit && log'.summary.grossLoss == log.summary.grossLoss
      && log'.summary.winCount == log.summary.winCount
  {
    hide LotsAfter, FillGain, HoldingPeriod, BookFill, SatAdd;
    LogFillsReplay(log, jobs);
    if jobs != [] {
      var init, f := jobs[..|jobs| - 1], jobs[|jobs| - 1].fill;
      LogFillTotals(log, init);
      LogFillsReplay(log, init);
      var before, after := LogFills(log, init), LogFills(log, jobs);
      assert after.fills == before.fills + [f];
      assert after.fills[..|after.fills| - 1] == before.fills;
      var deltas := PnlDeltas(after.fills);
      assert deltas[..|deltas| - 1] == PnlDeltas(before.fills);
    }
  }

  // Settling fills adds what it adds to the history to gross profit and loss, and leaves the counts alone.
  lemma {:induction false} SettleTotals(l: Ledger, jobs: seq<FillJob>)
    requires l.log.mode != NoLog
    ensures
      var l' := SettleAll(l, jobs);
      var s := l.log.summary;
      && l.log.history <= l'.log.history
      && GrossOf(l'.log.summary, s.grossProfit, s.grossLoss, s.winCount, l'.log.history[|l.log.history|..])
      && l'.log.summary.totalTrades == s.totalTrades && l'.log.summary.totalFees == s.totalFees
      && l'.log.summary.totalHolding == s.totalHolding
  {
    hide SatAdd, NetPnl, AfterFill, MomentsAfter, DrawdownAfter;
    var h := l.log.history;
    if jobs == [] {
      assert h[|h|..] == [];
    } else {
      var init := jobs[..|jobs| - 1];
      SettleTotals(l, init);
      SettleFrame(l, init);
      var before, after := SettleAll(l, init).log.history, SettleAll(l, jobs).log.history;
      assert after[..|after| - 1] == before;
      var added := after[|h|..];
      assert added[..|added| - 1] == before[|h|..];
    }
  }

  lemma {:induction false} EntriesSplit(h: History, h': History, more: History)
    requires h' == h + more
    ensures h'[|h|..] == more
  {
  }

  lemma {:induction false} LotsAgree(l: Ledger)
    requires BooksAgree(l) && l.log.mode == All
    ensures l.log.summary.lots == LotsAfter(l.log.fills)
  {
    hide LotsAfter, SameHoldings;
  }

  lemma {:induction false} RecordTotals(l: Ledger, jobs: seq<FillJob>)
    requires TotalsOk(l.log) && BooksAgree(l) && GoodJobs(jobs)
    ensures TotalsOk(Record(l, jobs).log)
  {
    hide PnlDeltas, TradeEntries, BooksAgree, GoodJobs, Held, FeesFrom, ProfitFrom, LossFrom, WinsFrom, FillsOf;
    assert l.log.summary.lots == LotsAfter(l.log.fills) by {
      LotsAgree(l);
    }
    hide LotsAfter, LogFills, SettleAll;
    LogFillsReplay(l.log, jobs);
    LogFillTotals(l.log, jobs);
    LogFillsFrame(l.log, jobs);
    var mid := l.(log := LogFills(l.log, jobs));
    SettleTotals(mid, jobs);
    SettleFrame(mid, jobs);
    var fills := l.log.fills;
    RecordEntries(l, jobs);
    EntriesGrow(fills, FillsOf(jobs));
    var entries := TradeEntries(fills + FillsOf(jobs));
    EntriesSplit(l.log.history, SettleAll(mid, jobs).log.history, entries[|fills|..]);
    GrossAppend(0, 0, 0, TradeEntries(fills), entries[|fills|..]);
  }

  lemma {:induction false} FundTotals(l: Ledger, event: FundingEvent, mark: int)
    requires TotalsOk(l.log)
    ensures TotalsOk(Fund(l, event, mark).log)
  {
    hide TradeEntries, PnlDeltas, Held, FeesFrom, ProfitFrom, LossFrom, WinsFrom, FundingPnl, SatAdd, MomentsAfter,
      DrawdownAfter;
  }

  // ---- Iterations ------------------------------------------------------------------------------------------

  lemma {:induction false} EventTotals<S>(env: Env<S>, c: Core<S>, e: Event, q: Queue)
    requires LifeAt(c, [e] + q) && MoneyOk(c.ledger) && TotalsOk(c.ledger.log) && Handle(env, c, e.kind).Effect?
    ensures TotalsOk(Handle(env, c, e.kind).core.ledger.log)
  {
    EventLedger(env, c, e.kind);
    EventJobsGood(env, c, e, q);
    assert BooksAgree(c.ledger);
    hide Handle, Record, Fund, FundingMark, EventJobs, LifeAt, TotalsOk, BooksAgree;
    if e.kind.EvFunding? {
      var mark := FundingMark(c, e.kind.funding.symbolId);
      if mark.Some? {
        FundTotals(c.ledger, e.kind.funding, mark.value);
      }
    } else {
      RecordTotals(c.ledger, EventJobs(env, c, e.kind));
    }
  }

  lemma {:induction false} StepTotals<S>(env: Env<S>, history: seq<OrderReport>, e: Engine<S>)
    requires GoodConfig(env.cfg) && Sound(env.cfg, history, e) && TotalsOk(e.core.ledger.log)
    ensures
      var o := Advance(env, e);
      o.Stepped? || o.Flushed? ==> TotalsOk(o.engine.core.ledger.log)
  {
    hide Handle, Finish, Flush, Sound, TotalsOk, PopFeed, Ingest;
    match PopFeed(env.cfg.feedLatency, e.feed) {
      case Some((event, f)) =>
        var c := e.core.(now := event.ts);
        PopSound(env, history, e);
        ProcessSteps(env, e.core, f, event);
        hide StreamsAt, LevelOk;
        var eff := Handle(env, c, event.kind);
        if eff.Effect? {
          EventTotals(env, c, event, f.queue);
          FinishLedger(env, eff, f, event);
        }
      case None => FlushLedger(env, e.core, e.core.now);
    }
  }

  // In every reachable state, with every fill kept: the summary counts the stored fills and their fees, its
  // gross profit, gross loss and wins are those of the recomputed profits less the fees, and its holding time
  // that of the fills that realised something. Funding moves none of them.
  lemma {:induction false} SummaryIsRecomputed<S(!new)>(env: Env<S>, e: Engine<S>, n: nat)
    requires Reaches(env, e, n) && TotalsOk(e.core.ledger.log)
    ensures TotalsOk(After(env, e, n).value.core.ledger.log)
    decreases n
  {
    hide Advance, Sound, GoodStrategy, TotalsOk, ReportsDelivered;
    if n > 0 {
      SummaryIsRecomputed(env, e, n - 1);
      RunKeepsSound(env, e, n - 1);
      StepTotals(env, ReportsDelivered(env, e, n - 1), After(env, e, n - 1).value);
    }
  }

  lemma {:induction false} StartTotals<S>(
    cfg: Config, s: S, sources: seq<seq<Tick>>, l3Sources: seq<seq<L3Update>>, l3Symbols: set<int>,
    external: seq<Push>)
    requires cfg.logMode == All
    ensures TotalsOk(Start(cfg, s, sources, l3Sources, l3Symbols, external).core.ledger.log)
  {
  }

  // ---- Funding -----------------------------------------------------------------------------------------------

  // What an event books as funding of one symbol.
  function PaidBy<S>(c: Core<S>, kind: EventKind, symbol: int): History {
    if kind.EvFunding? && kind.funding.symbolId == symbol then PaymentBy(c, kind) else []
  }

  // The funding payments of one symbol in the first n iterations.
  function PaidTo<S>(env: Env<S>, e: Engine<S>, n: nat, symbol: int): History {
    if n == 0 then []
    else
      match After(env, e, n - 1)
      case None => []
      case Some(last) =>
        PaidTo(env, e, n - 1, symbol)
        + match Advance(env, last)
          case Stepped(_, event, _) => PaidBy(last.core, event.kind, symbol)
          case _ => []
  }

  // The account's funding totals are those of these payments.
  ghost predicate FundingOk(a: AccountState, symbol: int, all: History, mine: History) {
    a.totalFunding == SatSum(all) && PositionOf(a, symbol).fundingPnl == SatSum(mine)
  }

  lemma {:induction false} SettleKeepsFunding(l: Ledger, jobs: seq<FillJob>, symbol: int)
    ensures
      var (a, a') := (l.account, SettleAll(l, jobs).account);
      a'.totalFunding == a.totalFunding && PositionOf(a', symbol).fundingPnl == PositionOf(a, symbol).fundingPnl
  {
    hide NetPnl, LogPnl;
    if jobs != [] {
      SettleKeepsFunding(l, jobs[..|jobs| - 1], symbol);
    }
  }

  lemma {:induction false} SatSumAppend(h: History, p: (int, int))
    ensures SatSum(h + [p]) == SatAdd(SatSum(h), p.1) && SatAdd(SatSum(h), 0) == SatSum(h)
  {
    assert (h + [p])[..|h|] == h;
  }

  lemma {:induction false} FundFunding(
    l: Ledger, event: FundingEvent, mark: int, symbol: int, all: History, mine: History)
    requires FundingOk(l.account, symbol, all, mine)
    ensures
      var p := (event.tsExchange, FundingPnl(l.account, event, mark));
      FundingOk(Fund(l, event, mark).account, symbol, all + [p], if event.symbolId == symbol then mine + [p] else mine)
  {
    hide SatAdd, SatSum, Payment, LogPnl;
    var p := (event.tsExchange, FundingPnl(l.account, event, mark));
    SatSumAppend(all, p);
    SatSumAppend(mine, p);
  }

  lemma {:induction false} EventFunding<S>(
    env: Env<S>, c: Core<S>, kind: EventKind, symbol: int, all: History, mine: History)
    requires FundingOk(c.ledger.account, symbol, all, mine) && Handle(env, c, kind).Effect?
    ensures
      FundingOk(Handle(env, c, kind).core.ledger.account, symbol, all + PaymentBy(c, kind),
                mine + PaidBy(c, kind, symbol))
  {
    EventLedger(env, c, kind);
    hide Handle, SettleAll, LogFills, Fund, FundingMark, EventJobs, FundingPnl, SatSum, PositionOf;
    assert all + [] == all && mine + [] == mine;
    if kind.EvFunding? {
      var mark := FundingMark(c, kind.funding.symbolId);
      if mark.Some? {
        FundFunding(c.ledger, kind.funding, mark.value, symbol, all, mine);
      }
    } else {
      var jobs := EventJobs(env, c, kind);
      SettleKeepsFunding(c.ledger.(log := LogFills(c.ledger.log, jobs)), jobs, symbol);
    }
  }

  lemma {:induction false} SamePaidBy<S>(c: Core<S>, c': Core<S>, kind: EventKind, symbol: int)
    requires c'.ledger == c.ledger && c'.truth == c.truth && c'.exchanges == c.exchanges
    ensures PaymentBy(c', kind) == PaymentBy(c, kind) && PaidBy(c', kind, symbol) == PaidBy(c, kind, symbol)
  {
    SamePayment(c, c', kind);
    hide PaymentBy;
  }

  lemma {:induction false} StepFunding<S>(
    env: Env<S>, e: Engine<S>, symbol: int, all: History, mine: History)
    requires FundingOk(e.core.ledger.account, symbol, all, mine)
    ensures
      match Advance(env, e)
      case Stepped(next, event, _) =>
        FundingOk(next.core.ledger.account, symbol, all + PaymentBy(e.core, event.kind),
                  mine + PaidBy(e.core, event.kind, symbol))
      case Flushed(next, _) => FundingOk(next.core.ledger.account, symbol, all, mine)
      case _ => true
  {
    hide Handle, Finish, Flush, FundingOk, PopFeed, Ingest, PaymentBy, PaidBy;
    match PopFeed(env.cfg.feedLatency, e.feed) {
      case Some((event, f)) =>
        var c := e.core.(now := event.ts);
        ProcessSteps(env, e.core, f, event);
        SamePaidBy(e.core, c, event.kind, symbol);
        var eff := Handle(env, c, event.kind);
        if eff.Effect? {
          EventFunding(env, c, event.kind, symbol, all, mine);
          FinishLedger(env, eff, f, event);
        }
      case None => FlushLedger(env, e.core, e.core.now);
    }
  }

  // Funding totals are conserved: at any time the account's total is the saturating sum of all payments that
  // the run has booked, and that of each symbol the sum of its own.
  lemma {:induction false} FundingIsTotalled<S>(env: Env<S>, e: Engine<S>, n: nat, symbol: int)
    requires After(env, e, n).Some? && e.core.ledger.account == EMPTY_ACCOUNT
    ensures
      FundingOk(After(env, e, n).value.core.ledger.account, symbol, Payments(env, e, n), PaidTo(env, e, n, symbol))
    decreases n
  {
    hide Advance, PaymentBy, PaidBy;
    if n > 0 {
      FundingIsTotalled(env, e, n - 1, symbol);
      hide FundingOk;
      var all, mine := Payments(env, e, n - 1), PaidTo(env, e, n - 1, symbol);
      StepFunding(env, After(env, e, n - 1).value, symbol, all, mine);
      assert all + [] == all && mine + [] == mine;
    }
  }
}
