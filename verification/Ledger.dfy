// Money: fees, and the three books (account, trade log, risk guard) that every fill updates.
module Ledgers {
  import opened Types
  import opened Arith
  import opened AvgCost
  import opened Accounts
  import opened Stats
  import opened RiskGuards

  const FEE_UNIT: int := SCALE * 10_000

  function ComputeFee(price: int, qty: int, bps: int): int {
    if bps <= 0 then 0
    else
      var fee := TruncDiv(price * Abs(qty) * bps, FEE_UNIT);
      if fee < 0 then 0 else if fee > I64_MAX then I64_MAX else fee
  }

  lemma {:induction false} FeeNonNegative(price: int, qty: int, bps: int)
    ensures ComputeFee(price, qty, bps) >= 0
  {
  }

  lemma {:induction false} NonPositiveFee(price: int, q: int, bps: int)
    requires price < 0 && q >= 0 && bps > 0
    ensures TruncDiv(price * q * bps, FEE_UNIT) <= 0
  {
    MulNonNeg(-price, q);
    MulNonNeg((-price) * q, bps);
    var n := price * q * bps;
    assert (-price) * q * bps == -n;
    if n < 0 {
      DivBounds(-n, FEE_UNIT);
    }
  }

  // What bps basis points, hundredths of a percent, come to in whole units: rounded down, never negative,
  // and at most what 64 bits hold.
  ghost predicate IsFee(price: int, qty: int, bps: int, fee: int) {
    if bps <= 0 || price <= 0 then fee == 0
    else
      && 0 <= fee <= I64_MAX
      && 100_000_000 * 10_000 * fee <= price * Abs(qty) * bps
      && (fee < I64_MAX ==> price * Abs(qty) * bps < 100_000_000 * 10_000 * (fee + 1))
  }

  lemma {:induction false} FeeBracket(n: int, fee: int)
    requires n >= 0 && fee == n / FEE_UNIT
    ensures 0 <= fee && SCALE * 10_000 * fee <= n < SCALE * 10_000 * (fee + 1)
  {
  }

  lemma {:induction false} FeeOverflow(n: int, fee: int)
    requires n >= 0 && fee == n / FEE_UNIT && fee > I64_MAX
    ensures SCALE * 10_000 * I64_MAX <= n
  {
  }

  lemma {:induction false} FeeIsBasisPoints(price: int, qty: int, bps: int)
    ensures IsFee(price, qty, bps, ComputeFee(price, qty, bps))
  {
    if bps > 0 && price < 0 {
      NonPositiveFee(price, Abs(qty), bps);
    } else if bps > 0 && price > 0 {
      MulNonNeg(price, Abs(qty));
      MulNonNeg(price * Abs(qty), bps);
      var n := price * Abs(qty) * bps;
      FeeBracket(n, n / FEE_UNIT);
      assert TruncDiv(n, FEE_UNIT) == n / FEE_UNIT;
      if n / FEE_UNIT > I64_MAX {
        FeeOverflow(n, n / FEE_UNIT);
      }
    }
  }

  // ---- Splitting one order into several fills ---------------------------------------------

  function TotalFee(price: int, qs: seq<int>, bps: int): int {
    if qs == [] then 0
    else TotalFee(price, qs[..|qs| - 1], bps) + ComputeFee(price, qs[|qs| - 1], bps)
  }

  lemma {:induction false} SumPositive(qs: seq<int>)
    requires forall i :: 0 <= i < |qs| ==> qs[i] > 0
    ensures Sum(qs) >= |qs|
  {
    if qs != [] {
      SumPositive(qs[..|qs| - 1]);
    }
  }

  lemma {:induction false} QuotientsSplit(a: int, b: int, c: int, x: int, y: int, d: int)
    requires d > 0 && d * a <= x <= d * a + d - 1 && d * b <= y <= d * b + d - 1
    requires d * c <= x + y <= d * c + d - 1
    ensures a + b <= c <= a + b + 1
  {
    Distribute(a, b, d);
    assert (a + b) * d == d * a + d * b;
    if c < a + b {
      MulMono(c + 1, a + b, d);
      Distribute(c, 1, d);
    } else if c > a + b + 1 {
      MulMono(a + b + 2, c, d);
      Distribute(a + b, 2, d);
    }
  }

  // Truncated division of a sum against the sum of truncated divisions.
  lemma {:induction false} DivSplit(x: int, y: int, d: int)
    requires x >= 0 && y >= 0 && d > 0
    ensures x / d + y / d <= (x + y) / d <= x / d + y / d + 1
  {
    DivBounds(x, d);
    DivBounds(y, d);
    DivBounds(x + y, d);
    QuotientsSplit(x / d, y / d, (x + y) / d, x, y, d);
  }

  lemma {:induction false} FeeNumerator(price: int, q: int, bps: int)
    ensures price * q * bps == q * (price * bps)
  {
  }

  lemma {:induction false} FeeSplitTwo(price: int, q: int, r: int, bps: int)
    requires q >= 0 && r >= 0
    requires bps > 0 ==> TruncDiv(price * (q + r) * bps, FEE_UNIT) <= I64_MAX
    ensures ComputeFee(price, q, bps) + ComputeFee(price, r, bps) <= ComputeFee(price, q + r, bps)
    ensures ComputeFee(price, q + r, bps) <= ComputeFee(price, q, bps) + ComputeFee(price, r, bps) + 1
    ensures bps > 0 ==> TruncDiv(price * q * bps, FEE_UNIT) <= I64_MAX
  {
    if bps > 0 {
      var k := price * bps;
      FeeNumerator(price, q, bps);
      FeeNumerator(price, r, bps);
      FeeNumerator(price, q + r, bps);
      Distribute(q, r, k);
      var x, y := q * k, r * k;
      if price >= 0 {
        MulNonNeg(price, bps);
        MulNonNeg(q, k);
        MulNonNeg(r, k);
        DivSplit(x, y, FEE_UNIT);
        DivBounds(x, FEE_UNIT);
        DivBounds(y, FEE_UNIT);
      } else {
        NonPositiveFee(price, q, bps);
        NonPositiveFee(price, r, bps);
        NonPositiveFee(price, q + r, bps);
      }
    }
  }

  // Filling an order in n pieces, all at one price, never costs more than filling it whole and
  // saves at most n - 1 units.
  lemma {:induction false} FeeOfSplitOrder(price: int, qs: seq<int>, bps: int)
    requires |qs| > 0 && forall i :: 0 <= i < |qs| ==> qs[i] > 0
    requires bps > 0 ==> TruncDiv(price * Sum(qs) * bps, FEE_UNIT) <= I64_MAX
    ensures ComputeFee(price, Sum(qs), bps) - (|qs| - 1) <= TotalFee(price, qs, bps)
    ensures TotalFee(price, qs, bps) <= ComputeFee(price, Sum(qs), bps)
  {
    hide ComputeFee;
    var init, last := qs[..|qs| - 1], qs[|qs| - 1];
    if |qs| == 1 {
      assert init == [] && Sum(init) == 0 && TotalFee(price, init, bps) == 0;
    } else {
      SumPositive(init);
      FeeSplitTwo(price, Sum(init), last, bps);
      FeeOfSplitOrder(price, init, bps);
    }
  }

  // ---- Recording fills ----------------------------------------------------------------------

  datatype Ledger = Ledger(account: AccountState, log: LogState, guard: Guard)

  // An executed fill: the order it belongs to, and its row in the trade log.
  datatype FillJob = FillJob(order: Order, fill: TradeFill)

  predicate GoodJob(j: FillJob) {
    && j.fill.qty > 0
    && j.fill.fee >= 0
    && j.fill.side == j.order.side
    && j.fill.symbolId == j.order.symbolId
  }

  predicate GoodJobs(jobs: seq<FillJob>) {
    forall i :: 0 <= i < |jobs| ==> GoodJob(jobs[i])
  }

  function FillsOf(jobs: seq<FillJob>): (fills: seq<TradeFill>)
    ensures |fills| == |jobs| && forall i :: 0 <= i < |jobs| ==> fills[i] == jobs[i].fill
  {
    if jobs == [] then [] else FillsOf(jobs[..|jobs| - 1]) + [jobs[|jobs| - 1].fill]
  }

  function LogFills(log: LogState, jobs: seq<FillJob>): LogState {
    if jobs == [] then log
    else LogFill(LogFills(log, jobs[..|jobs| - 1]), jobs[|jobs| - 1].fill)
  }

  function BookPnl(l: Ledger, ts: int, pnl: int, isTrade: bool): Ledger {
    l.(log := LogPnl(l.log, ts, pnl, isTrade), guard := UpdatePnl(l.guard, pnl))
  }

  function NetPnl(a: AccountState, j: FillJob): int {
    Clamp(FillPnl(a, j.order, j.fill.qty, j.fill.price) - j.fill.fee)
  }

  function Settle(l: Ledger, j: FillJob): Ledger {
    var moved := l.(account := AfterFill(l.account, j.order, j.fill.qty, j.fill.price));
    BookPnl(moved, j.fill.tsExchange, NetPnl(l.account, j), true)
  }

  function SettleAll(l: Ledger, jobs: seq<FillJob>): Ledger {
    if jobs == [] then l
    else Settle(SettleAll(l, jobs[..|jobs| - 1]), jobs[|jobs| - 1])
  }

  // All fills are logged first; then each one moves the account, the PnL history and the guard.
  function Record(l: Ledger, jobs: seq<FillJob>): Ledger {
    SettleAll(l.(log := LogFills(l.log, jobs)), jobs)
  }

  function Fund(l: Ledger, event: FundingEvent, mark: int): Ledger {
    var pnl := FundingPnl(l.account, event, mark);
    BookPnl(l.(account := AfterFunding(l.account, event, mark)), event.tsExchange, pnl, false)
  }

  // ---- The books stay in step --------------------------------------------------------------

  // Account and summary hold the same quantity at the same cost for every symbol.
  ghost predicate SameHoldings(a: AccountState, lots: Lots) {
    forall symbol :: SameCost(HeldLot(a, symbol), LotOf(lots, symbol))
  }

  lemma {:induction false} HoldingsAfterFill(a: AccountState, lots: Lots, j: FillJob)
    requires SameHoldings(a, lots) && GoodJob(j)
    ensures SameHoldings(AfterFill(a, j.order, j.fill.qty, j.fill.price), BookFill(lots, j.fill))
    ensures FillPnl(a, j.order, j.fill.qty, j.fill.price) == FillGain(lots, j.fill)
  {
    hide Clamp, SatAdd, TruncDiv, Sign;
    var a', lots' := AfterFill(a, j.order, j.fill.qty, j.fill.price), BookFill(lots, j.fill);
    var s := j.order.symbolId;
    var x, y := HeldLot(a, s), LotOf(lots, s);
    assert SameCost(x, y);
    assert SameCost(HeldLot(a', s), LotOf(lots', s));
    forall symbol ensures SameCost(HeldLot(a', symbol), LotOf(lots', symbol)) {
      assert SameCost(HeldLot(a, symbol), LotOf(lots, symbol));
      if symbol != s {
        assert HeldLot(a', symbol) == HeldLot(a, symbol) && LotOf(lots', symbol) == LotOf(lots, symbol);
      }
    }
  }

  function BookAll(lots: Lots, jobs: seq<FillJob>): Lots {
    if jobs == [] then lots else BookFill(BookAll(lots, jobs[..|jobs| - 1]), jobs[|jobs| - 1].fill)
  }

  // What settling a prefix of the jobs leaves untouched or already advanced.
  lemma {:induction false} SettleFrame(l: Ledger, jobs: seq<FillJob>)
    ensures
      var l' := SettleAll(l, jobs);
      && l'.log.mode == l.log.mode
      && l'.log.fills == l.log.fills
      && l'.log.ring == l.log.ring
      && l'.log.summary.lots == l.log.summary.lots
      && l'.log.summary.closedTrades == l.log.summary.closedTrades
      && l'.guard.maxLoss == l.guard.maxLoss
      && l'.guard.maxPosition == l.guard.maxPosition
      && l'.guard.maxOpenOrders == l.guard.maxOpenOrders
  {
    hide Clamp, SatAdd, TruncDiv, Sign;
    if jobs != [] {
      SettleFrame(l, jobs[..|jobs| - 1]);
    }
  }

  lemma {:induction false} LogFillsFrame(log: LogState, jobs: seq<FillJob>)
    ensures
      var log' := LogFills(log, jobs);
      && log'.mode == log.mode
      && log'.history == log.history
      && log'.summary.totalPnl == log.summary.totalPnl
      && log'.summary.equity == log.summary.equity
      && log'.summary.peakEquity == log.summary.peakEquity
      && log'.summary.pnlCount == log.summary.pnlCount
      && log'.summary.winCount == log.summary.winCount
      && (log.mode != NoLog ==> log'.summary.lots == BookAll(log.summary.lots, jobs))
  {
    hide Clamp, SatAdd, TruncDiv, Sign;
    if jobs != [] {
      LogFillsFrame(log, jobs[..|jobs| - 1]);
    }
  }

  lemma {:induction false} SettleHoldings(l: Ledger, lots: Lots, jobs: seq<FillJob>)
    requires SameHoldings(l.account, lots) && GoodJobs(jobs)
    ensures SameHoldings(SettleAll(l, jobs).account, BookAll(lots, jobs))
  {
    hide Clamp, SatAdd, TruncDiv, Sign;
    if jobs != [] {
      var init := jobs[..|jobs| - 1];
      SettleHoldings(l, lots, init);
      HoldingsAfterFill(SettleAll(l, init).account, BookAll(lots, init), jobs[|jobs| - 1]);
    }
  }

  // A fill can only count as a win if it closed something, because fees never add profit.
  lemma {:induction false} WinsAreClosed(log: LogState, l: Ledger, jobs: seq<FillJob>)
    requires log.mode == l.log.mode && GoodJobs(jobs)
    requires log.mode != NoLog ==> SameHoldings(l.account, log.summary.lots)
    ensures SettleAll(l, jobs).log.summary.winCount - l.log.summary.winCount
            <= LogFills(log, jobs).summary.closedTrades - log.summary.closedTrades
  {
    hide SatAdd, TruncDiv, Sign;
    if jobs != [] {
      var init, j := jobs[..|jobs| - 1], jobs[|jobs| - 1];
      WinsAreClosed(log, l, init);
      SettleFrame(l, init);
      LogFillsFrame(log, init);
      if log.mode != NoLog {
        SettleHoldings(l, log.summary.lots, init);
        HoldingsAfterFill(SettleAll(l, init).account, BookAll(log.summary.lots, init), j);
      }
    }
  }

  // The invariant of the money books in every reachable state.
  ghost predicate BooksAgree(l: Ledger) {
    && (l.log.mode != NoLog ==> SameHoldings(l.account, l.log.summary.lots))
    && (l.log.mode == All ==> l.log.summary.lots == LotsAfter(l.log.fills))
    && l.log.summary.winCount <= l.log.summary.closedTrades
  }

  lemma {:induction false} LogFillsReplay(log: LogState, jobs: seq<FillJob>)
    requires log.mode == All && log.summary.lots == LotsAfter(log.fills)
    ensures LogFills(log, jobs).summary.lots == LotsAfter(LogFills(log, jobs).fills)
    ensures LogFills(log, jobs).fills == log.fills + FillsOf(jobs)
    ensures LogFills(log, jobs).mode == All
  {
    hide Clamp, SatAdd, TruncDiv, Sign;
    if jobs != [] {
      LogFillsReplay(log, jobs[..|jobs| - 1]);
      var f := LogFills(log, jobs).fills;
      assert f[..|f| - 1] == LogFills(log, jobs[..|jobs| - 1]).fills;
    }
  }

  lemma {:induction false} RecordKeepsBooks(l: Ledger, jobs: seq<FillJob>)
    requires BooksAgree(l) && GoodJobs(jobs)
    ensures BooksAgree(Record(l, jobs))
  {
    hide Clamp, SatAdd, TruncDiv, Sign;
    var mid := l.(log := LogFills(l.log, jobs));
    LogFillsFrame(l.log, jobs);
    SettleFrame(mid, jobs);
    if l.log.mode != NoLog {
      SettleHoldings(mid, l.log.summary.lots, jobs);
    }
    if l.log.mode == All {
      LogFillsReplay(l.log, jobs);
    }
    WinsAreClosed(l.log, mid, jobs);
  }

  lemma {:induction false} FundKeepsBooks(l: Ledger, event: FundingEvent, mark: int)
    requires BooksAgree(l)
    ensures BooksAgree(Fund(l, event, mark))
  {
    hide Clamp, SatAdd, TruncDiv, Sign, FundingPnl;
    var l' := Fund(l, event, mark);
    forall symbol | l.log.mode != NoLog
      ensures SameCost(HeldLot(l'.account, symbol), LotOf(l'.log.summary.lots, symbol))
    {
      assert SameCost(HeldLot(l.account, symbol), LotOf(l.log.summary.lots, symbol));
    }
  }

  lemma {:induction false} SettledGain(l: Ledger, jobs: seq<FillJob>, i: nat)
    requires l.log.mode == All && BooksAgree(l) && GoodJobs(jobs) && i < |jobs|
    ensures
      var mid := l.(log := LogFills(l.log, jobs));
      && |PnlDeltas(mid.log.fills)| == |mid.log.fills| == |l.log.fills| + |jobs|
      && NetPnl(SettleAll(mid, jobs[..i]).account, jobs[i])
         == Clamp(PnlDeltas(mid.log.fills)[|l.log.fills| + i].pnl - jobs[i].fill.fee)
  {
    hide Clamp, SatAdd, TruncDiv, Sign, PnlDeltas, LotsAfter, BookAll, SettleAll, LogFills, AfterFill, BookFill;
    var mid := l.(log := LogFills(l.log, jobs));
    var lots := BookAll(l.log.summary.lots, jobs[..i]);
    LogFillsReplay(l.log, jobs);
    LogFillsReplay(l.log, jobs[..i]);
    LogFillsFrame(l.log, jobs[..i]);
    SettleHoldings(mid, l.log.summary.lots, jobs[..i]);
    HoldingsAfterFill(SettleAll(mid, jobs[..i]).account, lots, jobs[i]);
    PnlDeltasAt(mid.log.fills, |l.log.fills| + i);
    assert mid.log.fills[..|l.log.fills| + i] == LogFills(l.log, jobs[..i]).fills;
  }

  lemma {:induction false} PnlDeltasLength(fills: seq<TradeFill>)
    ensures |PnlDeltas(fills)| == |fills|
  {
    if fills != [] {
      PnlDeltasAt(fills, 0);
    }
  }

  lemma {:induction false} SettleHistory(l: Ledger, jobs: seq<FillJob>)
    requires l.log.mode != NoLog
    ensures
      var l' := SettleAll(l, jobs);
      && |l'.log.history| == |l.log.history| + |jobs|
      && l.log.history <= l'.log.history
      && forall i :: 0 <= i < |jobs| ==>
           l'.log.history[|l.log.history| + i] ==
           (jobs[i].fill.tsExchange, NetPnl(SettleAll(l, jobs[..i]).account, jobs[i]))
  {
    hide Clamp, SatAdd, TruncDiv, Sign, NetPnl, AfterFill, SummaryPnl, UpdatePnl, EMPTY_SUMMARY;
    if jobs != [] {
      var init := jobs[..|jobs| - 1];
      SettleHistory(l, init);
      SettleFrame(l, init);
      forall i | 0 <= i < |init| ensures jobs[..i] == init[..i] {}
    }
  }

  // With every fill kept, the profit the account books for a fill is the profit that recomputing
  // from the stored fills assigns to that same fill, less its fee.
  lemma {:induction false} SettledHistory(l: Ledger, jobs: seq<FillJob>)
    requires l.log.mode == All && BooksAgree(l) && GoodJobs(jobs)
    ensures
      var l' := Record(l, jobs);
      var n := |l.log.fills|;
      && |PnlDeltas(l'.log.fills)| == |l'.log.fills| == n + |jobs|
      && |l'.log.history| == |l.log.history| + |jobs|
      && l.log.history <= l'.log.history
      && forall i :: 0 <= i < |jobs| ==>
           l'.log.history[|l.log.history| + i] ==
           (jobs[i].fill.tsExchange, Clamp(PnlDeltas(l'.log.fills)[n + i].pnl - jobs[i].fill.fee))
  {
    hide Clamp, PnlDeltas, LotsAfter, SettleAll, LogFills, NetPnl;
    LogFillsReplay(l.log, jobs);
    var mid := l.(log := LogFills(l.log, jobs));
    SettleFrame(mid, jobs);
    LogFillsFrame(l.log, jobs);
    SettleHistory(mid, jobs);
    PnlDeltasLength(mid.log.fills);
    forall i | 0 <= i < |jobs|
      ensures NetPnl(SettleAll(mid, jobs[..i]).account, jobs[i])
              == Clamp(PnlDeltas(mid.log.fills)[|l.log.fills| + i].pnl - jobs[i].fill.fee)
    {
      SettledGain(l, jobs, i);
    }
  }

  // ---- One PnL total -------------------------------------------------------------------------

  // Some running total of the PnL history reached the loss limit.
  ghost predicate LimitHit(h: History, maxLoss: int) {
    maxLoss < 0 && exists k :: 0 < k <= |h| && SatSum(h[..k]) <= maxLoss
  }

  ghost predicate OneTotal(l: Ledger) {
    l.log.mode != NoLog ==>
      && l.guard.running == SatSum(l.log.history)
      && l.log.summary.totalPnl == SatSum(l.log.history)
      && l.log.summary.equity == SatSum(l.log.history)
      && l.log.summary.pnlCount == |l.log.history|
      && (l.guard.killed <==> LimitHit(l.log.history, l.guard.maxLoss))
      && (l.log.history != [] ==> l.log.summary.peakEquity == Peak(l.log.history))
  }

  // A new point is the highest if it is above the highest so far.
  lemma {:induction false} PeakStep(h: History, p: (int, int))
    ensures Peak(h + [p]) == if h == [] then SatSum(h + [p]) else Max(Peak(h), SatSum(h + [p]))
  {
    assert (h + [p])[..|h|] == h;
    hide SatSum;
  }

  lemma {:induction false} BookPnlKeepsTotal(l: Ledger, ts: int, pnl: int, isTrade: bool)
    requires OneTotal(l)
    ensures OneTotal(BookPnl(l, ts, pnl, isTrade))
  {
    hide Clamp, SatAdd, TruncDiv, Sign;
    if l.log.mode != NoLog {
      var l' := BookPnl(l, ts, pnl, isTrade);
      var h, h', n := l.log.history, l'.log.history, |l.log.history|;
      assert h'[..n] == h && h'[..n + 1] == h';
      assert SatSum(h') == SatAdd(SatSum(h), pnl);
      forall k | 0 < k <= n ensures h'[..k] == h[..k] {}
      if LimitHit(h, l.guard.maxLoss) {
        var k :| 0 < k <= |h| && SatSum(h[..k]) <= l.guard.maxLoss;
        assert SatSum(h'[..k]) <= l.guard.maxLoss;
      }
      if SatSum(h') <= l.guard.maxLoss {
        assert SatSum(h'[..n + 1]) <= l.guard.maxLoss;
      }
      PeakStep(h, (ts, pnl));
    }
  }

  lemma {:induction false} TotalIgnoresAccount(l: Ledger, a: AccountState)
    requires OneTotal(l)
    ensures OneTotal(l.(account := a))
  {
  }

  lemma {:induction false} SettleKeepsTotal(l: Ledger, jobs: seq<FillJob>)
    requires OneTotal(l)
    ensures OneTotal(SettleAll(l, jobs))
  {
    hide NetPnl, AfterFill, BookPnl, OneTotal;
    if jobs != [] {
      var prev, j := SettleAll(l, jobs[..|jobs| - 1]), jobs[|jobs| - 1];
      SettleKeepsTotal(l, jobs[..|jobs| - 1]);
      var moved := prev.(account := AfterFill(prev.account, j.order, j.fill.qty, j.fill.price));
      TotalIgnoresAccount(prev, moved.account);
      BookPnlKeepsTotal(moved, j.fill.tsExchange, NetPnl(prev.account, j), true);
    }
  }

  lemma {:induction false} RecordKeepsTotal(l: Ledger, jobs: seq<FillJob>)
    requires OneTotal(l)
    ensures OneTotal(Record(l, jobs))
  {
    LogFillsFrame(l.log, jobs);
    SettleKeepsTotal(l.(log := LogFills(l.log, jobs)), jobs);
  }

  lemma {:induction false} FundKeepsTotal(l: Ledger, event: FundingEvent, mark: int)
    requires OneTotal(l)
    ensures OneTotal(Fund(l, event, mark))
  {
    hide FundingPnl, AfterFunding, BookPnl, OneTotal;
    TotalIgnoresAccount(l, AfterFunding(l.account, event, mark));
    BookPnlKeepsTotal(l.(account := AfterFunding(l.account, event, mark)), event.tsExchange,
                      FundingPnl(l.account, event, mark), false);
  }

  lemma {:induction false} SettleKilled(l: Ledger, jobs: seq<FillJob>)
    requires l.guard.killed
    ensures SettleAll(l, jobs).guard.killed
  {
    hide SatAdd;
    if jobs != [] {
      SettleKilled(l, jobs[..|jobs| - 1]);
    }
  }

  // Once the limit was reached, no later PnL brings trading back.
  lemma {:induction false} KilledStays(l: Ledger, jobs: seq<FillJob>)
    requires l.guard.killed
    ensures Record(l, jobs).guard.killed
  {
    SettleKilled(l.(log := LogFills(l.log, jobs)), jobs);
  }
}
