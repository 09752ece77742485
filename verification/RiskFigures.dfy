// The figures that the summary updates one profit at a time are those of the whole PnL history: mean,
// squared deviations, squared losses, and the deepest fall of the equity from an earlier peak. Ratios
// are taken over the reals.
module RiskFigures {
  import opened Types
  import opened Arith
  import opened Accounts
  import opened Stats
  import opened Ledgers

  // ---- The figures of a history ------------------------------------------------------------------------

  function TotalPnl(h: History): real {
    if h == [] then 0.0 else TotalPnl(h[..|h| - 1]) + h[|h| - 1].1 as real
  }

  function Times(x: real, y: real): real {
    x * y
  }

  function Square(x: real): real {
    Times(x, x)
  }

  // The sum of the squared distances from a value.
  function SquaresAbout(h: History, m: real): real {
    if h == [] then 0.0 else SquaresAbout(h[..|h| - 1], m) + Square(h[|h| - 1].1 as real - m)
  }

  function LossSquares(h: History): real {
    if h == [] then 0.0
    else
      var pnl := h[|h| - 1].1;
      LossSquares(h[..|h| - 1]) + if pnl < 0 then Square(pnl as real) else 0.0
  }

  // When the equity curve first reached its highest point.
  function PeakTime(h: History): int
    requires h != []
  {
    if |h| == 1 || SatSum(h) > Peak(h[..|h| - 1]) then h[|h| - 1].0 else PeakTime(h[..|h| - 1])
  }

  // How far below its earlier peak the equity stands after the i-th profit.
  function FallAt(h: History, i: nat): real
    requires i < |h|
  {
    var g := h[..i + 1];
    if Peak(g) > 0 then FallPercent(Peak(g), SatSum(g)) else 0.0
  }

  ghost predicate MomentsOk(h: History, m: Moments) {
    && m.mean * |h| as real == TotalPnl(h)
    && m.deviations == SquaresAbout(h, m.mean)
    && m.downside == LossSquares(h)
  }

  // The deepest fall was first reached here, this long after the peak before it.
  ghost predicate DeepestAt(h: History, d: Drawdown, i: nat) {
    && i < |h| && FallAt(h, i) == d.worst && d.duration == Clamp(h[i].0 - PeakTime(h[..i + 1]))
    && forall j :: 0 <= j < i ==> FallAt(h, j) < d.worst
  }

  ghost predicate DrawdownOk(h: History, d: Drawdown) {
    && (h != [] ==> d.peakTs == PeakTime(h))
    && d.worst >= 0.0 && (forall i :: 0 <= i < |h| ==> FallAt(h, i) <= d.worst)
    && (d.worst > 0.0 ==> exists i: nat :: DeepestAt(h, d, i))
  }

  ghost predicate FiguresOk(l: LogState) {
    l.mode != NoLog ==>
      && l.summary.pnlCount == |l.history| && l.summary.equity == SatSum(l.history)
      && (l.history != [] ==> l.summary.peakEquity == Peak(l.history))
      && MomentsOk(l.history, l.summary.moments) && DrawdownOk(l.history, l.summary.drawdown)
  }

  // ---- The peak ------------------------------------------------------------------------------------------

  // It is the highest point of the curve, and no earlier point is as high.
  lemma {:induction false} PeakIsFirstHighest(h: History) returns (k: nat)
    requires h != []
    ensures 0 < k <= |h| && SatSum(h[..k]) == Peak(h) && h[k - 1].0 == PeakTime(h)
    ensures forall j :: 0 < j < k ==> SatSum(h[..j]) < Peak(h)
    ensures forall j :: 0 < j <= |h| ==> SatSum(h[..j]) <= Peak(h)
  {
    hide SatSum;
    var n := |h| - 1;
    assert h[..n + 1] == h;
    if n == 0 {
      k := 1;
    } else {
      var g := h[..n];
      k := PeakIsFirstHighest(g);
      forall j | 0 < j <= n ensures h[..j] == g[..j] {}
      if SatSum(h) > Peak(g) {
        k := n + 1;
      }
    }
  }

  // ---- One more profit -------------------------------------------------------------------------------------

  lemma {:induction false} Extended(h: History, p: (int, int))
    ensures (h + [p])[..|h|] == h && |h + [p]| == |h| + 1 && (h + [p])[|h|] == p
  {
  }

  lemma {:induction false} DistributeReal(v: real, x: real, y: real)
    ensures v * (x + y) == v * x + v * y
  {
  }

  // What one more profit adds to both sides of the shift.
  lemma {:induction false} ShiftAlgebra(v: real, a: real, x: real, t: real, n: real)
    ensures 2.0 * v * (t + x - a * (n + 1.0)) + (n + 1.0) * Square(v)
            == 2.0 * v * (t - a * n) + n * Square(v) + 2.0 * v * (x - a) + Square(v)
  {
    hide Square;
    DistributeReal(a, n, 1.0);
    assert t + x - a * (n + 1.0) == (t - a * n) + (x - a);
    DistributeReal(2.0 * v, t - a * n, x - a);
    DistributeReal(Square(v), n, 1.0);
  }

  lemma {:induction false} ShiftOne(x: real, a: real, b: real)
    ensures Square(x - b) == Square(x - a) + 2.0 * (a - b) * (x - a) + Square(a - b)
  {
    var u, v := x - a, a - b;
    assert x - b == u + v;
    assert (u + v) * (u + v) == u * u + 2.0 * (u * v) + v * v;
  }

  // The sum of squares about another value.
  lemma {:induction false} ShiftSquares(h: History, a: real, b: real)
    ensures SquaresAbout(h, b)
            == SquaresAbout(h, a) + 2.0 * (a - b) * (TotalPnl(h) - a * |h| as real) + |h| as real * Square(a - b)
  {
    hide Square;
    if h != [] {
      var g, x := h[..|h| - 1], h[|h| - 1].1 as real;
      ShiftSquares(g, a, b);
      ShiftOne(x, a, b);
      ShiftAlgebra(a - b, a, x, TotalPnl(g), |g| as real);
      assert |h| as real == |g| as real + 1.0;
    }
  }

  // The step of the running variance: n e^2 + r^2 = d r when d = (n + 1) e and r = d - e.
  lemma {:induction false} WelfordStep(n: real, e: real, d: real, r: real)
    requires d == (n + 1.0) * e && r == d - e
    ensures n * Square(e) + Square(r) == Times(d, r)
  {
    assert r == n * e;
    assert n * (e * e) == r * e;
    assert r * e + r * r == r * (e + r);
  }

  lemma {:induction false} MeanStep(mean: real, x: real, n: nat) returns (e: real)
    ensures e == (x - mean) / (n + 1) as real && x - mean == (n as real + 1.0) * e
    ensures (mean + e) * (n + 1) as real == mean * n as real + x
  {
    var k := (n + 1) as real;
    e := (x - mean) / k;
    assert e * k == x - mean;
    assert k == n as real + 1.0;
    assert (mean + e) * k == mean * k + e * k;
    assert mean * k == mean * n as real + mean;
  }

  lemma {:induction false} SquareOfNegative(e: real)
    ensures Square(-e) == Square(e)
  {
  }

  lemma {:induction false} NoShift(v: real, z: real)
    requires z == 0.0
    ensures v * z == 0.0
  {
  }

  // Shifted to a value at distance e from the mean, the squares grow by n e^2.
  lemma {:induction false} ShiftFromMean(h: History, mean: real, e: real)
    requires mean * |h| as real == TotalPnl(h)
    ensures SquaresAbout(h, mean + e) == SquaresAbout(h, mean) + |h| as real * Square(e)
  {
    hide SquaresAbout, TotalPnl, Square;
    ShiftSquares(h, mean, mean + e);
    assert mean - (mean + e) == -e;
    SquareOfNegative(e);
    NoShift(2.0 * (mean - (mean + e)), TotalPnl(h) - mean * |h| as real);
  }

  // About the new mean the squares grow by what the running update adds.
  lemma {:induction false} DeviationsStep(h: History, mean: real, x: real, e: real)
    requires mean * |h| as real == TotalPnl(h) && x - mean == (|h| as real + 1.0) * e
    ensures SquaresAbout(h, mean + e) + Square(x - (mean + e))
            == SquaresAbout(h, mean) + Times(x - mean, x - (mean + e))
  {
    hide SquaresAbout, TotalPnl, Square, Times;
    ShiftFromMean(h, mean, e);
    WelfordStep(|h| as real, e, x - mean, x - (mean + e));
  }

  lemma {:induction false} SumsGrow(h: History, p: (int, int), m: real)
    ensures TotalPnl(h + [p]) == TotalPnl(h) + p.1 as real
    ensures SquaresAbout(h + [p], m) == SquaresAbout(h, m) + Square(p.1 as real - m)
    ensures LossSquares(h + [p]) == LossSquares(h) + if p.1 < 0 then Square(p.1 as real) else 0.0
  {
    hide Square;
    Extended(h, p);
  }

  lemma {:induction false} MomentsForm(m: Moments, count: nat, pnl: int, e: real)
    requires count > 0 && e == (pnl as real - m.mean) / count as real
    ensures
      var x := pnl as real;
      MomentsAfter(m, count, pnl)
      == Moments(m.mean + e, m.deviations + Times(x - m.mean, x - (m.mean + e)),
                 if pnl < 0 then m.downside + Square(x) else m.downside)
  {
    var x := pnl as real;
    var mean := m.mean + (x - m.mean) / count as real;
    var m' := MomentsAfter(m, count, pnl);
    assert m'.mean == mean == m.mean + e;
    assert m'.deviations == m.deviations + Times(x - m.mean, x - mean);
    assert m'.downside == if pnl < 0 then m.downside + Square(x) else m.downside;
    hide Times, Square, MomentsAfter;
  }

  lemma {:induction false} MomentsStep(h: History, m: Moments, ts: int, pnl: int)
    requires MomentsOk(h, m)
    ensures MomentsOk(h + [(ts, pnl)], MomentsAfter(m, |h| + 1, pnl))
  {
    hide SquaresAbout, LossSquares, TotalPnl, Square, Times, MomentsAfter;
    var x := pnl as real;
    var e := MeanStep(m.mean, x, |h|);
    MomentsForm(m, |h| + 1, pnl, e);
    DeviationsStep(h, m.mean, x, e);
    SumsGrow(h, (ts, pnl), m.mean + e);
  }

  lemma {:induction false} SamePrefix(h: History, p: (int, int), k: nat)
    requires k <= |h|
    ensures (h + [p])[..k] == h[..k]
  {
  }

  lemma {:induction false} FallsBefore(h: History, p: (int, int), i: nat)
    requires i < |h|
    ensures FallAt(h + [p], i) == FallAt(h, i)
    ensures (h + [p])[..i + 1] == h[..i + 1] && (h + [p])[i] == h[i]
  {
    SamePrefix(h, p, i + 1);
    hide Peak, SatSum, FallPercent;
  }

  // The fall at the newest point.
  lemma {:induction false} FallNow(h: History, p: (int, int), peak: int)
    requires h != [] ==> peak == Peak(h)
    ensures
      var h' := h + [p];
      var newPeak := h == [] || SatSum(h') > peak;
      && Peak(h') == (if newPeak then SatSum(h') else peak)
      && (newPeak ==> PeakTime(h') == p.0) && (!newPeak ==> PeakTime(h') == PeakTime(h))
      && FallAt(h', |h|) == (if newPeak || peak <= 0 then 0.0 else FallPercent(peak, SatSum(h')))
  {
    var h' := h + [p];
    Extended(h, p);
    assert h'[..|h| + 1] == h';
    hide SatSum;
  }

  lemma {:induction false} DeepestKept(h: History, d: Drawdown, d': Drawdown, p: (int, int))
    requires (exists i: nat :: DeepestAt(h, d, i)) && d'.worst == d.worst && d'.duration == d.duration
    ensures exists i: nat :: DeepestAt(h + [p], d', i)
  {
    hide PeakTime, FallAt, Clamp;
    var i: nat :| DeepestAt(h, d, i);
    FallsBefore(h, p, i);
    forall j | 0 <= j < i ensures FallAt(h + [p], j) < d'.worst {
      FallsBefore(h, p, j);
    }
    assert DeepestAt(h + [p], d', i);
  }

  lemma {:induction false} DrawdownStep(h: History, d: Drawdown, peak: int, p: (int, int))
    requires DrawdownOk(h, d) && (h != [] ==> peak == Peak(h))
    ensures
      var h' := h + [p];
      DrawdownOk(h', DrawdownAfter(d, h == [] || SatSum(h') > peak, peak, SatSum(h'), p.0))
  {
    var h', n := h + [p], |h|;
    var d' := DrawdownAfter(d, h == [] || SatSum(h') > peak, peak, SatSum(h'), p.0);
    FallNow(h, p, peak);
    hide SatSum, Peak, PeakTime, FallAt, FallPercent, Clamp;
    assert h'[..n + 1] == h';
    forall i | 0 <= i < |h'| ensures FallAt(h', i) <= d'.worst {
      if i < n {
        FallsBefore(h, p, i);
      }
    }
    if d'.worst > d.worst {
      forall j | 0 <= j < n ensures FallAt(h', j) < d'.worst {
        FallsBefore(h, p, j);
      }
      assert DeepestAt(h', d', n);
    } else if d'.worst > 0.0 {
      DeepestKept(h, d, d', p);
    }
  }

  // ---- The log -----------------------------------------------------------------------------------------------

  lemma {:induction false} PnlKeepsFigures(l: LogState, ts: int, pnl: int, isTrade: bool)
    requires FiguresOk(l)
    ensures FiguresOk(LogPnl(l, ts, pnl, isTrade))
  {
    if l.mode != NoLog {
      var h, p := l.history, (ts, pnl);
      MomentsStep(h, l.summary.moments, ts, pnl);
      DrawdownStep(h, l.summary.drawdown, l.summary.peakEquity, p);
      FallNow(h, p, l.summary.peakEquity);
      Extended(h, p);
      assert SatSum(h + [p]) == SatAdd(SatSum(h), pnl);
      hide SatSum, Peak, PeakTime, MomentsOk, DrawdownOk, MomentsAfter, DrawdownAfter, FallAt;
    }
  }

  lemma {:induction false} FillKeepsFigures(l: LogState, f: TradeFill)
    requires FiguresOk(l)
    ensures FiguresOk(LogFill(l, f))
  {
    hide SatSum, Peak, MomentsOk, DrawdownOk, SatAdd, FillGain, HoldingPeriod, BookFill;
  }

  lemma {:induction false} FillsKeepFigures(l: LogState, jobs: seq<FillJob>)
    requires FiguresOk(l)
    ensures FiguresOk(LogFills(l, jobs))
  {
    hide FiguresOk, LogFill;
    if jobs != [] {
      FillsKeepFigures(l, jobs[..|jobs| - 1]);
      FillKeepsFigures(LogFills(l, jobs[..|jobs| - 1]), jobs[|jobs| - 1].fill);
    }
  }

  lemma {:induction false} SettleKeepsFigures(l: Ledger, jobs: seq<FillJob>)
    requires FiguresOk(l.log)
    ensures FiguresOk(SettleAll(l, jobs).log)
  {
    hide FiguresOk, LogPnl, AfterFill, NetPnl;
    if jobs != [] {
      var prev, j := SettleAll(l, jobs[..|jobs| - 1]), jobs[|jobs| - 1];
      SettleKeepsFigures(l, jobs[..|jobs| - 1]);
      PnlKeepsFigures(prev.log, j.fill.tsExchange, NetPnl(prev.account, j), true);
    }
  }

  // Recording fills and booking funding keep the figures those of the history.
  lemma {:induction false} RecordKeepsFigures(l: Ledger, jobs: seq<FillJob>)
    requires FiguresOk(l.log)
    ensures FiguresOk(Record(l, jobs).log)
  {
    hide FiguresOk, LogFills, SettleAll;
    FillsKeepFigures(l.log, jobs);
    SettleKeepsFigures(l.(log := LogFills(l.log, jobs)), jobs);
  }

  lemma {:induction false} FundKeepsFigures(l: Ledger, event: FundingEvent, mark: int)
    requires FiguresOk(l.log)
    ensures FiguresOk(Fund(l, event, mark).log)
  {
    hide FiguresOk, LogPnl, AfterFunding, FundingPnl;
    PnlKeepsFigures(l.log, event.tsExchange, FundingPnl(l.account, event, mark), false);
  }

  lemma {:induction false} NewFigures(mode: TradeLogMode)
    ensures FiguresOk(NewLog(mode))
  {
  }
}
