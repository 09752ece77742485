// The trade log, its incremental summary, and the batch recomputation from stored fills.
module Stats {
  import opened Types
  import opened Arith
  import opened AvgCost

  datatype TradeFill = TradeFill(
    tsExchange: int,
    orderId: int,
    price: int,
    qty: int,
    fee: int,
    symbolId: int,
    side: Side,
    isTaker: bool)

  datatype TradeLogMode = All | RingBuffer(cap: nat) | SummaryOnly | NoLog

  type Lots = map<int, Lot>

  function LotOf(lots: Lots, symbol: int): Lot {
    if symbol in lots then lots[symbol] else FLAT
  }

  // The position change a logged fill stands for; a non-positive quantity stands for none.
  function DeltaOf(f: TradeFill): int {
    if f.qty <= 0 then 0 else Signed(f.side, f.qty)
  }

  function BookFill(lots: Lots, f: TradeFill): Lots {
    if DeltaOf(f) == 0 then lots
    else lots[f.symbolId := NextLot(LotOf(lots, f.symbolId), DeltaOf(f), f.price, f.tsExchange)]
  }

  function FillGain(lots: Lots, f: TradeFill): int {
    Realised(LotOf(lots, f.symbolId), DeltaOf(f), f.price)
  }

  function HoldingPeriod(lots: Lots, f: TradeFill): int {
    if FillGain(lots, f) == 0 then 0 else Clamp(f.tsExchange - LotOf(lots, f.symbolId).openTs)
  }

  function LotsAfter(fills: seq<TradeFill>): Lots {
    if fills == [] then map[]
    else BookFill(LotsAfter(fills[..|fills| - 1]), fills[|fills| - 1])
  }

  // ---- Batch recomputation from the stored fills ----------------------------------------

  datatype PnlDelta = PnlDelta(tsExchange: int, pnl: int, holdingPeriod: int)

  function DeltaFor(lots: Lots, f: TradeFill): PnlDelta {
    PnlDelta(f.tsExchange, FillGain(lots, f), HoldingPeriod(lots, f))
  }

  function PnlDeltas(fills: seq<TradeFill>): seq<PnlDelta> {
    if fills == [] then []
    else
      var init := fills[..|fills| - 1];
      PnlDeltas(init) + [DeltaFor(LotsAfter(init), fills[|fills| - 1])]
  }

  method PnlDeltasFromFills(fills: seq<TradeFill>) returns (deltas: seq<PnlDelta>)
    ensures deltas == PnlDeltas(fills)
  {
    hide TruncDiv, Clamp, SatAdd, Sign;
    var lots: Lots := map[];
    deltas := [];
    for i := 0 to |fills|
      invariant lots == LotsAfter(fills[..i])
      invariant deltas == PnlDeltas(fills[..i])
    {
      var f := fills[i];
      assert fills[..i + 1][..i] == fills[..i];
      var delta := if f.qty <= 0 then 0 else Signed(f.side, f.qty);
      if delta == 0 {
        deltas := deltas + [PnlDelta(f.tsExchange, 0, 0)];
        continue;
      }
      var s := if f.symbolId in lots then lots[f.symbolId] else FLAT;
      var qty, avg, openTs := s.qty, s.avgPrice, s.openTs;
      if qty == 0 || Sign(qty) == Sign(delta) {
        if qty == 0 {
          openTs := f.tsExchange;
        }
        var newAbs := Abs(qty) + Abs(delta);
        var weighted := avg * Abs(qty) + f.price * Abs(delta);
        avg := Clamp(TruncDiv(weighted, newAbs));
        qty := SatAdd(qty, delta);
        deltas := deltas + [PnlDelta(f.tsExchange, 0, 0)];
      } else {
        var closed := if Abs(qty) <= Abs(delta) then Abs(qty) else Abs(delta);
        var perUnit := if qty > 0 then f.price - avg else avg - f.price;
        var pnl := Clamp(TruncDiv(perUnit * closed, SCALE));
        var holding := if pnl != 0 then Clamp(f.tsExchange - openTs) else 0;
        var newQty := SatAdd(qty, delta);
        if newQty == 0 {
          avg := 0;
        } else if Sign(newQty) != Sign(qty) {
          avg := f.price;
          openTs := f.tsExchange;
        }
        qty := newQty;
        deltas := deltas + [PnlDelta(f.tsExchange, pnl, holding)];
      }
      lots := lots[f.symbolId := Lot(qty, avg, openTs)];
    }
    assert fills[..|fills|] == fills;
  }

  lemma {:induction false} PnlDeltasAt(fills: seq<TradeFill>, i: nat)
    requires i < |fills|
    ensures |PnlDeltas(fills)| == |fills|
    ensures PnlDeltas(fills)[i] == DeltaFor(LotsAfter(fills[..i]), fills[i])
  {
    var init := fills[..|fills| - 1];
    if i < |init| {
      PnlDeltasAt(init, i);
      assert init[..i] == fills[..i];
    } else if |init| > 0 {
      PnlDeltasAt(init, 0);
    }
  }

  // ---- Equity curve ------------------------------------------------------------------------

  type History = seq<(int, int)>

  // The running 64-bit saturating total.
  function SatSum(h: History): int {
    if h == [] then 0 else SatAdd(SatSum(h[..|h| - 1]), h[|h| - 1].1)
  }

  // The highest point of the equity curve.
  function Peak(h: History): int
    requires h != []
  {
    if |h| == 1 then SatSum(h) else Max(Peak(h[..|h| - 1]), SatSum(h))
  }

  // Every point is the saturating total of the history up to and including it.
  function Curve(h: History): History {
    seq(|h|, i requires 0 <= i < |h| => (h[i].0, SatSum(h[..i + 1])))
  }

  lemma {:induction false} CurveEmpty()
    ensures SatSum([]) == 0 && Curve([]) == []
  {
  }

  lemma {:induction false} CurveStep(h: History, i: nat)
    requires i < |h|
    ensures SatSum(h[..i + 1]) == SatAdd(SatSum(h[..i]), h[i].1)
    ensures Curve(h[..i + 1]) == Curve(h[..i]) + [(h[i].0, SatSum(h[..i + 1]))]
  {
    hide SatAdd;
    var g := h[..i + 1];
    assert g[..i] == h[..i] && g[..i + 1] == g && g[i] == h[i];
    assert SatSum(g) == SatAdd(SatSum(g[..|g| - 1]), g[|g| - 1].1);
    forall j | 0 <= j < i ensures Curve(h[..i + 1])[j] == Curve(h[..i])[j] {
      assert h[..i + 1][..j + 1] == h[..i][..j + 1];
    }
  }

  method EquityCurve(h: History) returns (curve: History)
    ensures curve == Curve(h)
  {
    var equity := 0;
    curve := [];
    for i := 0 to |h|
      invariant equity == SatSum(h[..i]) && curve == Curve(h[..i])
    {
      CurveStep(h, i);
      equity := SatAdd(equity, h[i].1);
      curve := curve + [(h[i].0, equity)];
    }
    assert h[..|h|] == h;
  }

  // The four-at-a-time form of the same prefix sum.
  method EquityCurveUnrolled(h: History) returns (curve: History)
    ensures curve == Curve(h)
  {
    hide SatAdd, SatSum, Curve;
    var equity := 0;
    curve := [];
    CurveEmpty();
    var i := 0;
    while i + 4 <= |h|
      invariant 0 <= i <= |h| && equity == SatSum(h[..i]) && curve == Curve(h[..i])
    {
      CurveStep(h, i);
      CurveStep(h, i + 1);
      CurveStep(h, i + 2);
      CurveStep(h, i + 3);
      var e0 := SatAdd(equity, h[i].1);
      var e1 := SatAdd(e0, h[i + 1].1);
      var e2 := SatAdd(e1, h[i + 2].1);
      var e3 := SatAdd(e2, h[i + 3].1);
      curve := curve + [(h[i].0, e0)] + [(h[i + 1].0, e1)] + [(h[i + 2].0, e2)] + [(h[i + 3].0, e3)];
      equity := e3;
      i := i + 4;
    }
    while i < |h|
      invariant 0 <= i <= |h| && equity == SatSum(h[..i]) && curve == Curve(h[..i])
    {
      CurveStep(h, i);
      equity := SatAdd(equity, h[i].1);
      curve := curve + [(h[i].0, equity)];
      i := i + 1;
    }
    assert h[..|h|] == h;
  }

  // ---- Incremental summary --------------------------------------------------------------

  // Running mean, sum of squared deviations, and sum of squared losses of the booked profits.
  datatype Moments = Moments(mean: real, deviations: real, downside: real)

  // The moments after the count-th profit.
  function MomentsAfter(m: Moments, count: nat, pnl: int): Moments
    requires count > 0
  {
    var x := pnl as real;
    var mean := m.mean + (x - m.mean) / count as real;
    Moments(mean, m.deviations + (x - m.mean) * (x - mean), if pnl < 0 then m.downside + x * x else m.downside)
  }

  // When the equity peaked, the deepest fall from a peak in percent, and how long that fall took.
  datatype Drawdown = Drawdown(peakTs: int, worst: real, duration: int)

  function FallPercent(peak: int, equity: int): real
    requires peak > 0
  {
    var percent := (peak - equity) as real / peak as real * 100.0;
    if percent > 100.0 then 100.0 else percent
  }

  function DrawdownAfter(d: Drawdown, newPeak: bool, peak: int, equity: int, ts: int): Drawdown {
    if newPeak then d.(peakTs := ts)
    else if peak <= 0 then d
    else
      var percent := FallPercent(peak, equity);
      if percent > d.worst then d.(worst := percent, duration := Clamp(ts - d.peakTs)) else d
  }

  datatype Summary = Summary(
    totalTrades: nat,
    totalPnl: int,
    grossProfit: int,
    grossLoss: int,
    winCount: nat,
    totalFees: int,
    totalHolding: int,
    closedTrades: nat,
    pnlCount: nat,
    equity: int,
    peakEquity: int,
    moments: Moments,
    drawdown: Drawdown,
    lots: Lots)

  const EMPTY_SUMMARY :=
    Summary(0, 0, 0, 0, 0, 0, 0, 0, 0, 0, 0, Moments(0.0, 0.0, 0.0), Drawdown(0, 0.0, 0), map[])

  function SummaryFill(s: Summary, f: TradeFill): Summary {
    s.(totalTrades := s.totalTrades + 1,
       totalFees := SatAdd(s.totalFees, f.fee),
       totalHolding :=
         if FillGain(s.lots, f) != 0 then SatAdd(s.totalHolding, HoldingPeriod(s.lots, f)) else s.totalHolding,
       closedTrades := s.closedTrades + if FillGain(s.lots, f) != 0 then 1 else 0,
       lots := BookFill(s.lots, f))
  }

  function SummaryPnl(s: Summary, ts: int, pnl: int, isTrade: bool): Summary {
    var equity := SatAdd(s.equity, pnl);
    var newPeak := s.pnlCount == 0 || equity > s.peakEquity;
    s.(totalPnl := SatAdd(s.totalPnl, pnl),
       grossProfit := if isTrade && pnl > 0 then SatAdd(s.grossProfit, pnl) else s.grossProfit,
       grossLoss := if isTrade && pnl < 0 then SatAdd(s.grossLoss, pnl) else s.grossLoss,
       winCount := s.winCount + if isTrade && pnl > 0 then 1 else 0,
       pnlCount := s.pnlCount + 1,
       equity := equity,
       peakEquity := if newPeak then equity else s.peakEquity,
       moments := MomentsAfter(s.moments, s.pnlCount + 1, pnl),
       drawdown := DrawdownAfter(s.drawdown, newPeak, s.peakEquity, equity, ts))
  }

  datatype LogState = LogState(
    mode: TradeLogMode,
    fills: seq<TradeFill>,
    ring: seq<TradeFill>,
    history: History,
    summary: Summary)

  function NewLog(mode: TradeLogMode): LogState {
    LogState(mode, [], [], [], EMPTY_SUMMARY)
  }

  // A full ring drops its oldest fill first; a ring of capacity 0 still keeps the newest.
  function RingPush(ring: seq<TradeFill>, cap: nat, f: TradeFill): seq<TradeFill> {
    (if ring != [] && |ring| >= cap then ring[1..] else ring) + [f]
  }

  // How many fills a ring of this capacity really keeps.
  function Capacity(cap: nat): nat {
    if cap == 0 then 1 else cap
  }

  function LastFills(fills: seq<TradeFill>, n: nat): seq<TradeFill> {
    if |fills| <= n then fills else fills[|fills| - n..]
  }

  // A ring that holds the last fills still does after one more.
  lemma {:induction false} RingHoldsLast(fills: seq<TradeFill>, cap: nat, f: TradeFill)
    ensures RingPush(LastFills(fills, Capacity(cap)), cap, f) == LastFills(fills + [f], Capacity(cap))
  {
  }

  function LogFill(l: LogState, f: TradeFill): LogState {
    match l.mode
    case All => l.(fills := l.fills + [f], summary := SummaryFill(l.summary, f))
    case RingBuffer(cap) => l.(ring := RingPush(l.ring, cap, f), summary := SummaryFill(l.summary, f))
    case SummaryOnly => l.(summary := SummaryFill(l.summary, f))
    case NoLog => l
  }

  function LogPnl(l: LogState, ts: int, pnl: int, isTrade: bool): LogState {
    if l.mode == NoLog then l
    else l.(history := l.history + [(ts, pnl)], summary := SummaryPnl(l.summary, ts, pnl, isTrade))
  }

  class TradeLog {
    const mode: TradeLogMode
    var fills: seq<TradeFill>
    var ring: seq<TradeFill>
    var history: History
    var incremental: IncrementalStats

    predicate Valid()
      reads this
    {
      (incremental as object) != this
    }

    function State(): LogState
      reads this, incremental
    {
      LogState(mode, fills, ring, history, incremental.State())
    }

    constructor (mode: TradeLogMode)
      ensures Valid() && State() == NewLog(mode) && fresh(incremental)
    {
      this.mode := mode;
      fills, ring, history := [], [], [];
      incremental := new IncrementalStats();
    }

    method PushFill(f: TradeFill)
      requires Valid()
      modifies this, incremental
      ensures Valid() && incremental == old(incremental)
      ensures State() == LogFill(old(State()), f)
    {
      match mode {
        case All =>
          fills := fills + [f];
          incremental.OnFill(f);
        case RingBuffer(cap) =>
          if |ring| >= cap && ring != [] {
            ring := ring[1..];
          }
          ring := ring + [f];
          incremental.OnFill(f);
        case SummaryOnly =>
          incremental.OnFill(f);
        case NoLog =>
      }
    }

    method PushPnl(ts: int, pnl: int, isTrade: bool)
      requires Valid()
      modifies this, incremental
      ensures Valid() && incremental == old(incremental)
      ensures State() == LogPnl(old(State()), ts, pnl, isTrade)
    {
      if mode != NoLog {
        history := history + [(ts, pnl)];
        incremental.OnPnl(ts, pnl, isTrade);
      }
    }
  }

  class IncrementalStats {
    var totalTrades: nat
    var totalPnl: int
    var grossProfit: int
    var grossLoss: int
    var winCount: nat
    var totalFees: int
    var totalHolding: int
    var closedTrades: nat
    var pnlCount: nat
    var equity: int
    var peakEquity: int
    var peakTs: int
    var pnlMean: real
    var pnlDeviations: real
    var downside: real
    var maxDrawdown: real
    var maxDrawdownDuration: int
    var lots: Lots

    function State(): Summary
      reads this
    {
      Summary(totalTrades, totalPnl, grossProfit, grossLoss, winCount, totalFees, totalHolding,
              closedTrades, pnlCount, equity, peakEquity, Moments(pnlMean, pnlDeviations, downside),
              Drawdown(peakTs, maxDrawdown, maxDrawdownDuration), lots)
    }

    constructor ()
      ensures State() == EMPTY_SUMMARY
    {
      totalTrades, totalPnl, grossProfit, grossLoss, winCount := 0, 0, 0, 0, 0;
      totalFees, totalHolding, closedTrades, pnlCount := 0, 0, 0, 0;
      equity, peakEquity, peakTs, lots := 0, 0, 0, map[];
      pnlMean, pnlDeviations, downside, maxDrawdown, maxDrawdownDuration := 0.0, 0.0, 0.0, 0.0, 0;
    }

    method OnFill(f: TradeFill)
      modifies this
      ensures State() == SummaryFill(old(State()), f)
    {
      hide TruncDiv, Clamp, SatAdd, Sign;
      totalTrades := totalTrades + 1;
      totalFees := SatAdd(totalFees, f.fee);
      if f.qty <= 0 {
        return;
      }
      var delta := Signed(f.side, f.qty);
      if delta == 0 {
        return;
      }
      var s := if f.symbolId in lots then lots[f.symbolId] else FLAT;
      var qty, avg, openTs := s.qty, s.avgPrice, s.openTs;
      if qty == 0 || Sign(qty) == Sign(delta) {
        if qty == 0 {
          openTs := f.tsExchange;
        }
        var newAbs := Abs(qty) + Abs(delta);
        var weighted := avg * Abs(qty) + f.price * Abs(delta);
        avg := Clamp(TruncDiv(weighted, newAbs));
        qty := SatAdd(qty, delta);
      } else {
        var closed := if Abs(qty) <= Abs(delta) then Abs(qty) else Abs(delta);
        var perUnit := if qty > 0 then f.price - avg else avg - f.price;
        var pnl := Clamp(TruncDiv(perUnit * closed, SCALE));
        if pnl != 0 {
          totalHolding := SatAdd(totalHolding, Clamp(f.tsExchange - openTs));
          closedTrades := closedTrades + 1;
        }
        var newQty := SatAdd(qty, delta);
        if newQty == 0 {
          avg := 0;
        } else if Sign(newQty) != Sign(qty) {
          avg := f.price;
          openTs := f.tsExchange;
        }
        qty := newQty;
      }
      lots := lots[f.symbolId := Lot(qty, avg, openTs)];
    }

    method OnPnl(ts: int, pnl: int, isTrade: bool)
      modifies this
      ensures State() == SummaryPnl(old(State()), ts, pnl, isTrade)
    {
      hide SatAdd, MomentsAfter, DrawdownAfter;
      UpdateTotals(pnl, isTrade);
      pnlCount := pnlCount + 1;
      UpdateMoments(pnl);
      equity := SatAdd(equity, pnl);
      UpdateDrawdown(ts);
    }

    // Add one profit to the totals; only trades count as wins and losses.
    method UpdateTotals(pnl: int, isTrade: bool)
      modifies this`totalPnl, this`grossProfit, this`grossLoss, this`winCount
      ensures
        var s := old(State());
        State() == s.(totalPnl := SatAdd(s.totalPnl, pnl),
                      grossProfit := if isTrade && pnl > 0 then SatAdd(s.grossProfit, pnl) else s.grossProfit,
                      grossLoss := if isTrade && pnl < 0 then SatAdd(s.grossLoss, pnl) else s.grossLoss,
                      winCount := s.winCount + if isTrade && pnl > 0 then 1 else 0)
    {
      hide SatAdd;
      totalPnl := SatAdd(totalPnl, pnl);
      if isTrade {
        if pnl > 0 {
          grossProfit := SatAdd(grossProfit, pnl);
          winCount := winCount + 1;
        } else if pnl < 0 {
          grossLoss := SatAdd(grossLoss, pnl);
        }
      }
    }

    // Fold one profit into the running moments.
    method UpdateMoments(pnl: int)
      requires pnlCount > 0
      modifies this`pnlMean, this`pnlDeviations, this`downside
      ensures
        var s := old(State());
        State() == s.(moments := MomentsAfter(s.moments, s.pnlCount, pnl))
    {
      var x := pnl as real;
      var delta := x - pnlMean;
      pnlMean := pnlMean + delta / pnlCount as real;
      pnlDeviations := pnlDeviations + delta * (x - pnlMean);
      if pnl < 0 {
        downside := downside + x * x;
      }
    }

    // Compare the equity with its peak.
    method UpdateDrawdown(ts: int)
      requires pnlCount > 0
      modifies this`peakEquity, this`peakTs, this`maxDrawdown, this`maxDrawdownDuration
      ensures
        var s := old(State());
        var newPeak := s.pnlCount == 1 || s.equity > s.peakEquity;
        State() == s.(peakEquity := if newPeak then s.equity else s.peakEquity,
                      drawdown := DrawdownAfter(s.drawdown, newPeak, s.peakEquity, s.equity, ts))
    {
      hide FallPercent, Clamp;
      if pnlCount == 1 || equity > peakEquity {
        peakEquity, peakTs := equity, ts;
        return;
      }
      if peakEquity <= 0 {
        return;
      }
      var percent := FallPercent(peakEquity, equity);
      if percent > maxDrawdown {
        maxDrawdown, maxDrawdownDuration := percent, Clamp(ts - peakTs);
      }
    }
  }
}
