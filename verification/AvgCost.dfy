// The average-cost law that the backtester applies in three places: what one signed fill does to
// a holding, what it realises, and how far integer truncation lets the books drift from cash.
module AvgCost {
  import opened Arith

  // A holding: signed quantity, average entry price, time it was opened.
  datatype Lot = Lot(qty: int, avgPrice: int, openTs: int)

  const FLAT := Lot(0, 0, 0)

  // Does the fill open a holding or add to it, rather than work against it?
  predicate Opens(l: Lot, delta: int) {
    l.qty == 0 || Sign(l.qty) == Sign(delta)
  }

  function ClosedQty(l: Lot, delta: int): nat {
    if Abs(l.qty) <= Abs(delta) then Abs(l.qty) else Abs(delta)
  }

  // Gain per unit sold from a long, or bought back into a short.
  function PerUnit(l: Lot, price: int): int {
    if l.qty > 0 then price - l.avgPrice else l.avgPrice - price
  }

  // Gross profit realised by the fill.
  function Realised(l: Lot, delta: int, price: int): int {
    if delta == 0 || Opens(l, delta) then 0
    else Clamp(TruncDiv(PerUnit(l, price) * ClosedQty(l, delta), SCALE))
  }

  function Weighted(l: Lot, delta: int, price: int): int {
    l.avgPrice * Abs(l.qty) + price * Abs(delta)
  }

  function NextLot(l: Lot, delta: int, price: int, ts: int): Lot {
    if delta == 0 then l
    else
      var newQty := SatAdd(l.qty, delta);
      if Opens(l, delta) then
        Lot(newQty,
            Clamp(TruncDiv(Weighted(l, delta, price), Abs(l.qty) + Abs(delta))),
            if l.qty == 0 then ts else l.openTs)
      else if newQty == 0 then
        Lot(0, 0, l.openTs)
      else if Sign(newQty) == Sign(l.qty) then
        l.(qty := newQty)
      else
        Lot(newQty, price, ts)
  }

  // The part of a holding that the realised profit depends on.
  predicate SameCost(a: Lot, b: Lot) {
    a.qty == b.qty && a.avgPrice == b.avgPrice
  }

  // ---- Whole fill sequences -------------------------------------------------------------

  datatype Fill = Fill(delta: int, price: int, ts: int)

  function LotAfter(fills: seq<Fill>): Lot {
    if fills == [] then FLAT
    else
      var n := |fills| - 1;
      NextLot(LotAfter(fills[..n]), fills[n].delta, fills[n].price, fills[n].ts)
  }

  function TotalRealised(fills: seq<Fill>): int {
    if fills == [] then 0
    else
      var n := |fills| - 1;
      TotalRealised(fills[..n]) + Realised(LotAfter(fills[..n]), fills[n].delta, fills[n].price)
  }

  // Money received minus money paid, in units of price times quantity.
  function CashFlow(fills: seq<Fill>): int {
    if fills == [] then 0
    else
      var n := |fills| - 1;
      CashFlow(fills[..n]) - fills[n].price * fills[n].delta
  }

  function NetQty(fills: seq<Fill>): int {
    if fills == [] then 0 else NetQty(fills[..|fills| - 1]) + fills[|fills| - 1].delta
  }

  // The most that truncation can lose on one fill.
  function StepSlack(l: Lot, delta: int): nat {
    if delta == 0 then 0
    else if Opens(l, delta) then Abs(l.qty) + Abs(delta) - 1
    else SCALE - 1
  }

  function TotalSlack(fills: seq<Fill>): nat {
    if fills == [] then 0
    else
      var n := |fills| - 1;
      TotalSlack(fills[..n]) + StepSlack(LotAfter(fills[..n]), fills[n].delta)
  }

  // ---- Where the 64-bit registers do not clamp -------------------------------------------

  // The profit before it is clamped into its register.
  function RawProfit(l: Lot, f: Fill): int {
    TruncDiv(PerUnit(l, f.price) * ClosedQty(l, f.delta), SCALE)
  }

  // Price and new position are 64-bit numbers, and so is the price gap if the fill closes anything.
  predicate StepInRange(l: Lot, f: Fill) {
    && InI64(f.price)
    && Abs(l.qty + f.delta) <= I64_MAX
    && (f.delta != 0 && !Opens(l, f.delta) ==> InI64(PerUnit(l, f.price)))
  }

  predicate StepProfitFits(l: Lot, f: Fill) {
    f.delta == 0 || Opens(l, f.delta) || InI64(RawProfit(l, f))
  }

  predicate InRange(fills: seq<Fill>) {
    fills == []
    || (InRange(fills[..|fills| - 1]) && StepInRange(LotAfter(fills[..|fills| - 1]), fills[|fills| - 1]))
  }

  predicate ProfitsFit(fills: seq<Fill>) {
    fills == []
    || (ProfitsFit(fills[..|fills| - 1]) && StepProfitFits(LotAfter(fills[..|fills| - 1]), fills[|fills| - 1]))
  }

  // No fill of the sequence makes a register saturate or clamp.
  predicate Unclamped(fills: seq<Fill>) {
    InRange(fills) && ProfitsFit(fills)
  }

  lemma {:induction false} QuotientBelow(x: int, w: int, n: int, hi: int)
    requires n > 0 && w <= hi * n && (x * n <= w || (w <= x * n < w + n && w < 0))
    ensures x <= hi
  {
    if x > hi {
      MulMono(hi + 1, x, n);
      Distribute(hi, 1, n);
      assert false;
    }
  }

  // A quotient rounded toward zero stays between whole bounds.
  lemma {:induction false} TruncDivBetween(w: int, n: int, lo: int, hi: int)
    requires n > 0 && lo * n <= w <= hi * n
    ensures lo <= TruncDiv(w, n) <= hi
  {
    var x := TruncDiv(w, n);
    var m := Abs(w) / n;
    DivBounds(Abs(w), n);
    assert n * m == m * n && (-m) * n == -(m * n) && (-lo) * n == -(lo * n) && (-hi) * n == -(hi * n);
    if w >= 0 {
      assert x == m;
      hide TruncDiv;
      QuotientBelow(m, w, n, hi);
      QuotientBelow(-m, -w, n, -lo);
    } else {
      assert x == -m;
      hide TruncDiv;
      QuotientBelow(m, -w, n, -lo);
      QuotientBelow(-m, w, n, hi);
    }
  }

  lemma {:induction false} WeightedBetween(a: int, m: nat, price: int, n: nat, lo: int, hi: int)
    requires (m > 0 ==> lo <= a <= hi) && lo <= price <= hi
    ensures lo * (m + n) <= a * m + price * n <= hi * (m + n)
  {
    MulMono(lo, price, n);
    MulMono(price, hi, n);
    if m > 0 {
      MulMono(lo, a, m);
      MulMono(a, hi, m);
    }
    assert lo * (m + n) == lo * m + lo * n && hi * (m + n) == hi * m + hi * n;
  }

  // A flat holding has no average price; an open one averages within the bounds.
  predicate AveragesWithin(l: Lot, lo: int, hi: int) {
    if l.qty == 0 then l.avgPrice == 0 else lo <= l.avgPrice <= hi
  }

  lemma {:induction false} NextWithin(l: Lot, f: Fill, lo: int, hi: int)
    requires InI64(lo) && InI64(hi) && AveragesWithin(l, lo, hi) && lo <= f.price <= hi
    ensures AveragesWithin(NextLot(l, f.delta, f.price, f.ts), lo, hi)
  {
    if f.delta != 0 && Opens(l, f.delta) {
      WeightedBetween(l.avgPrice, Abs(l.qty), f.price, Abs(f.delta), lo, hi);
      hide TruncDiv;
      TruncDivBetween(Weighted(l, f.delta, f.price), Abs(l.qty) + Abs(f.delta), lo, hi);
    } else {
      hide TruncDiv;
    }
  }

  // The average price lies between the prices paid, clamps or no clamps.
  lemma {:induction false} AverageBetween(fills: seq<Fill>, lo: int, hi: int)
    requires InI64(lo) && InI64(hi) && forall i :: 0 <= i < |fills| ==> lo <= fills[i].price <= hi
    ensures AveragesWithin(LotAfter(fills), lo, hi)
  {
    hide NextLot;
    if fills != [] {
      hide AveragesWithin;
      AverageBetween(fills[..|fills| - 1], lo, hi);
      NextWithin(LotAfter(fills[..|fills| - 1]), fills[|fills| - 1], lo, hi);
    }
  }

  lemma {:induction false} PricesInRange(fills: seq<Fill>)
    requires InRange(fills)
    ensures forall i :: 0 <= i < |fills| ==> InI64(fills[i].price)
  {
    if fills != [] {
      PricesInRange(fills[..|fills| - 1]);
    }
  }

  lemma {:induction false} AverageInRange(fills: seq<Fill>)
    requires InRange(fills)
    ensures InI64(LotAfter(fills).avgPrice)
  {
    PricesInRange(fills);
    hide InRange, LotAfter;
    AverageBetween(fills, I64_MIN, I64_MAX);
  }

  // While no register saturates, the position is the signed sum of the fills.
  lemma {:induction false} PositionIsNetQty(fills: seq<Fill>)
    requires InRange(fills)
    ensures LotAfter(fills).qty == NetQty(fills)
  {
    hide TruncDiv, Weighted;
    if fills != [] {
      PositionIsNetQty(fills[..|fills| - 1]);
    }
  }

  // ---- A bound that keeps the registers in range -----------------------------------------

  // Prices up to p and positions up to q leave room for price gaps and profits in 64 bits.
  predicate SmallEnough(p: nat, q: nat) {
    2 * p <= I64_MAX && q <= I64_MAX && 2 * p * q <= SCALE * I64_MAX
  }

  lemma {:induction false} PriceInRange(p: nat, q: nat)
    requires SmallEnough(p, q)
    ensures 2 * p <= I64_MAX && q <= I64_MAX
  {
  }

  // Prices are at most p in magnitude, and so are positions at most q.
  predicate Fits(fills: seq<Fill>, p: nat, q: nat) {
    && SmallEnough(p, q)
    && (forall i :: 0 <= i < |fills| ==> Abs(fills[i].price) <= p)
    && (forall i :: 0 <= i <= |fills| ==> Abs(NetQty(fills[..i])) <= q)
  }

  lemma {:induction false} FitsPrefix(fills: seq<Fill>, p: nat, q: nat)
    requires |fills| > 0 && Fits(fills, p, q)
    ensures Fits(fills[..|fills| - 1], p, q)
    ensures Abs(NetQty(fills[..|fills| - 1])) <= q && Abs(NetQty(fills)) <= q
  {
    hide SmallEnough;
    var g := fills[..|fills| - 1];
    forall i | 0 <= i <= |g| ensures Abs(NetQty(g[..i])) <= q {
      assert g[..i] == fills[..i];
    }
    assert fills[..|fills|] == fills && g == fills[..|g|];
  }

  lemma {:induction false} ProfitUnclamped(l: Lot, f: Fill, p: nat, q: nat)
    requires SmallEnough(p, q) && Abs(l.avgPrice) <= p && Abs(f.price) <= p && Abs(l.qty) <= q
    ensures InI64(RawProfit(l, f))
  {
    var c := ClosedQty(l, f.delta);
    AbsMul(PerUnit(l, f.price), c);
    MulMono(Abs(PerUnit(l, f.price)), 2 * p, c);
    MulMono(c, q, 2 * p);
    assert 2 * p * c == c * (2 * p) && 2 * p * q == q * (2 * p);
    TruncDivBound(PerUnit(l, f.price) * c, SCALE, I64_MAX);
  }

  // Within such a bound no register saturates or clamps.
  lemma {:induction false} NoClampFires(fills: seq<Fill>, p: nat, q: nat)
    requires Fits(fills, p, q)
    ensures Unclamped(fills)
  {
    hide SmallEnough, RawProfit, NextLot;
    if fills != [] {
      var g, f := fills[..|fills| - 1], fills[|fills| - 1];
      FitsPrefix(fills, p, q);
      NoClampFires(g, p, q);
      PositionIsNetQty(g);
      PriceInRange(p, q);
      AverageBetween(g, 0 - p, p);
      ProfitUnclamped(LotAfter(g), f, p, q);
    }
  }

  // ---- Profit against cash -----------------------------------------------------------------

  lemma {:induction false} LongOpening(q: int, d: int, a: int, price: int, x: int)
    requires q >= 0 && d > 0
    requires Abs((a * q + price * d) - (q + d) * x) <= q + d - 1
    ensures Abs(x * (q + d) - a * q - price * d) <= q + d - 1
  {
  }

  // Opening or adding moves the cash plus book value only by the remainder of the average.
  lemma {:induction false} OpeningStep(l: Lot, delta: int, price: int, newAvg: int)
    requires delta != 0 && Opens(l, delta)
    requires newAvg == TruncDiv(Weighted(l, delta, price), Abs(l.qty) + Abs(delta))
    ensures Abs(newAvg * (l.qty + delta) - l.avgPrice * l.qty - price * delta)
            <= Abs(l.qty) + Abs(delta) - 1
  {
    TruncDivError(Weighted(l, delta, price), Abs(l.qty) + Abs(delta));
    if delta > 0 {
      LongOpening(l.qty, delta, l.avgPrice, price, newAvg);
    } else {
      LongOpening(-l.qty, -delta, l.avgPrice, price, newAvg);
      MulNeg(l.avgPrice, l.qty);
      MulNeg(price, delta);
      MulNeg(newAvg, l.qty + delta);
    }
  }

  lemma {:induction false} GapOf(a: int, b: int, q: int)
    ensures (b - a) * (-q) == (a - b) * q == q * a - q * b
  {
    Distribute(a, b, q);
    MulNeg(b - a, q);
    Distribute(b, a, q);
  }

  // Working against the holding releases exactly the price gap on the quantity closed.
  lemma {:induction false} ClosingStep(l: Lot, delta: int, price: int)
    requires delta != 0 && !Opens(l, delta)
    ensures
      var gap := PerUnit(l, price) * ClosedQty(l, delta);
      var newQty := l.qty + delta;
      var newAvg := if newQty == 0 then 0 else if Sign(newQty) == Sign(l.qty) then l.avgPrice else price;
      newAvg * newQty - l.avgPrice * l.qty - price * delta == gap
  {
    if Abs(delta) < Abs(l.qty) {
      Distribute(l.qty, delta, l.avgPrice);
      GapOf(l.avgPrice, price, delta);
    } else {
      Distribute(l.qty, delta, price);
      GapOf(l.avgPrice, price, l.qty);
    }
  }

  // How far realised profit may stand from cash flow plus the book value of what is still held.
  function Drift(fills: seq<Fill>): int {
    SCALE * TotalRealised(fills) - CashFlow(fills) - LotAfter(fills).avgPrice * LotAfter(fills).qty
  }

  // What one fill adds to the drift.
  function DriftChange(l: Lot, f: Fill): int {
    var l' := NextLot(l, f.delta, f.price, f.ts);
    SCALE * Realised(l, f.delta, f.price) + f.price * f.delta - l'.avgPrice * l'.qty + l.avgPrice * l.qty
  }

  lemma {:induction false} DriftOpening(l: Lot, f: Fill)
    requires f.delta != 0 && Opens(l, f.delta) && StepInRange(l, f) && InI64(l.avgPrice)
    ensures Abs(DriftChange(l, f)) <= StepSlack(l, f.delta)
  {
    var x := TruncDiv(Weighted(l, f.delta, f.price), Abs(l.qty) + Abs(f.delta));
    WeightedBetween(l.avgPrice, Abs(l.qty), f.price, Abs(f.delta), I64_MIN, I64_MAX);
    TruncDivBetween(Weighted(l, f.delta, f.price), Abs(l.qty) + Abs(f.delta), I64_MIN, I64_MAX);
    OpeningStep(l, f.delta, f.price, x);
    hide TruncDiv, Weighted;
    var l' := NextLot(l, f.delta, f.price, f.ts);
    assert l'.qty == l.qty + f.delta && l'.avgPrice == x;
  }

  // A clamped profit is off by a whole unit or more, which truncation never is.
  lemma {:induction false} ClampShows(gap: int)
    ensures Abs(SCALE * Clamp(TruncDiv(gap, SCALE)) - gap) <= SCALE - 1 <==> InI64(TruncDiv(gap, SCALE))
  {
    TruncDivError(gap, SCALE);
  }

  lemma {:induction false} DriftClosing(l: Lot, f: Fill)
    requires f.delta != 0 && !Opens(l, f.delta) && StepInRange(l, f)
    ensures Abs(DriftChange(l, f)) <= StepSlack(l, f.delta) <==> InI64(RawProfit(l, f))
  {
    ClosingStep(l, f.delta, f.price);
    ClampShows(PerUnit(l, f.price) * ClosedQty(l, f.delta));
    hide TruncDiv, PerUnit, ClosedQty;
  }

  // One fill moves the drift by no more than its remainder, exactly if its profit fits.
  lemma {:induction false} DriftStep(l: Lot, f: Fill)
    requires StepInRange(l, f) && InI64(l.avgPrice)
    ensures Abs(DriftChange(l, f)) <= StepSlack(l, f.delta) <==> StepProfitFits(l, f)
  {
    if f.delta != 0 && Opens(l, f.delta) {
      DriftOpening(l, f);
    } else if f.delta != 0 {
      DriftClosing(l, f);
    }
  }

  lemma {:induction false} DriftMoves(fills: seq<Fill>)
    requires fills != []
    ensures Drift(fills) - Drift(fills[..|fills| - 1])
            == DriftChange(LotAfter(fills[..|fills| - 1]), fills[|fills| - 1])
  {
    hide NextLot, Realised;
  }

  // Every fill of the sequence moves the drift by no more than its own remainder.
  predicate StaysInSlack(fills: seq<Fill>) {
    fills == []
    || (var g := fills[..|fills| - 1];
        && StaysInSlack(g)
        && Abs(Drift(fills) - Drift(g)) <= StepSlack(LotAfter(g), fills[|fills| - 1].delta))
  }

  // While positions and price gaps are 64-bit numbers, the remainders account for every fill exactly
  // if no profit is clamped.
  lemma {:induction false} SlackExactly(fills: seq<Fill>)
    requires InRange(fills)
    ensures StaysInSlack(fills) <==> ProfitsFit(fills)
  {
    hide Drift, DriftChange, StepSlack, StepProfitFits;
    if fills != [] {
      SlackExactly(fills[..|fills| - 1]);
      AverageInRange(fills[..|fills| - 1]);
      DriftMoves(fills);
      DriftStep(LotAfter(fills[..|fills| - 1]), fills[|fills| - 1]);
    }
  }

  lemma {:induction false} SlackAdds(fills: seq<Fill>)
    requires StaysInSlack(fills)
    ensures Abs(Drift(fills)) <= TotalSlack(fills)
  {
    if fills == [] {
      assert Drift(fills) == 0;
    } else {
      SlackAdds(fills[..|fills| - 1]);
      hide Drift, StepSlack;
    }
  }

  // The rounding bound: over any fill sequence that clamps no register, realised profit differs from
  // cash flow plus the value of the open holding by no more than the remainders that truncation dropped.
  lemma {:induction false} RoundingBound(fills: seq<Fill>)
    requires Unclamped(fills)
    ensures Abs(Drift(fills)) <= TotalSlack(fills)
  {
    SlackExactly(fills);
    SlackAdds(fills);
  }

  lemma {:induction false} AllBought(n: int)
    requires 0 < n <= I64_MAX
    ensures NextLot(FLAT, n, 0, 0) == Lot(n, 0, 0) && NextLot(Lot(n, 0, 0), -n, n, 0) == FLAT
    ensures StepInRange(FLAT, Fill(n, 0, 0)) && StepInRange(Lot(n, 0, 0), Fill(-n, n, 0))
  {
  }

  lemma {:induction false} AllSold(n: int)
    requires n == I64_MAX
    ensures Realised(Lot(n, 0, 0), -n, n) == n && SCALE * n + n + SCALE < n * n
  {
    MulMono(SCALE + 3, n, n);
    Distribute(SCALE, 3, n);
    DivBounds(n * n, SCALE);
    var r := n * n / SCALE;
    hide TruncDiv;
    assert r > n;
  }

  lemma {:induction false} OneFill(a: Fill)
    requires a.delta != 0
    ensures StepInRange(FLAT, a) ==> InRange([a])
    ensures StepProfitFits(FLAT, a) ==> ProfitsFit([a])
    ensures LotAfter([a]) == NextLot(FLAT, a.delta, a.price, a.ts) && TotalRealised([a]) == 0
    ensures CashFlow([a]) == -(a.price * a.delta) && TotalSlack([a]) == StepSlack(FLAT, a.delta)
  {
    assert Realised(FLAT, a.delta, a.price) == 0;
    hide NextLot, Realised, StepInRange, StepProfitFits, StepSlack;
    assert [a][..0] == [];
    assert LotAfter([]) == FLAT && InRange([]) && ProfitsFit([]);
  }

  lemma {:induction false} TwoFills(a: Fill, b: Fill)
    requires a.delta != 0
    ensures
      var held := NextLot(FLAT, a.delta, a.price, a.ts);
      && (StepInRange(FLAT, a) && StepInRange(held, b) ==> InRange([a, b]))
      && (StepProfitFits(FLAT, a) && StepProfitFits(held, b) ==> ProfitsFit([a, b]))
      && LotAfter([a, b]) == NextLot(held, b.delta, b.price, b.ts)
      && TotalRealised([a, b]) == Realised(held, b.delta, b.price)
      && CashFlow([a, b]) == -(a.price * a.delta) - b.price * b.delta
      && TotalSlack([a, b]) == StepSlack(FLAT, a.delta) + StepSlack(held, b.delta)
  {
    hide NextLot, Realised, StepInRange, StepProfitFits, StepSlack;
    OneFill(a);
    assert [a, b][..1] == [a];
  }

  lemma {:induction false} BuyAndSellAll(n: int)
    requires n > 0 && SCALE * n + n + SCALE < n * n
    requires NextLot(FLAT, n, 0, 0) == Lot(n, 0, 0) && NextLot(Lot(n, 0, 0), -n, n, 0) == FLAT
    requires StepInRange(FLAT, Fill(n, 0, 0)) && StepInRange(Lot(n, 0, 0), Fill(-n, n, 0))
    requires Realised(Lot(n, 0, 0), -n, n) == n
    ensures
      var fills := [Fill(n, 0, 0), Fill(-n, n, 0)];
      InRange(fills) && Abs(Drift(fills)) > TotalSlack(fills)
  {
    hide NextLot, Realised, StepInRange, InRange, LotAfter, TotalRealised, CashFlow, TotalSlack;
    TwoFills(Fill(n, 0, 0), Fill(-n, n, 0));
    MulNeg(n, n);
  }

  // A clamped profit can break the bound: everything bought at 0 and sold at the highest price.
  lemma {:induction false} ClampBreaksBound(n: int)
    requires n == I64_MAX
    ensures
      var fills := [Fill(n, 0, 0), Fill(-n, n, 0)];
      InRange(fills) && Abs(Drift(fills)) > TotalSlack(fills)
  {
    hide NextLot, Realised, StepInRange, InRange, LotAfter, TotalRealised, CashFlow, TotalSlack, Drift;
    AllBought(n);
    AllSold(n);
    BuyAndSellAll(n);
  }

  lemma {:induction false} BoughtTwice(n: int)
    requires n == I64_MAX
    ensures NextLot(FLAT, n, 4, 0) == NextLot(Lot(n, 4, 0), n, 4, 0) == Lot(n, 4, 0)
  {
    hide TruncDiv;
    TruncDivBetween(4 * n, n, 4, 4);
    TruncDivBetween(4 * n + 4 * n, n + n, 4, 4);
  }

  // So can a saturated position: all that a register holds, bought twice.
  lemma {:induction false} SaturationBreaksBound(n: int)
    requires n == I64_MAX
    ensures
      var fills := [Fill(n, 4, 0), Fill(n, 4, 0)];
      ProfitsFit(fills) && Abs(Drift(fills)) > TotalSlack(fills)
  {
    var f, held := Fill(n, 4, 0), Lot(n, 4, 0);
    BoughtTwice(n);
    assert StepSlack(FLAT, n) == n - 1 && StepSlack(held, n) == n + n - 1;
    assert Realised(held, n, 4) == 0 && StepProfitFits(FLAT, f) && StepProfitFits(held, f);
    hide NextLot, Realised, StepProfitFits, LotAfter, TotalRealised, CashFlow, TotalSlack;
    TwoFills(f, f);
  }

  // A flat book has no unrealised part: profit equals cash, up to the same remainders.
  lemma {:induction false} RoundTripIsCash(fills: seq<Fill>)
    requires Unclamped(fills) && NetQty(fills) == 0
    ensures Abs(SCALE * TotalRealised(fills) - CashFlow(fills)) <= TotalSlack(fills)
  {
    RoundingBound(fills);
    PositionIsNetQty(fills);
  }

  // ---- When a holding was opened -----------------------------------------------------------

  // The k-th fill has turned the holding to its side, and nothing has turned it since.
  predicate TurnedAt(fills: seq<Fill>, k: nat) {
    && k < |fills|
    && Sign(LotAfter(fills[..k]).qty) != Sign(LotAfter(fills).qty)
    && forall j :: k < j <= |fills| ==> Sign(LotAfter(fills[..j]).qty) == Sign(LotAfter(fills).qty)
  }

  lemma {:induction false} NextOpened(l: Lot, f: Fill)
    ensures
      var l' := NextLot(l, f.delta, f.price, f.ts);
      l'.qty != 0 ==> l'.openTs == if Sign(l'.qty) == Sign(l.qty) then l.openTs else f.ts
  {
    hide TruncDiv, Weighted;
  }

  // An open holding is dated by the fill that took it from flat, or from the other side, to the side where
  // it has been ever since.
  lemma {:induction false} OpenedAtLastTurn(fills: seq<Fill>) returns (k: nat)
    requires LotAfter(fills).qty != 0
    ensures TurnedAt(fills, k) && LotAfter(fills).openTs == fills[k].ts
  {
    hide NextLot;
    var n := |fills| - 1;
    var g := fills[..n];
    NextOpened(LotAfter(g), fills[n]);
    assert fills[..n + 1] == fills;
    if Sign(LotAfter(g).qty) == Sign(LotAfter(fills).qty) {
      k := OpenedAtLastTurn(g);
      assert g[..k] == fills[..k];
      forall j | k < j <= n ensures Sign(LotAfter(fills[..j]).qty) == Sign(LotAfter(fills).qty) {
        assert g[..j] == fills[..j];
      }
    } else {
      k := n;
    }
  }
}
