// One symbol's share of the fill log, as a sequence of signed fills: the average-cost law over that
// sequence is what the log, the summary and the account hold for the symbol.
module SymbolLedger {
  import opened Arith
  import opened AvgCost
  import opened Accounts
  import opened Stats
  import opened Ledgers

  function SignedFill(f: TradeFill): Fill {
    Fill(DeltaOf(f), f.price, f.tsExchange)
  }

  function SymbolFills(fills: seq<TradeFill>, symbol: int): seq<Fill> {
    if fills == [] then []
    else
      var n := |fills| - 1;
      SymbolFills(fills[..n], symbol) + if fills[n].symbolId == symbol then [SignedFill(fills[n])] else []
  }

  // The profits recomputed from the log, summed over the fills of one symbol.
  function SymbolGain(fills: seq<TradeFill>, deltas: seq<PnlDelta>, symbol: int): int
    requires |deltas| == |fills|
  {
    if fills == [] then 0
    else
      var n := |fills| - 1;
      SymbolGain(fills[..n], deltas[..n], symbol) + if fills[n].symbolId == symbol then deltas[n].pnl else 0
  }

  lemma {:induction false} AfterNothing(l: Lot, f: Fill)
    ensures f.delta == 0 ==> NextLot(l, f.delta, f.price, f.ts) == l
  {
  }

  lemma {:induction false} SymbolLots(fills: seq<TradeFill>, symbol: int)
    ensures LotOf(LotsAfter(fills), symbol) == LotAfter(SymbolFills(fills, symbol))
  {
    hide NextLot;
    if fills != [] {
      var n := |fills| - 1;
      SymbolLots(fills[..n], symbol);
      var fs := SymbolFills(fills[..n], symbol);
      if fills[n].symbolId == symbol {
        var f := SignedFill(fills[n]);
        assert (fs + [f])[..|fs + [f]| - 1] == fs;
        AfterNothing(LotAfter(fs), f);
      } else {
        assert fs + [] == fs;
      }
    }
  }

  lemma {:induction false} SymbolGains(fills: seq<TradeFill>, symbol: int)
    ensures |PnlDeltas(fills)| == |fills|
    ensures SymbolGain(fills, PnlDeltas(fills), symbol) == TotalRealised(SymbolFills(fills, symbol))
  {
    hide Realised, LotsAfter;
    if fills != [] {
      var n := |fills| - 1;
      SymbolGains(fills[..n], symbol);
      SymbolLots(fills[..n], symbol);
      assert PnlDeltas(fills)[..n] == PnlDeltas(fills[..n]);
      var fs := SymbolFills(fills[..n], symbol);
      if fills[n].symbolId == symbol {
        var f := SignedFill(fills[n]);
        assert (fs + [f])[..|fs + [f]| - 1] == fs;
      } else {
        assert fs + [] == fs;
      }
    }
  }

  // A fill that realises something has held for the time since its symbol's holding was opened: since the fill
  // that took it to the side it is on. Any other fill has held for no time.
  lemma {:induction false} HoldingTimes(fills: seq<TradeFill>, i: nat) returns (k: nat)
    requires i < |fills|
    ensures |PnlDeltas(fills)| == |fills|
    ensures PnlDeltas(fills)[i].pnl == 0 ==> PnlDeltas(fills)[i].holdingPeriod == 0
    ensures
      PnlDeltas(fills)[i].pnl != 0 ==>
        var fs := SymbolFills(fills[..i], fills[i].symbolId);
        && LotAfter(fs).qty != 0 && TurnedAt(fs, k)
        && PnlDeltas(fills)[i].holdingPeriod == Clamp(fills[i].tsExchange - fs[k].ts)
  {
    PnlDeltasAt(fills, i);
    var fs := SymbolFills(fills[..i], fills[i].symbolId);
    SymbolLots(fills[..i], fills[i].symbolId);
    hide PnlDeltas, LotsAfter, LotAfter, SymbolFills, TurnedAt, Clamp, TruncDiv;
    k := 0;
    if LotAfter(fs).qty != 0 {
      k := OpenedAtLastTurn(fs);
    }
  }

  // Profit recomputed from the log, cash flow and the account's open position agree, up to the
  // remainders that truncation dropped; and the position is the sum of the symbol's fills.
  ghost predicate CashAgrees(a: AccountState, fills: seq<TradeFill>, symbol: int) {
    && |PnlDeltas(fills)| == |fills|
    && var (lot, fs) := (HeldLot(a, symbol), SymbolFills(fills, symbol));
       var gain := SymbolGain(fills, PnlDeltas(fills), symbol);
       && lot.qty == NetQty(fs)
       && Abs(SCALE * gain - CashFlow(fs) - lot.avgPrice * lot.qty) <= TotalSlack(fs)
  }

  lemma {:induction false} BooksAgreeWithCash(l: Ledger, symbol: int)
    requires l.log.mode == All && BooksAgree(l) && Unclamped(SymbolFills(l.log.fills, symbol))
    ensures CashAgrees(l.account, l.log.fills, symbol)
  {
    var fs := SymbolFills(l.log.fills, symbol);
    RoundingBound(fs);
    PositionIsNetQty(fs);
    SymbolLots(l.log.fills, symbol);
    SymbolGains(l.log.fills, symbol);
    assert SameCost(HeldLot(l.account, symbol), LotOf(l.log.summary.lots, symbol));
    hide TotalRealised, LotAfter, CashFlow, TotalSlack, NetQty, LotsAfter, PnlDeltas, SymbolFills, SymbolGain,
      Unclamped;
  }
}
