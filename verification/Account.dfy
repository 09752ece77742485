// Positions per symbol, moved by fills and by funding payments.
module Accounts {
  import opened Types
  import opened Arith
  import opened AvgCost

  datatype Position = Position(lot: Lot, fundingPnl: int)

  datatype AccountState = AccountState(positions: map<int, Position>, totalFunding: int)

  const EMPTY_ACCOUNT := AccountState(map[], 0)

  function PositionOf(a: AccountState, symbol: int): Position {
    if symbol in a.positions then a.positions[symbol] else Position(FLAT, 0)
  }

  function HeldLot(a: AccountState, symbol: int): Lot {
    PositionOf(a, symbol).lot
  }

  function PositionQty(a: AccountState, symbol: int): int {
    HeldLot(a, symbol).qty
  }

  function AfterFill(a: AccountState, order: Order, qty: int, price: int): AccountState {
    var delta := Signed(order.side, qty);
    if delta == 0 then a
    else
      var p := PositionOf(a, order.symbolId);
      a.(positions := a.positions[order.symbolId := p.(lot := NextLot(p.lot, delta, price, order.tsSubmit))])
  }

  function FillPnl(a: AccountState, order: Order, qty: int, price: int): int {
    Realised(HeldLot(a, order.symbolId), Signed(order.side, qty), price)
  }

  // What a long of this size receives at this rate; shorts receive the opposite sign.
  function Payment(qty: int, mark: int, rate: int): int {
    Clamp(-TruncDiv(TruncDiv(qty * mark, SCALE) * rate, SCALE))
  }

  function FundingPnl(a: AccountState, event: FundingEvent, mark: int): int {
    var qty := PositionQty(a, event.symbolId);
    if qty == 0 || event.rate == 0 || mark == 0 then 0
    else Payment(qty, mark, event.rate)
  }

  function AfterFunding(a: AccountState, event: FundingEvent, mark: int): AccountState {
    var p := PositionOf(a, event.symbolId);
    if p.lot.qty == 0 || event.rate == 0 || mark == 0 then a
    else
      var pnl := FundingPnl(a, event, mark);
      AccountState(a.positions[event.symbolId := p.(fundingPnl := SatAdd(p.fundingPnl, pnl))],
                   SatAdd(a.totalFunding, pnl))
  }

  // y is x scaled down by 10^8, rounded toward zero.
  ghost predicate ScaledDown(x: int, y: int) {
    if x >= 0 then 0 <= 100_000_000 * y <= x < 100_000_000 * (y + 1)
    else 100_000_000 * (y - 1) < x <= 100_000_000 * y <= 0
  }

  // Positive rates are paid by longs and received by shorts, negative rates the other way around.
  ghost predicate PaysByRate(qty: int, mark: int, rate: int, pnl: int) {
    if qty == 0 || rate == 0 || mark == 0 then pnl == 0
    else
      && (exists notional, due ::
            ScaledDown(qty * mark, notional) && ScaledDown(notional * rate, due) && pnl == Clamp(-due))
      && (mark > 0 ==> if Sign(qty) == Sign(rate) then pnl <= 0 else pnl >= 0)
  }

  lemma {:induction false} ScalesDown(x: int)
    ensures ScaledDown(x, TruncDiv(x, SCALE))
  {
  }

  lemma {:induction false} ProductSign(x: int, y: int)
    ensures Sign(x) == 0 || Sign(y) == 0 ==> x * y == 0
    ensures Sign(x) == Sign(y) ==> x * y >= 0
    ensures Sign(x) == -Sign(y) ==> x * y <= 0
  {
    if x >= 0 && y >= 0 {
      MulNonNeg(x, y);
    } else if x >= 0 {
      MulNonNeg(x, -y);
      MulNeg(x, y);
    } else if y >= 0 {
      MulNonNeg(-x, y);
      assert (-x) * y == -(x * y);
    } else {
      MulNonNeg(-x, -y);
      assert (-x) * (-y) == x * y;
    }
  }

  lemma {:induction false} FundingPaysByRate(a: AccountState, event: FundingEvent, mark: int)
    ensures PaysByRate(PositionQty(a, event.symbolId), mark, event.rate, FundingPnl(a, event, mark))
  {
    var qty, rate := PositionQty(a, event.symbolId), event.rate;
    var notional := TruncDiv(qty * mark, SCALE);
    var due := TruncDiv(notional * rate, SCALE);
    ScalesDown(qty * mark);
    ScalesDown(notional * rate);
    ProductSign(qty, mark);
    ProductSign(notional, rate);
    hide PositionQty, TruncDiv;
    if qty != 0 && rate != 0 && mark != 0 {
      assert FundingPnl(a, event, mark) == Clamp(-due);
    }
  }

  // The account as the engine owns it: each call updates the stored position in place.
  class Account {
    var positions: map<int, Position>
    var totalFunding: int

    function State(): AccountState
      reads this
    {
      AccountState(positions, totalFunding)
    }

    constructor ()
      ensures State() == EMPTY_ACCOUNT
    {
      positions, totalFunding := map[], 0;
    }

    method OnFill(order: Order, fillQty: int, fillPrice: int) returns (pnl: int)
      modifies this
      ensures State() == AfterFill(old(State()), order, fillQty, fillPrice)
      ensures pnl == FillPnl(old(State()), order, fillQty, fillPrice)
    {
      hide TruncDiv, Clamp, SatAdd, Sign;
      var delta := Signed(order.side, fillQty);
      if delta == 0 {
        return 0;
      }
      var p := if order.symbolId in positions then positions[order.symbolId] else Position(FLAT, 0);
      var qty, avg, openTs := p.lot.qty, p.lot.avgPrice, p.lot.openTs;
      pnl := 0;
      if qty == 0 || Sign(qty) == Sign(delta) {
        if qty == 0 {
          openTs := order.tsSubmit;
        }
        var newAbs := Abs(qty) + Abs(delta);
        var weighted := avg * Abs(qty) + fillPrice * Abs(delta);
        avg := Clamp(TruncDiv(weighted, newAbs));
        qty := SatAdd(qty, delta);
      } else {
        var closed := if Abs(qty) <= Abs(delta) then Abs(qty) else Abs(delta);
        var perUnit := if qty > 0 then fillPrice - avg else avg - fillPrice;
        pnl := Clamp(TruncDiv(perUnit * closed, SCALE));
        var newQty := SatAdd(qty, delta);
        if newQty == 0 {
          avg := 0;
        } else if Sign(newQty) != Sign(qty) {
          avg := fillPrice;
          openTs := order.tsSubmit;
        }
        qty := newQty;
      }
      positions := positions[order.symbolId := p.(lot := Lot(qty, avg, openTs))];
    }

    method ApplyFunding(event: FundingEvent, mark: int) returns (pnl: int)
      modifies this
      ensures State() == AfterFunding(old(State()), event, mark)
      ensures pnl == FundingPnl(old(State()), event, mark)
    {
      hide Payment;
      if event.symbolId !in positions {
        return 0;
      }
      var p := positions[event.symbolId];
      if p.lot.qty == 0 || event.rate == 0 || mark == 0 {
        return 0;
      }
      pnl := Payment(p.lot.qty, mark, event.rate);
      positions := positions[event.symbolId := p.(fundingPnl := SatAdd(p.fundingPnl, pnl))];
      totalFunding := SatAdd(totalFunding, pnl);
    }
  }
}
