// The records that travel through the backtest core, and the order state machine.
module Types {

  datatype Option<+T> = None | Some(value: T)

  datatype Side = Buy | Sell | NoSide

  datatype OrderType = Limit | Market

  datatype OrderState =
    | Created
    | PendingNew
    | Open
    | PartiallyFilled
    | PendingCancel
    | Cancelled
    | Filled
    | Rejected

  predicate IsTerminal(s: OrderState) {
    s == Cancelled || s == Filled || s == Rejected
  }

  // The documented transition table.
  predicate CanTransitionTo(s: OrderState, next: OrderState) {
    match s
    case Created => next == PendingNew
    case PendingNew => next == Open || next == Rejected || next == Filled || next == PartiallyFilled
    case Open => next == PartiallyFilled || next == Filled || next == PendingCancel
    case PartiallyFilled =>
      next == PartiallyFilled || next == Filled || next == PendingCancel || next == Cancelled
    case PendingCancel => next == Cancelled || next == Filled
    case _ => false
  }

  // Why an order was refused or cut short.
  datatype Reason = KillSwitch | MaxOpenOrders | MaxPosition | BookEmpty | RemainderCancelled

  datatype Order = Order(
    orderId: int,
    clientOrderId: int,
    tsSubmit: int,
    price: int,
    qty: int,
    symbolId: int,
    side: Side,
    orderType: OrderType)

  datatype OrderReport = OrderReport(
    orderId: int,
    clientOrderId: int,
    symbolId: int,
    status: OrderState,
    lastFillQty: int,
    lastFillPrice: int,
    filledQty: int,
    remainingQty: int,
    reason: Option<Reason>)

  datatype Tick = Tick(
    tsExchange: int,
    tsLocal: int,
    seqNo: int,
    price: int,
    qty: int,
    symbolId: int,
    side: Side)

  // A price-level update; quantity 0 removes the level.
  datatype L2Update = L2Update(tsExchange: int, price: int, qty: int, symbolId: int, side: Side)

  datatype L3Action = Add | Modify | Delete | Unknown

  datatype L3Update = L3Update(
    tsExchange: int,
    seqNo: int,
    symbolId: int,
    orderId: int,
    price: int,
    qty: int,
    side: Side,
    action: L3Action)

  datatype FundingEvent = FundingEvent(tsExchange: int, rate: int, symbolId: int)

  // The resting side that an aggressor trade is matched against.
  function MakerSide(aggressor: Side): Side {
    match aggressor
    case Buy => Sell
    case Sell => Buy
    case NoSide => NoSide
  }

  // Signed position change of a fill on the given order side.
  function Signed(side: Side, qty: int): int {
    match side
    case Buy => qty
    case Sell => -qty
    case NoSide => 0
  }
}
