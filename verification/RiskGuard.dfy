// Pre-trade limits and the latched kill switch.
module RiskGuards {
  import opened Types
  import opened Arith

  datatype Guard = Guard(maxOpenOrders: nat, maxPosition: int, maxLoss: int, killed: bool, running: int)

  function NewGuard(maxOpenOrders: nat, maxPosition: int, maxLoss: int): Guard {
    Guard(maxOpenOrders, maxPosition, maxLoss, false, 0)
  }

  // The first limit an order would break, if any.
  function CheckOrder(g: Guard, order: Order, openOrders: nat, position: int): Option<Reason> {
    if g.killed then Some(KillSwitch)
    else if g.maxOpenOrders > 0 && openOrders >= g.maxOpenOrders then Some(Reason.MaxOpenOrders)
    else if g.maxPosition > 0 && Abs(position + Signed(order.side, order.qty)) > g.maxPosition
    then Some(Reason.MaxPosition)
    else None
  }

  function UpdatePnl(g: Guard, delta: int): Guard {
    var running := SatAdd(g.running, delta);
    g.(running := running, killed := g.killed || (g.maxLoss < 0 && running <= g.maxLoss))
  }

  class RiskGuard {
    const maxOpenOrders: nat
    const maxPosition: int
    const maxLoss: int
    var killed: bool
    var running: int

    function State(): Guard
      reads this
    {
      Guard(maxOpenOrders, maxPosition, maxLoss, killed, running)
    }

    constructor (maxOpenOrders: nat, maxPosition: int, maxLoss: int)
      ensures State() == NewGuard(maxOpenOrders, maxPosition, maxLoss)
    {
      this.maxOpenOrders, this.maxPosition, this.maxLoss := maxOpenOrders, maxPosition, maxLoss;
      killed, running := false, 0;
    }

    method Update(delta: int)
      modifies this
      ensures State() == UpdatePnl(old(State()), delta)
    {
      running := SatAdd(running, delta);
      if !killed && maxLoss < 0 && running <= maxLoss {
        killed := true;
      }
    }
  }
}
