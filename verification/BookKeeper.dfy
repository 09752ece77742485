// The account, the trade log and the risk guard as the engine updates them together.
module BookKeepers {
  import opened Types
  import opened Arith
  import opened Accounts
  import opened Stats
  import opened RiskGuards
  import opened Ledgers

  class BookKeeper {
    const account: Account
    const log: TradeLog
    const guard: RiskGuard

    ghost var objects: set<object>
    ghost var view: Ledger

    ghost predicate Valid()
      reads this, objects
    {
      && this !in objects && {account, log, guard} <= objects
      && log.Valid() && objects == {account, log, log.incremental, guard}
      && view == Ledger(account.State(), log.State(), guard.State())
    }

    constructor (mode: TradeLogMode, maxOpenOrders: nat, maxPosition: int, maxLoss: int)
      ensures Valid() && fresh(objects)
      ensures view == Ledger(EMPTY_ACCOUNT, NewLog(mode), NewGuard(maxOpenOrders, maxPosition, maxLoss))
    {
      account := new Account();
      log := new TradeLog(mode);
      guard := new RiskGuard(maxOpenOrders, maxPosition, maxLoss);
      new;
      objects := {account, log, log.incremental, guard};
      view := Ledger(account.State(), log.State(), guard.State());
    }

    // Book one fill: the account first, then the PnL history, then the guard.
    method BookFill(job: FillJob)
      requires Valid()
      modifies this`view, objects
      ensures Valid() && view == Settle(old(view), job)
    {
      hide AfterFill, FillPnl, LogPnl, UpdatePnl, Clamp;
      var pnl := account.OnFill(job.order, job.fill.qty, job.fill.price);
      var net := Clamp(pnl - job.fill.fee);
      log.PushPnl(job.fill.tsExchange, net, true);
      guard.Update(net);
      view := Ledger(account.State(), log.State(), guard.State());
    }

    // Log all the fills; then book each one.
    method RecordFills(jobs: seq<FillJob>)
      requires Valid()
      modifies this`view, objects
      ensures Valid() && view == Record(old(view), jobs)
    {
      hide LogFill, Settle, Clamp;
      ghost var before := view;
      for i := 0 to |jobs|
        invariant Valid() && view == before.(log := LogFills(before.log, jobs[..i]))
      {
        log.PushFill(jobs[i].fill);
        view := Ledger(account.State(), log.State(), guard.State());
        assert jobs[..i + 1][..i] == jobs[..i];
      }
      assert jobs[..|jobs|] == jobs;
      ghost var mid := view;
      for i := 0 to |jobs|
        invariant Valid() && view == SettleAll(mid, jobs[..i])
      {
        BookFill(jobs[i]);
        assert jobs[..i + 1][..i] == jobs[..i];
      }
    }

    method BookFunding(event: FundingEvent, mark: int)
      requires Valid()
      modifies this`view, objects
      ensures Valid() && view == Fund(old(view), event, mark)
    {
      hide AfterFunding, FundingPnl, LogPnl, UpdatePnl;
      var pnl := account.ApplyFunding(event, mark);
      log.PushPnl(event.tsExchange, pnl, false);
      guard.Update(pnl);
      view := Ledger(account.State(), log.State(), guard.State());
    }

    // The limit that an order would break at this moment, if any.
    method Check(order: Order, openOrders: nat) returns (reason: Option<Reason>)
      requires Valid()
      ensures reason == CheckOrder(view.guard, order, openOrders, PositionQty(view.account, order.symbolId))
    {
      hide CheckOrder, PositionQty;
      reason := CheckOrder(guard.State(), order, openOrders, PositionQty(account.State(), order.symbolId));
    }
  }
}
