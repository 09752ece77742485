// With at most one open order and a position limit, no position ever exceeds the limit: the check
// made when an order is submitted covers everything the order may still do.
module PositionBound {
  import opened Types
  import opened Arith
  import opened AvgCost
  import opened Accounts
  import opened RiskGuards
  import opened Ledgers
  import opened Exchanges
  import opened ExchangeProps
  import opened EventQueues
  import opened EngineSpec
  import opened EngineClock
  import opened QueueViews
  import opened Lifecycle
  import opened LifecycleSteps

  ghost predicate OneOrderLimit(cfg: Config) {
    cfg.maxOpenOrders == 1 && 0 < cfg.maxPosition <= I64_MAX
  }

  // Filling the rest of the order would stay within the limit.
  ghost predicate Covered(a: AccountState, limit: int, s: int, side: Side, rest: int) {
    Abs(PositionQty(a, s) + Signed(side, rest)) <= limit
  }

  ghost predicate OrdersCovered(a: AccountState, limit: int, s: int, orders: OrderMap) {
    forall id :: id in orders ==> Covered(a, limit, s, orders[id].order.side, orders[id].remaining)
  }

  ghost predicate VenuesCovered(a: AccountState, limit: int, xs: Venues) {
    forall s :: s in xs ==> OrdersCovered(a, limit, s, xs[s].orders)
  }

  ghost predicate ArrivalsCovered(a: AccountState, limit: int, os: seq<Order>) {
    forall i :: 0 <= i < |os| ==> Covered(a, limit, os[i].symbolId, os[i].side, os[i].qty)
  }

  ghost predicate Bounded(a: AccountState, limit: int) {
    forall s :: Abs(PositionQty(a, s)) <= limit
  }

  ghost predicate Limits(cfg: Config, g: Guard) {
    g.maxOpenOrders == cfg.maxOpenOrders && g.maxPosition == cfg.maxPosition
  }

  ghost predicate PositionOk(cfg: Config, l: Ledger, xs: Venues, d: Desk, q: Queue) {
    && Limits(cfg, l.guard) && |d.routes| <= 1
    && Bounded(l.account, cfg.maxPosition)
    && VenuesCovered(l.account, cfg.maxPosition, xs)
    && ArrivalsCovered(l.account, cfg.maxPosition, OrdersIn(q))
  }

  // ---- Accounts -----------------------------------------------------------------------------------

  ghost predicate SamePositions(a: AccountState, b: AccountState) {
    forall s :: PositionQty(a, s) == PositionQty(b, s)
  }

  lemma {:induction false} FundPositions(l: Ledger, event: FundingEvent, mark: int)
    ensures SamePositions(l.account, Fund(l, event, mark).account)
    ensures Fund(l, event, mark).guard.maxOpenOrders == l.guard.maxOpenOrders
    ensures Fund(l, event, mark).guard.maxPosition == l.guard.maxPosition
  {
    hide SatAdd, FundingPnl;
  }

  lemma {:induction false} BookPnlAccount()
    ensures forall l, ts, pnl, isTrade :: BookPnl(l, ts, pnl, isTrade).account == l.account
  {
  }

  lemma {:induction false} RecordOne(l: Ledger, j: FillJob)
    ensures Record(l, [j]).account == AfterFill(l.account, j.order, j.fill.qty, j.fill.price)
  {
    hide AfterFill, NetPnl, BookPnl;
    assert [j][..0] == [];
    assert SettleAll(l.(log := LogFills(l.log, [j])), []) == l.(log := LogFills(l.log, [j]));
    BookPnlAccount();
  }

  // A partial or complete fill of a covered order keeps the position within the limit.
  lemma {:induction false} FillWithin(a: AccountState, order: Order, rest: int, fill: int, price: int, limit: int)
    requires 0 < limit <= I64_MAX && 0 < fill <= rest
    requires Bounded(a, limit) && Covered(a, limit, order.symbolId, order.side, rest)
    ensures
      var a' := AfterFill(a, order, fill, price);
      && Bounded(a', limit) && Covered(a', limit, order.symbolId, order.side, rest - fill)
      && forall s :: s != order.symbolId ==> PositionQty(a', s) == PositionQty(a, s)
  {
    hide TruncDiv, Weighted;
    assert Abs(PositionQty(a, order.symbolId)) <= limit;
    var a' := AfterFill(a, order, fill, price);
    assert PositionQty(a', order.symbolId) == PositionQty(a, order.symbolId) + Signed(order.side, fill);
    forall s ensures Abs(PositionQty(a', s)) <= limit {
      assert Abs(PositionQty(a, s)) <= limit;
    }
  }

  // ---- The only order -------------------------------------------------------------------------------

  lemma {:induction false} SubsetSize(a: set<int>, b: set<int>)
    requires a <= b
    ensures |a| <= |b|
  {
    assert b == a + (b - a);
  }

  lemma {:induction false} OnlyKey(routes: map<int, int>, x: int, y: int)
    requires |routes| <= 1 && x in routes && y in routes
    ensures x == y
  {
    if x != y {
      assert {x, y} <= routes.Keys;
      SubsetSize({x, y}, routes.Keys);
    }
  }

  // With one tracked id there is no other live order and no order on its way.
  lemma {:induction false} Alone(xs: Venues, d: Desk, q: Queue, id: int)
    requires LifeOk(xs, d, q) && |d.routes| <= 1 && id in d.routes && LiveIn(xs, d.routes[id], id).Some?
    ensures forall s, other :: s in xs && other in xs[s].orders ==> other == id && s == d.routes[id]
    ensures OrdersIn(q) == []
  {
    hide GoodExchange, OrdersIn, Tally, ReportsFor;
    forall s, other | s in xs && other in xs[s].orders ensures other == id && s == d.routes[id] {
      assert OwnOrders(xs[s].orders, d, s);
      OnlyKey(d.routes, other, id);
    }
    assert TrailOk(TrailOf(xs, d, q, id));
    if OrdersIn(q) != [] {
      assert Announced(d, OrdersIn(q)[0]);
      OnlyKey(d.routes, OrdersIn(q)[0].orderId, id);
    }
  }

  // ---- Events that fill nothing ---------------------------------------------------------------------

  ghost predicate SameRest(a: OrderMap, b: OrderMap) {
    forall id :: id in b ==> id in a && b[id].order == a[id].order && b[id].remaining == a[id].remaining
  }

  lemma {:induction false} CoveredKept(
    a: AccountState, a': AccountState, limit: int, xs: Venues, s: int, orders: OrderMap)
    requires VenuesCovered(a, limit, xs) && SamePositions(a, a')
    requires SameRest(OrdersAt(xs, s), orders)
    ensures OrdersCovered(a', limit, s, orders)
  {
    forall id | id in orders ensures Covered(a', limit, s, orders[id].order.side, orders[id].remaining) {
      assert PositionQty(a, s) == PositionQty(a', s);
      assert OrdersCovered(a, limit, s, OrdersAt(xs, s));
    }
  }

  lemma {:induction false} SameCover(a: AccountState, a': AccountState, limit: int, s: int, side: Side, rest: int)
    requires SamePositions(a, a') && Covered(a, limit, s, side, rest)
    ensures Covered(a', limit, s, side, rest)
  {
    assert PositionQty(a, s) == PositionQty(a', s);
  }

  lemma {:induction false} PositionKept(
    cfg: Config, l: Ledger, xs: Venues, d: Desk, q: Queue, l': Ledger, xs': Venues, d': Desk, q': Queue)
    requires PositionOk(cfg, l, xs, d, q) && Limits(cfg, l'.guard) && SamePositions(l.account, l'.account)
    requires |d'.routes| <= 1
    requires forall s :: s in xs' ==> SameRest(OrdersAt(xs, s), xs'[s].orders)
    requires forall i :: 0 <= i < |OrdersIn(q')| ==> OrdersIn(q')[i] in OrdersIn(q)
    ensures PositionOk(cfg, l', xs', d', q')
  {
    hide OrdersIn, Covered;
    forall s ensures Abs(PositionQty(l'.account, s)) <= cfg.maxPosition {
      assert PositionQty(l.account, s) == PositionQty(l'.account, s);
      assert Abs(PositionQty(l.account, s)) <= cfg.maxPosition;
    }
    forall s | s in xs' ensures OrdersCovered(l'.account, cfg.maxPosition, s, xs'[s].orders) {
      CoveredKept(l.account, l'.account, cfg.maxPosition, xs, s, xs'[s].orders);
    }
    forall i | 0 <= i < |OrdersIn(q')|
      ensures Covered(l'.account, cfg.maxPosition, OrdersIn(q')[i].symbolId, OrdersIn(q')[i].side, OrdersIn(q')[i].qty)
    {
      var o := OrdersIn(q')[i];
      var j :| 0 <= j < |OrdersIn(q)| && OrdersIn(q)[j] == o;
      SameCover(l.account, l'.account, cfg.maxPosition, o.symbolId, o.side, o.qty);
    }
  }

  // ---- Commands ---------------------------------------------------------------------------------------

  lemma {:induction false} CommandPosition(
    cfg: Config, l: Ledger, xs: Venues, d: Desk, q: Queue, next: int, now: int, cmd: Command)
    requires GoodConfig(cfg) && OneOrderLimit(cfg) && Room(cfg, q, next, now)
    requires PositionOk(cfg, l, xs, d, q)
    ensures
      var (d', p) := OneCommand(cfg, l, d, cmd, now);
      PositionOk(cfg, l, xs, d', PushAll(q, next, [p]))
  {
    var (d', p) := OneCommand(cfg, l, d, cmd, now);
    OneFresh(cfg, l, d, cmd, now);
    OnePushed(p, 0);
    hide PushAll, OrdersIn, Room, FreshPushes, PositionQty, VenuesCovered, Bounded, OrdersPushed, ReportsPushed, Pushed;
    RoomViews(cfg, q, next, now, [p], 0);
    Assoc(OrdersIn(q), [], []);
    if p.kind.EvOrder? {
      assert |d.routes| == 0;
      assert d.routes == map[];
    }
  }

  lemma {:induction false} CommandsPosition(
    cfg: Config, l: Ledger, xs: Venues, d: Desk, q: Queue, next: int, now: int, cmds: seq<Command>)
    requires GoodConfig(cfg) && OneOrderLimit(cfg) && Room(cfg, q, next, now)
    requires PositionOk(cfg, l, xs, d, q)
    ensures
      var (d', ps) := Commands(cfg, l, d, cmds, now);
      PositionOk(cfg, l, xs, d', PushAll(q, next, ps))
    decreases cmds
  {
    hide PositionOk, Room, OneCommand;
    if cmds != [] {
      var (d1, p) := OneCommand(cfg, l, d, cmds[0], now);
      CommandPosition(cfg, l, xs, d, q, next, now, cmds[0]);
      OneFresh(cfg, l, d, cmds[0], now);
      RoomAfter(cfg, q, next, now, [p]);
      var (d2, ps) := Commands(cfg, l, d1, cmds[1..], now);
      CommandsPosition(cfg, l, xs, d1, PushAll(q, next, [p]), next + 1, now, cmds[1..]);
      PushAllAppend(q, next, [p], ps);
    }
  }

  ghost predicate PositionAt<S>(cfg: Config, c: Core<S>, q: Queue) {
    PositionOk(cfg, c.ledger, c.exchanges, DeskOf(c), q)
  }

  lemma {:induction false} CallPosition<S>(env: Env<S>, c: Core<S>, q: Queue, next: int, payload: Payload)
    requires GoodConfig(env.cfg) && OneOrderLimit(env.cfg) && Room(env.cfg, q, next, c.now) && PositionAt(env.cfg, c, q)
    ensures
      var eff := Call(env, c, c.now, payload);
      eff.Effect? ==> PositionAt(env.cfg, eff.core, PushAll(q, next, eff.pushes))
  {
    hide PositionOk, Room, Commands, PushAll;
    match env.strategy(c.strategy, Callback(c.now, c.market, payload)) {
      case Reply(s, cmds) =>
        CommandsPosition(env.cfg, c.ledger, c.exchanges, DeskOf(c), q, next, c.now, cmds);
      case _ =>
    }
  }

  lemma {:induction false} FlushPosition<S>(env: Env<S>, c: Core<S>, q: Queue, next: int)
    requires GoodConfig(env.cfg) && OneOrderLimit(env.cfg) && Room(env.cfg, q, next, c.now) && PositionAt(env.cfg, c, q)
    ensures
      var eff := Flush(env, c, c.now);
      eff.Effect? ==> PositionAt(env.cfg, eff.core, PushAll(q, next, eff.pushes))
  {
    hide PositionOk, Room, Commands, HandOver;
    if c.batch.ticks != [] || c.batch.reports != [] {
      match HandOver(env, c.strategy, c.market, c.batch, c.now) {
        case Handover(s, cmds, calls) =>
          CommandsPosition(env.cfg, c.ledger, c.exchanges, DeskOf(c), q, next, c.now, cmds);
        case _ =>
      }
    }
  }
}
