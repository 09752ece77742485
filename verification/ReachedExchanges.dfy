// Exchanges that runs of operations reach, at which the unusual happens: a cache that has gone stale, a
// fill that overtakes a cancel, and one trade that fills two orders for more than was traded.
module ReachedExchanges {
  import opened Types
  import opened BookL2
  import opened BookL3
  import opened QueueModels
  import opened Exchanges
  import opened ExchangeProps

  function Resting(id: int, qty: int): Order {
    Order(id, 0, 0, 100, qty, 7, Buy, Limit)
  }

  function Hit(qty: int): Tick {
    Tick(0, 0, 0, 100, qty, 7, Sell)
  }

  function Bids(orders: OrderMap, ids: seq<int>): Exchange {
    Exchange(EMPTY_L2, None, orders, map[(100, Buy) := ids])
  }

  lemma {:induction false} RunCons(m: QueueModel, ex: Exchange, ops: seq<ExOp>)
    requires ops != []
    ensures RunOps(m, ex, ops).0 == RunOps(m, Apply(m, ex, ops[0]).0, ops[1..]).0
    ensures RunOps(m, ex, ops).1 == Apply(m, ex, ops[0]).1 + RunOps(m, Apply(m, ex, ops[0]).0, ops[1..]).1
    ensures AllowedRun(m, ex, ops) <==> Allowed(ex, ops[0]) && AllowedRun(m, Apply(m, ex, ops[0]).0, ops[1..])
  {
    hide Apply, Allowed;
  }

  lemma {:induction false} RunNothing(m: QueueModel, ex: Exchange)
    ensures RunOps(m, ex, []) == (ex, []) && AllowedRun(m, ex, [])
  {
  }

  // ---- A fill overtakes a cancel -----------------------------------------------------------------------

  const RACE: seq<ExOp> := [OpSubmit(Resting(9, 5)), OpAckNew(9), OpCancel(9)]

  function Racing(state: OrderState): Exchange {
    Bids(map[9 := LiveOrder(Resting(9, 5), state, 0, 5, QConservative(0))], [9])
  }

  // Behind an empty level nothing stands ahead.
  lemma {:induction false} SubmitFirst(orders: OrderMap, ids: seq<int>, id: int, qty: int)
    requires ids == [] ==> orders == map[]
    ensures
      var ex := if ids == [] then NewExchange(false) else Bids(orders, ids);
      Submit(Conservative, ex, Resting(id, qty))
      == Bids(orders[id := LiveOrder(Resting(id, qty), PendingNew, 0, qty, QConservative(0))], ids + [id])
  {
    var ex := if ids == [] then NewExchange(false) else Bids(orders, ids);
    assert Register(Conservative, Resting(id, qty), DepthOf(ex)) == QConservative(0);
    assert BucketAt(ex.buckets, (100, Buy)) == ids;
  }

  lemma {:induction false} RaceStarts()
    ensures AllowedRun(Conservative, NewExchange(false), RACE)
    ensures RunOps(Conservative, NewExchange(false), RACE).0 == Racing(PendingCancel)
  {
    var m, ex := Conservative, NewExchange(false);
    SubmitFirst(map[], [], 9, 5);
    assert [] + [9] == [9];
    assert Apply(m, ex, RACE[0]).0 == Racing(PendingNew);
    assert Apply(m, Racing(PendingNew), RACE[1]).0 == Racing(Open);
    assert Apply(m, Racing(Open), RACE[2]).0 == Racing(PendingCancel);
    assert Allowed(ex, RACE[0]) && Allowed(Racing(PendingNew), RACE[1]) && Allowed(Racing(Open), RACE[2]);
    hide Apply, Allowed, Racing;
    assert RACE[1..][0] == RACE[1] && RACE[1..][1..] == [RACE[2]] && [RACE[2]][1..] == [];
    RunCons(m, ex, RACE);
    RunCons(m, Racing(PendingNew), RACE[1..]);
    RunCons(m, Racing(Open), [RACE[2]]);
    RunNothing(m, Racing(PendingCancel));
  }

  // A run of allowed operations reaches an order of 5 whose cancel is in flight; a trade of 2 then fills
  // part of it, which takes the edge the table omits and has the pending acknowledgement refused.
  lemma {:induction false} CancelCanBeOvertaken()
    ensures AllowedRun(Conservative, NewExchange(false), RACE)
    ensures
      var ex := RunOps(Conservative, NewExchange(false), RACE).0;
      var (ex', reports) := OnTrade(ex, Hit(2));
      && 9 in ex.orders && ex.orders[9].state == PendingCancel && ex.orders[9].remaining == 5
      && 9 in ex'.orders && ex'.orders[9].state == PartiallyFilled && ex'.orders[9].remaining == 3
      && !CanTransitionTo(PendingCancel, PartiallyFilled) && AckCancel(ex', 9).None?
  {
    RaceStarts();
    var ex := Racing(PendingCancel);
    NewIsGood(false);
    RunKeepsGood(Conservative, NewExchange(false), RACE);
    CancelRace(ex, 9, Hit(2));
    TradePointwise(ex, Hit(2));
    hide OnTrade, RunOps, AllowedRun, BucketsOk;
  }

  // ---- One trade fills two orders -----------------------------------------------------------------------

  const PAIR: seq<ExOp> := [OpSubmit(Resting(1, 3)), OpAckNew(1), OpSubmit(Resting(2, 3)), OpAckNew(2)]

  function Small(id: int, state: OrderState): LiveOrder {
    LiveOrder(Resting(id, 3), state, 0, 3, QConservative(0))
  }

  function One(state: OrderState): Exchange {
    Bids(map[1 := Small(1, state)], [1])
  }

  function Both(state: OrderState): Exchange {
    Bids(map[1 := Small(1, Open), 2 := Small(2, state)], [1, 2])
  }

  lemma {:induction false} PairStands()
    ensures AllowedRun(Conservative, NewExchange(false), PAIR)
    ensures RunOps(Conservative, NewExchange(false), PAIR).0 == Both(Open)
  {
    var m, ex := Conservative, NewExchange(false);
    SubmitFirst(map[], [], 1, 3);
    SubmitFirst(map[1 := Small(1, Open)], [1], 2, 3);
    assert [] + [1] == [1] && [1] + [2] == [1, 2];
    assert Apply(m, ex, PAIR[0]).0 == One(PendingNew);
    assert Apply(m, One(PendingNew), PAIR[1]).0 == One(Open);
    assert Apply(m, One(Open), PAIR[2]).0 == Both(PendingNew);
    assert Apply(m, Both(PendingNew), PAIR[3]).0 == Both(Open);
    assert Allowed(ex, PAIR[0]) && Allowed(One(PendingNew), PAIR[1]);
    assert Allowed(One(Open), PAIR[2]) && Allowed(Both(PendingNew), PAIR[3]);
    hide Apply, Allowed, One, Both;
    assert PAIR[1..][0] == PAIR[1] && PAIR[1..][1..] == PAIR[2..];
    assert PAIR[2..][0] == PAIR[2] && PAIR[2..][1..] == [PAIR[3]] && [PAIR[3]][1..] == [];
    RunCons(m, ex, PAIR);
    RunCons(m, One(PendingNew), PAIR[1..]);
    RunCons(m, One(Open), PAIR[2..]);
    RunCons(m, Both(PendingNew), [PAIR[3]]);
    RunNothing(m, Both(Open));
  }

  lemma {:induction false} SmallFills(id: int)
    ensures Offer(Small(id, Open), Hit(3)).0.filled == 3
  {
  }

  // Each own order is offered the whole trade: a trade of 3 fills two orders of 3, 6 in all.
  lemma {:induction false} OneTradeFillsTwice()
    ensures AllowedRun(Conservative, NewExchange(false), PAIR)
    ensures
      var ex := RunOps(Conservative, NewExchange(false), PAIR).0;
      var ex' := OnTrade(ex, Hit(3)).0;
      && 1 in ex'.orders && 2 in ex'.orders
      && ex'.orders[1].filled + ex'.orders[2].filled == 6 > Hit(3).qty
  {
    hide OnTrade, RunOps, AllowedRun, Offer, GoodOrders, GoodBooks, Collected, BucketsOk, NewExchange, Small;
    PairStands();
    NewIsGood(false);
    RunKeepsGood(Conservative, NewExchange(false), PAIR);
    TradePointwise(Both(Open), Hit(3));
    SmallFills(1);
    SmallFills(2);
  }

  // ---- A cache goes stale ---------------------------------------------------------------------------------

  function Venue(id: int, qty: int, action: L3Action): ExOp {
    OpL3(L3Update(0, 0, 7, id, 100, qty, Buy, action))
  }

  const QUEUE_UP: seq<ExOp> :=
    [Venue(1, 3, Add), Venue(2, 4, Add), OpSubmit(Resting(9, 5)), OpAckNew(9), OpCancel(9)]

  function Shown(level: Level, orders: OrderMap, buckets: Buckets): Exchange {
    Exchange(EMPTY_L2, Some(L3(if level == [] then map[] else map[100 := level], map[])), orders, buckets)
  }

  const AHEAD: Level := [(1, 3), (2, 4)]

  function Queued(level: Level, state: OrderState): Exchange {
    Shown(level, map[9 := LiveOrder(Resting(9, 5), state, 0, 5, QExact(7, AHEAD))], map[(100, Buy) := [9]])
  }

  lemma {:induction false} AddStep(level: Level, id: int, qty: int)
    requires qty > 0
    ensures Apply(L3Exact, Shown(level, map[], map[]), Venue(id, qty, Add)).0
            == Shown(level + [(id, qty)], map[], map[])
  {
    var ex, u := Shown(level, map[], map[]), L3Update(0, 0, 7, id, 100, qty, Buy, Add);
    var longer := level + [(id, qty)];
    assert LevelAt(ex.bookL3.value.bids, 100) == level && longer != [];
    assert ApplyL3(ex.bookL3.value, u) == L3(map[100 := longer], map[]);
    var none: OrderMap := map[];
    assert UpdateL3(ex, u).value.orders == none;
  }

  lemma {:induction false} JoinStep()
    ensures Apply(L3Exact, Shown(AHEAD, map[], map[]), OpSubmit(Resting(9, 5))).0 == Queued(AHEAD, PendingNew)
  {
    var level := AHEAD;
    assert level[1..] == [(2, 4)] && [(2, 4)][1..] == [];
    assert Ahead([], 9) == [] && Ahead([(2, 4)], 9) == [(2, 4)] + [];
    assert Ahead(level, 9) == [(1, 3)] + [(2, 4)] == level;
    assert Total([]) == 0 && Total([(2, 4)]) == 4 && Total(level) == 7;
    assert [] + [9] == [9];
    var ex := Shown(AHEAD, map[], map[]);
    assert SideLevel(ex.bookL3.value, Buy, 100) == AHEAD;
    assert Register(L3Exact, Resting(9, 5), DepthOf(ex)) == QExact(7, AHEAD);
    var live := LiveOrder(Resting(9, 5), PendingNew, 0, 5, QExact(7, AHEAD));
    var none: Buckets := map[];
    assert BucketAt(none, (100, Buy)) + [9] == [9];
    assert Submit(L3Exact, ex, Resting(9, 5)) == Shown(AHEAD, map[9 := live], none[(100, Buy) := [9]]);
    assert none[(100, Buy) := [9]] == map[(100, Buy) := [9]];
    assert Shown(AHEAD, map[9 := live], map[(100, Buy) := [9]]) == Queued(AHEAD, PendingNew);
    assert Apply(L3Exact, ex, OpSubmit(Resting(9, 5))).0 == Submit(L3Exact, ex, Resting(9, 5));
  }

  lemma {:induction false} AddSteps()
    ensures Apply(L3Exact, NewExchange(true), QUEUE_UP[0]).0 == Shown([(1, 3)], map[], map[])
    ensures Apply(L3Exact, Shown([(1, 3)], map[], map[]), QUEUE_UP[1]).0 == Shown(AHEAD, map[], map[])
    ensures Allowed(NewExchange(true), QUEUE_UP[0]) && Allowed(Shown([(1, 3)], map[], map[]), QUEUE_UP[1])
  {
    assert NewExchange(true) == Shown([], map[], map[]);
    AddStep([], 1, 3);
    AddStep([(1, 3)], 2, 4);
    assert [] + [(1, 3)] == [(1, 3)] && [(1, 3)] + [(2, 4)] == AHEAD;
    hide Apply, Shown;
  }

  lemma {:induction false} CancelSteps()
    ensures Apply(L3Exact, Queued(AHEAD, PendingNew), QUEUE_UP[3]).0 == Queued(AHEAD, Open)
    ensures Apply(L3Exact, Queued(AHEAD, Open), QUEUE_UP[4]).0 == Queued(AHEAD, PendingCancel)
    ensures Allowed(Shown(AHEAD, map[], map[]), QUEUE_UP[2])
    ensures Allowed(Queued(AHEAD, PendingNew), QUEUE_UP[3]) && Allowed(Queued(AHEAD, Open), QUEUE_UP[4])
  {
  }

  lemma {:induction false} QueueStands()
    ensures AllowedRun(L3Exact, NewExchange(true), QUEUE_UP)
    ensures RunOps(L3Exact, NewExchange(true), QUEUE_UP).0 == Queued(AHEAD, PendingCancel)
  {
    var m, ops, ex := L3Exact, QUEUE_UP, NewExchange(true);
    var one, two := Shown([(1, 3)], map[], map[]), Shown(AHEAD, map[], map[]);
    AddSteps();
    JoinStep();
    CancelSteps();
    hide Apply, Allowed, Queued, Shown, NewExchange, RunOps, AllowedRun;
    RunCons(m, ex, ops);
    RunCons(m, one, ops[1..]);
    assert ops[1..][1..] == ops[2..];
    RunCons(m, two, ops[2..]);
    assert ops[2..][1..] == ops[3..];
    RunCons(m, Queued(AHEAD, PendingNew), ops[3..]);
    assert ops[3..][1..] == ops[4..] && ops[4..][1..] == [];
    RunCons(m, Queued(AHEAD, Open), ops[4..]);
    RunNothing(m, Queued(AHEAD, PendingCancel));
  }

  // A run of allowed operations reaches an order in cancel flight whose cache is the queue ahead of it;
  // the venue then deletes the first order of that queue, and the cache still holds it.
  lemma {:induction false} CacheCanGoStale()
    ensures AllowedRun(L3Exact, NewExchange(true), QUEUE_UP)
    ensures
      var ex := RunOps(L3Exact, NewExchange(true), QUEUE_UP).0;
      var ex' := Apply(L3Exact, ex, Venue(1, 0, Delete)).0;
      && 9 in ex.orders && ex.orders[9].state == PendingCancel && ex.bookL3.Some?
      && CacheMatches(ex.orders[9].q, SideLevel(ex.bookL3.value, Buy, 100))
      && 9 in ex'.orders && ex'.bookL3.Some?
      && !CacheMatches(ex'.orders[9].q, SideLevel(ex'.bookL3.value, Buy, 100))
  {
    QueueStands();
    NewIsGood(true);
    RunKeepsGood(L3Exact, NewExchange(true), QUEUE_UP);
    var ex := Queued(AHEAD, PendingCancel);
    assert SideLevel(ex.bookL3.value, Buy, 100) == AHEAD;
    assert Touches(AHEAD, Venue(1, 0, Delete).l3);
    hide RunOps, AllowedRun, BucketsOk, Apply, GoodExchange, Touches;
    PendingCancelGoesStale(ex, 9, Venue(1, 0, Delete).l3);
  }
}
