// Under any open-order limit other than one, a run can take a position to twice the position limit: two
// market sells of the full limit pass the check together, and then both fill.
module PositionGrowth {
  import opened Types
  import opened Arith
  import opened AvgCost
  import opened Accounts
  import opened RiskGuards
  import opened Ledgers
  import opened BookL2
  import opened QueueModels
  import opened Exchanges
  import opened EventQueues
  import opened Feeds
  import opened EngineSpec
  import opened EngineClock
  import opened LifecycleRun
  import opened EngineInvariant
  import opened EngineGuarantees
  import opened MissedDeadline

  // ---- The run ---------------------------------------------------------------------------------------

  const PRINT: Tick := Tick(0, 0, 0, 1, 1, 1, NoSide)

  const CALL_FOR_ORDERS: FundingEvent := FundingEvent(0, 0, 2)

  function Ask(m: int, id: int): Order {
    Order(id, 0, 0, 1, m, 1, Sell, Market)
  }

  // Asks once for two market sells of the full position limit.
  function Greedy(cfg: Config): Env<int> {
    var cmd := SubmitOrder(Ask(cfg.maxPosition, 0));
    Env(cfg, (s: int, cb: Callback) => if s == 0 && cb.payload.OnFunding? then Reply(1, [cmd, cmd]) else Reply(s, []),
        (now: int, draw: nat) => 0)
  }

  // A print of symbol 1 and a payment for symbol 2, both at time 0.
  function GreedyStart(cfg: Config): Engine<int> {
    Start(cfg, 0, [], [], {}, [Push(0, EvTick(PRINT)), Push(0, EvFunding(CALL_FOR_ORDERS))])
  }

  // Twice the limit on the short side, as far as 64 bits reach.
  function TwiceShort(cfg: Config): int {
    SatAdd(-cfg.maxPosition, -cfg.maxPosition)
  }

  ghost predicate Roomy(cfg: Config) {
    GoodConfig(cfg) && cfg.maxOpenOrders != 1 && 0 < cfg.maxPosition <= I64_MAX
  }

  predicate Idle(b: Batch) {
    b.ticks == [] && b.reports == []
  }

  // The engine has this state, but for the flags of an empty batch.
  ghost predicate Stands<S>(e: Engine<S>, c: Core<S>, q: Queue, next: int) {
    e.core == c.(batch := e.core.batch) && Idle(e.core.batch) && e.feed == Feed(q, next, [], [])
  }

  lemma {:induction false} FinishIdle<S>(env: Env<S>, eff: Effect<S>, f: Feed, e: Event)
    requires eff.Effect? && Idle(eff.core.batch)
    ensures
      var o := Finish(env, eff, f, e);
      && o.Stepped? && o.engine.feed == Schedule(f, eff.pushes)
      && o.engine.core == eff.core.(batch := o.engine.core.batch) && Idle(o.engine.core.batch)
  {
    var f1 := Schedule(f, eff.pushes);
    assert PushAll(f1.queue, f1.nextSeq, []) == f1.queue;
    hide PushAll;
  }

  // One iteration that leaves the batch alone.
  lemma {:induction false} IdleStep<S>(env: Env<S>, e: Engine<S>, x: Event, q: Queue, next: int)
    requires e.feed == Feed([x] + q, next, [], []) && Idle(e.core.batch)
    ensures
      var eff := Handle(env, e.core.(now := x.ts), x.kind);
      var o := Advance(env, e);
      eff.Effect? && Idle(eff.core.batch) ==>
        && o.Stepped? && o.engine.feed == Feed(PushAll(q, next, eff.pushes), next + |eff.pushes|, [], [])
        && o.engine.core == eff.core.(batch := o.engine.core.batch) && Idle(o.engine.core.batch)
  {
    PopHead(env, e);
    assert e.feed.queue[1..] == q;
    var eff := Handle(env, e.core.(now := x.ts), x.kind);
    hide Handle, PushAll, Finish, Advance;
    if eff.Effect? && Idle(eff.core.batch) {
      FinishIdle(env, eff, e.feed.(queue := q), x);
    }
  }

  // ---- Its states --------------------------------------------------------------------------------------

  function AfterPrint(cfg: Config): Core<int> {
    GreedyStart(cfg).core.(exchanges := map[1 := NewExchange(false)], truth := map[1 := PRINT])
  }

  function AfterCall(cfg: Config): Core<int> {
    AfterPrint(cfg).(strategy := 1, routes := map[1 := 1, 2 := 1], nextOrderId := 3)
  }

  function OneOrder(cfg: Config): Exchange {
    Submit(cfg.model, NewExchange(false), Ask(cfg.maxPosition, 1))
  }

  function TwoOrders(cfg: Config): Exchange {
    Submit(cfg.model, OneOrder(cfg), Ask(cfg.maxPosition, 2))
  }

  function AfterOrder(cfg: Config, ex: Exchange, draws: nat): Core<int> {
    AfterCall(cfg).(exchanges := map[1 := ex], draws := draws)
  }

  lemma {:induction false} PushTwo(p: Push, p': Push, q: Queue, next: int)
    requires p.ts <= p'.ts && forall x :: x in q ==> x.ts <= p.ts && x.seqNo < next
    ensures PushAll(q, next, [p, p']) == q + [Event(p.ts, next, p.kind), Event(p'.ts, next + 1, p'.kind)]
  {
    var x, x' := Event(p.ts, next, p.kind), Event(p'.ts, next + 1, p'.kind);
    hide PushAll, Insert;
    PushAllAppend(q, next, [p], [p']);
    assert [p] + [p'] == [p, p'];
    PushOne(q, next, p);
    InsertLast(q, x);
    PushOne(q + [x], next + 1, p');
    InsertLast(q + [x], x');
    assert q + [x] + [x'] == q + [x, x'];
  }

  lemma {:induction false} PrintStep(cfg: Config)
    requires Roomy(cfg)
    ensures
      var o := Advance(Greedy(cfg), GreedyStart(cfg));
      o.Stepped? && Stands(o.engine, AfterPrint(cfg), [Event(0, 1, EvFunding(CALL_FOR_ORDERS))], 2)
  {
    var e := GreedyStart(cfg);
    var x, y := Event(0, 0, EvTick(PRINT)), Event(0, 1, EvFunding(CALL_FOR_ORDERS));
    PushTwo(Push(0, x.kind), Push(0, y.kind), [], 0);
    assert [] + [x, y] == [x] + [y];
    IdleStep(Greedy(cfg), e, x, [y], 2);
    hide Advance, Insert;
    assert PushAll([y], 2, []) == [y];
    assert Record(e.core.ledger, []) == e.core.ledger;
  }

  lemma {:induction false} TwoCommands(cfg: Config, l: Ledger, d: Desk, cmds: seq<Command>, ts: int)
    requires |cmds| == 2
    ensures
      var (d1, p) := OneCommand(cfg, l, d, cmds[0], ts);
      var (d2, p') := OneCommand(cfg, l, d1, cmds[1], ts);
      Commands(cfg, l, d, cmds, ts) == (d2, [p, p'])
  {
    hide OneCommand;
    var (d1, p) := OneCommand(cfg, l, d, cmds[0], ts);
    var (d2, p') := OneCommand(cfg, l, d1, cmds[1], ts);
    assert cmds[1..][0] == cmds[1] && cmds[1..][1..] == [];
    assert Commands(cfg, l, d2, cmds[1..][1..], ts) == (d2, []);
    assert Commands(cfg, l, d1, cmds[1..], ts) == (d2, [p'] + []);
    assert [p] + ([p'] + []) == [p, p'];
  }

  lemma {:induction false} BothAccepted(cfg: Config)
    requires Roomy(cfg)
    ensures
      var (m, l) := (cfg.maxPosition, GreedyStart(cfg).core.ledger);
      var cmd := SubmitOrder(Ask(m, 0));
      Commands(cfg, l, Desk(map[], 1), [cmd, cmd], 0)
      == (Desk(map[1 := 1, 2 := 1], 3), [Push(0, EvOrder(Ask(m, 1))), Push(0, EvOrder(Ask(m, 2)))])
  {
    var (m, l) := (cfg.maxPosition, GreedyStart(cfg).core.ledger);
    var cmd := SubmitOrder(Ask(m, 0));
    var none: map<int, int> := map[];
    var d1, d2 := Desk(map[1 := 1], 2), Desk(map[1 := 1, 2 := 1], 3);
    assert PositionQty(l.account, 1) == 0;
    assert |none| == 0 && none[1 := 1] == d1.routes && |d1.routes| == 1 && d1.routes[2 := 1] == d2.routes;
    assert OneCommand(cfg, l, Desk(none, 1), cmd, 0) == (d1, Push(0, EvOrder(Ask(m, 1))));
    assert OneCommand(cfg, l, d1, cmd, 0) == (d2, Push(0, EvOrder(Ask(m, 2))));
    hide OneCommand;
    TwoCommands(cfg, l, Desk(none, 1), [cmd, cmd], 0);
  }

  lemma {:induction false} CallStep(cfg: Config, e: Engine<int>)
    requires Roomy(cfg) && Stands(e, AfterPrint(cfg), [Event(0, 1, EvFunding(CALL_FOR_ORDERS))], 2)
    ensures
      var o := Advance(Greedy(cfg), e);
      var q := [Event(0, 2, EvOrder(Ask(cfg.maxPosition, 1))), Event(0, 3, EvOrder(Ask(cfg.maxPosition, 2)))];
      o.Stepped? && Stands(o.engine, AfterCall(cfg), q, 4)
  {
    var m := cfg.maxPosition;
    BothAccepted(cfg);
    PushTwo(Push(0, EvOrder(Ask(m, 1))), Push(0, EvOrder(Ask(m, 2))), [], 2);
    var x := Event(0, 1, EvFunding(CALL_FOR_ORDERS));
    assert [x] + [] == [x];
    IdleStep(Greedy(cfg), e, x, [], 2);
    hide Advance, Insert, PushAll, Commands;
    assert FundingMark(e.core.(now := 0), 2).None?;
    var eff := HandleFunding(Greedy(cfg), e.core.(now := 0), CALL_FOR_ORDERS);
    assert eff.Effect? && eff.pushes == [Push(0, EvOrder(Ask(m, 1))), Push(0, EvOrder(Ask(m, 2)))];
    assert eff.core == AfterCall(cfg).(batch := e.core.batch);
  }

  // An order reaches the exchange; its acknowledgement queues behind everything else.
  lemma {:induction false} OrderStep(
    cfg: Config, e: Engine<int>, ex: Exchange, id: int, draws: nat, q: Queue, next: int)
    requires Stands(e, AfterOrder(cfg, ex, draws), [Event(0, next - 2, EvOrder(Ask(cfg.maxPosition, id)))] + q, next)
    requires forall y :: y in q ==> y.ts == 0 && y.seqNo < next
    ensures
      var o := Advance(Greedy(cfg), e);
      var ex' := Submit(cfg.model, ex, Ask(cfg.maxPosition, id));
      o.Stepped? && Stands(o.engine, AfterOrder(cfg, ex', draws + 1), q + [Event(0, next, EvAck(id))], next + 1)
  {
    hide Advance, Insert, PushAll, Submit, Commands, FundingMark, OnTrade;
    IdleStep(Greedy(cfg), e, Event(0, next - 2, EvOrder(Ask(cfg.maxPosition, id))), q, next);
    PushOne(q, next, Push(0, EvAck(id)));
    InsertLast(q, Event(0, next, EvAck(id)));
  }

  // A market order of this size is about to fill at the print's price.
  ghost predicate Waits(c: Core<int>, m: int, id: int) {
    && id in c.routes && c.routes[id] == 1 && 1 in c.exchanges && 1 in c.truth && c.truth[1] == PRINT
    && (var ex := c.exchanges[1];
        ex.book == EMPTY_L2 && ex.bookL3.None? && id in ex.orders && ex.orders[id].order == Ask(m, id))
  }

  lemma {:induction false} NoQuote(ex: Exchange)
    requires ex.book == EMPTY_L2 && ex.bookL3.None?
    ensures MarketQuote(ex, Sell, Some(1)) == Some((1, I64_MAX))
  {
  }

  lemma {:induction false} OneMore(l: Ledger, j: FillJob, m: int)
    requires j.order.side == Sell && j.order.symbolId == 1 && j.fill.qty == m && 0 < m
    requires PositionQty(l.account, 1) <= 0
    ensures PositionQty(Record(l, [j]).account, 1) == SatAdd(PositionQty(l.account, 1), -m)
  {
    hide TruncDiv, Weighted, UpdatePnl;
    var mid := l.(log := LogFills(l.log, [j]));
    assert [j][..0] == [];
    assert SettleAll(mid, []) == mid;
    assert Record(l, [j]).account == AfterFill(l.account, j.order, m, j.fill.price);
  }

  lemma {:induction false} AckFills(env: Env<int>, c: Core<int>, m: int, id: int, other: int)
    requires Waits(c, m, id) && 0 < m && id != other
    requires m <= I64_MAX && PositionQty(c.ledger.account, 1) <= 0
    ensures
      var eff := HandleAck(env, c, id);
      && eff.Effect? && eff.core.batch == c.batch
      && PositionQty(eff.core.ledger.account, 1) == SatAdd(PositionQty(c.ledger.account, 1), -m)
      && |eff.pushes| == 1 && eff.pushes[0].ts == c.now + env.cfg.reportLatency
      && (Waits(c, m, other) ==> Waits(eff.core, m, other))
  {
    var ex := ExchangeAt(c, 1);
    NoQuote(ex);
    var r := FillMarket(ex, id, Some(1)).value.1;
    var j := JobOf(Ask(m, id), r, c.now, env.cfg.takerBps, true);
    OneMore(c.ledger, j, m);
    hide Record, MarketQuote;
  }

  lemma {:induction false} AckStep(cfg: Config, e: Engine<int>, x: Event, q: Queue, next: int, id: int, other: int)
    requires Roomy(cfg) && Idle(e.core.batch) && e.feed == Feed([x] + q, next, [], []) && x.kind == EvAck(id)
    requires x.ts == 0 && Waits(e.core, cfg.maxPosition, id) && id != other
    requires PositionQty(e.core.ledger.account, 1) <= 0
    ensures
      var o := Advance(Greedy(cfg), e);
      && o.Stepped? && Idle(o.engine.core.batch)
      && (q != [] && q[0].ts == 0 && q[0].seqNo < next ==>
            var rest := o.engine.feed.queue;
            rest != [] && rest[0] == q[0] && o.engine.feed == Feed([q[0]] + rest[1..], next + 1, [], []))
      && (Waits(e.core, cfg.maxPosition, other) ==> Waits(o.engine.core, cfg.maxPosition, other))
      && PositionQty(o.engine.core.ledger.account, 1)
         == SatAdd(PositionQty(e.core.ledger.account, 1), -cfg.maxPosition)
  {
    var env, c := Greedy(cfg), e.core.(now := 0);
    AckFills(env, c, cfg.maxPosition, id, other);
    IdleStep(env, e, x, q, next);
    var eff := HandleAck(env, c, id);
    var p := eff.pushes[0];
    assert eff.pushes == [p];
    PushOne(q, next, p);
    if q != [] && q[0].ts == 0 && q[0].seqNo < next {
      PopCommutes(q, Event(p.ts, next, p.kind));
    }
    hide Advance, HandleAck, PushAll, Insert, PositionQty;
  }

  lemma {:induction false} TwoWait(cfg: Config, e: Engine<int>, q: Queue)
    requires Roomy(cfg) && Stands(e, AfterOrder(cfg, TwoOrders(cfg), 2), q, 6)
    ensures Waits(e.core, cfg.maxPosition, 1) && Waits(e.core, cfg.maxPosition, 2)
    ensures PositionQty(e.core.ledger.account, 1) == 0
    ensures Idle(e.core.batch) && e.feed == Feed(q, 6, [], [])
  {
    hide Register;
  }

  lemma {:induction false} FirstFills(cfg: Config, e: Engine<int>, x: Event, y: Event)
    requires Roomy(cfg) && Idle(e.core.batch) && e.feed == Feed([x] + [y], 6, [], [])
    requires x == Event(0, 4, EvAck(1)) && y == Event(0, 5, EvAck(2))
    requires Waits(e.core, cfg.maxPosition, 1) && Waits(e.core, cfg.maxPosition, 2)
    requires PositionQty(e.core.ledger.account, 1) == 0
    ensures
      var o := Advance(Greedy(cfg), e);
      && o.Stepped? && Idle(o.engine.core.batch) && Waits(o.engine.core, cfg.maxPosition, 2)
      && o.engine.feed.queue != [] && o.engine.feed == Feed([y] + o.engine.feed.queue[1..], 7, [], [])
      && PositionQty(o.engine.core.ledger.account, 1) == -cfg.maxPosition
  {
    hide Advance, PositionQty, Waits, Greedy;
    AckStep(cfg, e, x, [y], 6, 1, 2);
  }

  lemma {:induction false} SecondFills(cfg: Config, e: Engine<int>, y: Event)
    requires Roomy(cfg) && Idle(e.core.batch) && Waits(e.core, cfg.maxPosition, 2) && y == Event(0, 5, EvAck(2))
    requires e.feed.queue != [] && e.feed == Feed([y] + e.feed.queue[1..], 7, [], [])
    requires PositionQty(e.core.ledger.account, 1) == -cfg.maxPosition
    ensures
      var o := Advance(Greedy(cfg), e);
      o.Stepped? && PositionQty(o.engine.core.ledger.account, 1) == TwiceShort(cfg)
  {
    hide Advance, PositionQty, Waits, Greedy;
    AckStep(cfg, e, y, e.feed.queue[1..], 7, 2, 1);
  }

  // The run is under way as soon as both orders are acknowledged.
  lemma {:induction false} BothFill(cfg: Config, e: Engine<int>)
    requires Roomy(cfg)
    requires Stands(e, AfterOrder(cfg, TwoOrders(cfg), 2), [Event(0, 4, EvAck(1)), Event(0, 5, EvAck(2))], 6)
    ensures
      var o := Advance(Greedy(cfg), e);
      && o.Stepped?
      && var o' := Advance(Greedy(cfg), o.engine);
         o'.Stepped? && PositionQty(o'.engine.core.ledger.account, 1) == TwiceShort(cfg)
  {
    var x, y := Event(0, 4, EvAck(1)), Event(0, 5, EvAck(2));
    TwoWait(cfg, e, [x, y]);
    hide Advance, PositionQty, Waits, Stands, Greedy, AfterOrder, TwoOrders;
    assert [x] + [y] == [x, y];
    FirstFills(cfg, e, x, y);
    SecondFills(cfg, Advance(Greedy(cfg), e).engine, y);
  }

  // ---- The bound, exactly --------------------------------------------------------------------------------

  lemma {:induction false} OneMoreStep<S>(env: Env<S>, e: Engine<S>, n: nat, last: Engine<S>)
    requires After(env, e, n) == Some(last) && Advance(env, last).Stepped?
    ensures After(env, e, n + 1) == Some(Advance(env, last).engine)
  {
    hide Advance;
  }

  lemma {:induction false} FirstArrives(cfg: Config, e: Engine<int>)
    requires Roomy(cfg)
    requires Stands(e, AfterCall(cfg), [Event(0, 2, EvOrder(Ask(cfg.maxPosition, 1))),
                                        Event(0, 3, EvOrder(Ask(cfg.maxPosition, 2)))], 4)
    ensures
      var o := Advance(Greedy(cfg), e);
      var q := [Event(0, 3, EvOrder(Ask(cfg.maxPosition, 2))), Event(0, 4, EvAck(1))];
      o.Stepped? && Stands(o.engine, AfterOrder(cfg, OneOrder(cfg), 1), q, 5)
  {
    var x, y := Event(0, 2, EvOrder(Ask(cfg.maxPosition, 1))), Event(0, 3, EvOrder(Ask(cfg.maxPosition, 2)));
    assert AfterOrder(cfg, NewExchange(false), 0) == AfterCall(cfg);
    assert OneOrder(cfg) == Submit(cfg.model, NewExchange(false), Ask(cfg.maxPosition, 1));
    hide Advance, AfterCall, AfterOrder, OneOrder, Stands, Submit, NewExchange, Greedy;
    assert [x] + [y] == [x, y] && [y] + [Event(0, 4, EvAck(1))] == [y, Event(0, 4, EvAck(1))];
    OrderStep(cfg, e, NewExchange(false), 1, 0, [y], 4);
  }

  lemma {:induction false} SecondArrives(cfg: Config, e: Engine<int>)
    requires Roomy(cfg)
    requires Stands(e, AfterOrder(cfg, OneOrder(cfg), 1),
                    [Event(0, 3, EvOrder(Ask(cfg.maxPosition, 2))), Event(0, 4, EvAck(1))], 5)
    ensures
      var o := Advance(Greedy(cfg), e);
      var q := [Event(0, 4, EvAck(1)), Event(0, 5, EvAck(2))];
      o.Stepped? && Stands(o.engine, AfterOrder(cfg, TwoOrders(cfg), 2), q, 6)
  {
    var y, z := Event(0, 3, EvOrder(Ask(cfg.maxPosition, 2))), Event(0, 4, EvAck(1));
    assert TwoOrders(cfg) == Submit(cfg.model, OneOrder(cfg), Ask(cfg.maxPosition, 2));
    hide Advance, AfterOrder, OneOrder, TwoOrders, Stands, Submit, Greedy;
    assert [y] + [z] == [y, z] && [z] + [Event(0, 5, EvAck(2))] == [z, Event(0, 5, EvAck(2))];
    OrderStep(cfg, e, OneOrder(cfg), 2, 1, [z], 5);
  }

  lemma {:induction false} GreedyRun(cfg: Config)
    requires Roomy(cfg)
    ensures
      match After(Greedy(cfg), GreedyStart(cfg), 6)
      case Some(e) => PositionQty(e.core.ledger.account, 1) == TwiceShort(cfg)
      case None => false
  {
    var env, e0, m := Greedy(cfg), GreedyStart(cfg), cfg.maxPosition;
    PrintStep(cfg);
    hide Advance, GreedyStart, Greedy, AfterPrint, AfterCall, AfterOrder, OneOrder, TwoOrders, PositionQty, Stands, Ask;
    var e1 := Advance(env, e0).engine;
    CallStep(cfg, e1);
    var e2 := Advance(env, e1).engine;
    FirstArrives(cfg, e2);
    var e3 := Advance(env, e2).engine;
    SecondArrives(cfg, e3);
    var e4 := Advance(env, e3).engine;
    BothFill(cfg, e4);
    assert After(env, e0, 0) == Some(e0);
    hide After;
    OneMoreStep(env, e0, 0, e0);
    OneMoreStep(env, e0, 1, e1);
    OneMoreStep(env, e0, 2, e2);
    OneMoreStep(env, e0, 3, e3);
    OneMoreStep(env, e0, 4, e4);
    OneMoreStep(env, e0, 5, Advance(env, e4).engine);
  }

  lemma {:induction false} GreedyIsSound(cfg: Config)
    ensures Sound(cfg, [], GreedyStart(cfg))
  {
    hide Sound, PushAll;
    StartSound(cfg, 0, [], [], {}, [Push(0, EvTick(PRINT)), Push(0, EvFunding(CALL_FOR_ORDERS))]);
  }

  lemma {:induction false} GreedyIsGood(cfg: Config)
    requires Roomy(cfg)
    ensures GoodStrategy(Greedy(cfg))
  {
  }

  // Under any open-order limit but one there is a run that reaches twice the position limit, short.
  lemma {:induction false} OtherLimitsLetPositionsGrow(cfg: Config)
    requires Roomy(cfg)
    ensures Reaches(Greedy(cfg), GreedyStart(cfg), 6)
    ensures
      PositionQty(After(Greedy(cfg), GreedyStart(cfg), 6).value.core.ledger.account, 1)
      == TwiceShort(cfg)
  {
    GreedyRun(cfg);
    GreedyIsGood(cfg);
    GreedyIsSound(cfg);
    assert Greedy(cfg).cfg == cfg;
    hide After, Sound, PositionQty, GoodStrategy, Greedy, GreedyStart;
  }

  ghost predicate WithinLimit<S>(env: Env<S>, e: Engine<S>, n: nat, s: int) {
    match After(env, e, n)
    case Some(last) => Abs(PositionQty(last.core.ledger.account, s)) <= env.cfg.maxPosition
    case None => true
  }

  // The position limit holds in every reachable state of every run exactly when at most one order may
  // be open at a time.
  lemma {:induction false} PositionsAreBoundedExactly(cfg: Config)
    requires GoodConfig(cfg) && 0 < cfg.maxPosition <= I64_MAX
    ensures cfg.maxOpenOrders == 1 <==>
              forall env: Env<int>, e: Engine<int>, n: nat, s ::
                env.cfg == cfg && Reaches(env, e, n) ==> WithinLimit(env, e, n, s)
  {
    if cfg.maxOpenOrders == 1 {
      forall env: Env<int>, e: Engine<int>, n: nat, s | env.cfg == cfg && Reaches(env, e, n)
        ensures WithinLimit(env, e, n, s)
      {
        PositionNeverExceedsLimit(env, e, n, s);
        hide Reaches, After, PositionQty;
      }
    } else {
      OtherLimitsLetPositionsGrow(cfg);
      hide Reaches, After, PositionQty;
      assert !WithinLimit(Greedy(cfg), GreedyStart(cfg), 6, 1);
    }
  }
}
