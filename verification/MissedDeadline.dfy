// A run that misses the batch deadline, step by step.
module MissedDeadline {
  import opened Types
  import opened Stats
  import opened QueueModels
  import opened Exchanges
  import opened EventQueues
  import opened Feeds
  import opened EngineSpec
  import opened BatchDeadline

  const HASTY: Config := Config(0, 0, BatchMode, 5, NoLog, 0, 0, 0, 0, 0, Conservative)

  const EARLY_TICK: Tick := Tick(10, 10, 0, 1, 1, 1, Buy)

  const PAYMENT: FundingEvent := FundingEvent(15, 0, 2)

  const LATE_LEVEL: L2Update := L2Update(100, 1, 1, 1, Buy)

  // Cancels an order it never placed, whenever funding is due.
  function CancelsOnFunding(s: int, cb: Callback): Reply<int> {
    Reply(s, if cb.payload.OnFunding? then [CancelOrder(99)] else [])
  }

  function HastyEnv(): Env<int> {
    Env(HASTY, CancelsOnFunding, (now, draw) => 0)
  }

  // A tick delivered at 10, funding at 15, when the batch is due as well, and nothing else until 100.
  function HastyStart(): Engine<int> {
    Start(HASTY, 0, [], [], {},
          [Push(10, EvDelivery(EARLY_TICK)), Push(15, EvFunding(PAYMENT)), Push(100, EvL2(LATE_LEVEL))])
  }

  lemma {:induction false} PopHead<S>(env: Env<S>, e: Engine<S>)
    requires e.feed.sources == [] && e.feed.l3Sources == [] && e.feed.queue != []
    ensures Advance(env, e) == Process(env, e.core, e.feed.(queue := e.feed.queue[1..]), e.feed.queue[0])
  {
    hide Process;
    assert NextItem(e.feed).Neither?;
  }

  // Where an event lands in the queue.
  lemma {:induction false} InsertBetween(a: Queue, e: Event, b: Queue)
    requires (forall x :: x in a ==> !Before(e, x)) && (b != [] ==> Before(e, b[0]))
    ensures Insert(a + b, e) == a + [e] + b
  {
    if a == [] {
      assert a + b == b;
    } else {
      assert (a + b)[0] == a[0] && (a + b)[1..] == a[1..] + b;
      InsertBetween(a[1..], e, b);
      assert a == [a[0]] + a[1..];
    }
  }

  lemma {:induction false} InsertLast(a: Queue, e: Event)
    requires forall x :: x in a ==> !Before(e, x)
    ensures Insert(a, e) == a + [e]
  {
    InsertBetween(a, e, []);
    assert a + [] == a && a + [e] + [] == a + [e];
  }

  // Three pushes in order of time.
  lemma {:induction false} PushThree(p: Push, p': Push, p'': Push)
    requires p.ts <= p'.ts <= p''.ts
    ensures PushAll([], 0, [p, p', p''])
            == [Event(p.ts, 0, p.kind), Event(p'.ts, 1, p'.kind), Event(p''.ts, 2, p''.kind)]
  {
    var x, x', x'' := Event(p.ts, 0, p.kind), Event(p'.ts, 1, p'.kind), Event(p''.ts, 2, p''.kind);
    hide PushAll, Insert;
    PushAllAppend([], 0, [p, p'], [p'']);
    PushAllAppend([], 0, [p], [p']);
    assert [p, p'] + [p''] == [p, p', p''] && [p] + [p'] == [p, p'];
    PushOne([], 0, p);
    InsertLast([], x);
    assert [] + [x] == [x];
    PushOne([x], 1, p');
    InsertLast([x], x');
    assert [x] + [x'] == [x, x'];
    PushOne([x, x'], 2, p'');
    InsertLast([x, x'], x'');
    assert [x, x'] + [x''] == [x, x', x''];
  }

  function HastyBatch(timer: Option<int>, pending: bool): Batch {
    Batch([EARLY_TICK], [], timer, 2, pending)
  }

  function HastyCore(now: int, b: Batch): Core<int> {
    HastyStart().core.(market := map[1 := EARLY_TICK], now := now, batch := b)
  }

  function HastyEngine(now: int, b: Batch, queue: Queue, next: int): Engine<int> {
    Engine(HastyCore(now, b), Feed(queue, next, [], []))
  }

  lemma {:induction false} HastyTick()
    ensures
      var o := Advance(HastyEnv(), HastyStart());
      && o.Stepped?
      && o.engine == HastyEngine(10, HastyBatch(Some(1), false),
           [Event(15, 1, EvFunding(PAYMENT)), Event(15, 3, EvTimer(1)), Event(100, 2, EvL2(LATE_LEVEL))], 4)
  {
    var e := HastyStart();
    var p, p', p'' := Push(10, EvDelivery(EARLY_TICK)), Push(15, EvFunding(PAYMENT)), Push(100, EvL2(LATE_LEVEL));
    var x, x', x'' := Event(10, 0, p.kind), Event(15, 1, p'.kind), Event(100, 2, p''.kind);
    PushThree(p, p', p'');
    var timer := Push(15, EvTimer(1));
    PushOne([x', x''], 3, timer);
    InsertBetween([x'], Event(15, 3, EvTimer(1)), [x'']);
    hide PushAll, Insert, Earliest;
    PopHead(HastyEnv(), e);
  }

  lemma {:induction false} HastyFunding()
    ensures
      var e := HastyEngine(10, HastyBatch(Some(1), false),
                 [Event(15, 1, EvFunding(PAYMENT)), Event(15, 3, EvTimer(1)), Event(100, 2, EvL2(LATE_LEVEL))], 4);
      var o := Advance(HastyEnv(), e);
      && o.Stepped?
      && o.engine == HastyEngine(15, HastyBatch(Some(1), true),
           [Event(15, 3, EvTimer(1)), Event(15, 4, EvCancel(99)), Event(100, 2, EvL2(LATE_LEVEL))], 5)
  {
    var e := HastyEngine(10, HastyBatch(Some(1), false),
               [Event(15, 1, EvFunding(PAYMENT)), Event(15, 3, EvTimer(1)), Event(100, 2, EvL2(LATE_LEVEL))], 4);
    PopHead(HastyEnv(), e);
    var timer, level := Event(15, 3, EvTimer(1)), Event(100, 2, EvL2(LATE_LEVEL));
    PushOne([timer, level], 4, Push(15, EvCancel(99)));
    InsertBetween([timer], Event(15, 4, EvCancel(99)), [level]);
    var cmds := [CancelOrder(99)];
    assert cmds[1..] == [];
    var l, d := e.core.ledger, Desk(map[], 1);
    assert Commands(HASTY, l, d, [], 15) == (d, []);
    assert [Push(15, EvCancel(99))] + [] == [Push(15, EvCancel(99))];
    assert Commands(HASTY, l, d, cmds, 15) == (d, [Push(15, EvCancel(99))]);
    hide Commands, PushAll, Insert, Earliest;
  }

  lemma {:induction false} HastyTimer()
    ensures
      var e := HastyEngine(15, HastyBatch(Some(1), true),
                 [Event(15, 3, EvTimer(1)), Event(15, 4, EvCancel(99)), Event(100, 2, EvL2(LATE_LEVEL))], 5);
      var o := Advance(HastyEnv(), e);
      && o.Stepped?
      && o.engine == HastyEngine(15, HastyBatch(None, true),
           [Event(15, 4, EvCancel(99)), Event(100, 2, EvL2(LATE_LEVEL))], 5)
  {
    var e := HastyEngine(15, HastyBatch(Some(1), true),
               [Event(15, 3, EvTimer(1)), Event(15, 4, EvCancel(99)), Event(100, 2, EvL2(LATE_LEVEL))], 5);
    PopHead(HastyEnv(), e);
  }

  lemma {:induction false} HastyCancel()
    ensures
      var e := HastyEngine(15, HastyBatch(None, true), [Event(15, 4, EvCancel(99)), Event(100, 2, EvL2(LATE_LEVEL))],
                           5);
      var o := Advance(HastyEnv(), e);
      o.Stepped? && o.engine == HastyEngine(15, HastyBatch(None, true), [Event(100, 2, EvL2(LATE_LEVEL))], 5)
  {
    PopHead(HastyEnv(),
            HastyEngine(15, HastyBatch(None, true), [Event(15, 4, EvCancel(99)), Event(100, 2, EvL2(LATE_LEVEL))], 5));
  }

  lemma {:induction false} HastyLevel()
    ensures
      var o := Advance(HastyEnv(), HastyEngine(15, HastyBatch(None, true), [Event(100, 2, EvL2(LATE_LEVEL))], 5));
      o.Stepped? && o.calls == [Callback(100, map[1 := EARLY_TICK], OnTicks([EARLY_TICK]))]
  {
    var e := HastyEngine(15, HastyBatch(None, true), [Event(100, 2, EvL2(LATE_LEVEL))], 5);
    PopHead(HastyEnv(), e);
    var c := e.core.(now := 100);
    var eff := Handle(HastyEnv(), c, EvL2(LATE_LEVEL));
    assert eff.Effect? && eff.core.batch == c.batch && eff.core.market == c.market && eff.core.now == 100
           && eff.calls == [];
    var call := Callback(100, c.market, OnTicks([EARLY_TICK]));
    var h := HandOver(HastyEnv(), eff.core.strategy, c.market, c.batch, 100);
    assert h.Handover? && h.calls == [call] + [];
    assert eff.calls + h.calls == [call];
    assert eff.pushes == [] && PushAll([], 5, []) == [];
    hide UpdateL2, Commands, HandOver, Handle, Earliest;
    assert Schedule(e.feed.(queue := []), eff.pushes).queue == [];
    assert Flush(HastyEnv(), eff.core, 100).Effect?;
    assert Flush(HastyEnv(), eff.core, 100).calls == h.calls;
  }

  lemma {:induction false} TooLate()
    ensures !HandedInTime(HASTY, [Callback(100, map[1 := EARLY_TICK], OnTicks([EARLY_TICK]))])
  {
    var calls := [Callback(100, map[1 := EARLY_TICK], OnTicks([EARLY_TICK]))];
    assert calls[0].payload.OnTicks? && calls[0].payload.ticks[0] == EARLY_TICK;
  }

  // With a maximum age of 5, the tick delivered at 10 is handed over at 100: the cancel issued in the
  // funding callback is refused before the batch, then due, is looked at.
  lemma {:induction false} DeadlineCanBeMissed()
    ensures After(HastyEnv(), HastyStart(), 4).Some?
    ensures CallsOf(Advance(HastyEnv(), After(HastyEnv(), HastyStart(), 4).value))
            == [Callback(100, map[1 := EARLY_TICK], OnTicks([EARLY_TICK]))]
    ensures !HandedInTime(HASTY, CallsOf(Advance(HastyEnv(), After(HastyEnv(), HastyStart(), 4).value)))
  {
    HastyTick();
    HastyFunding();
    HastyTimer();
    HastyCancel();
    HastyLevel();
    TooLate();
    hide Advance, HastyEngine, HastyStart, HastyEnv, HandedInTime;
    var env, e := HastyEnv(), HastyStart();
    assert After(env, e, 0) == Some(e);
    assert After(env, e, 1) == Some(Advance(env, e).engine);
    assert After(env, e, 2) == Some(Advance(env, After(env, e, 1).value).engine);
    assert After(env, e, 3) == Some(Advance(env, After(env, e, 2).value).engine);
    assert After(env, e, 4) == Some(Advance(env, After(env, e, 3).value).engine);
  }
}
