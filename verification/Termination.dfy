// A run ends exactly when the strategy issues finitely many commands in it, in either mode, whatever
// the strategy is and however its sources look.
module Termination {
  import opened Types
  import opened Ledgers
  import opened Exchanges
  import opened EventQueues
  import opened Feeds
  import opened EngineSpec
  import opened EngineClock

  // ---- Commands issued -----------------------------------------------------------------------------

  // The strategy's state after it has answered these callbacks.
  function StateAfter<S>(env: Env<S>, s: S, calls: seq<Callback>): S {
    if calls == [] then s
    else
      match env.strategy(s, calls[0])
      case StrategyError => s
      case Reply(s', _) => StateAfter(env, s', calls[1..])
  }

  // How many commands it answers them with.
  function Answered<S>(env: Env<S>, s: S, calls: seq<Callback>): nat {
    if calls == [] then 0
    else
      match env.strategy(s, calls[0])
      case StrategyError => 0
      case Reply(s', cmds) => |cmds| + Answered(env, s', calls[1..])
  }

  predicate GoesOn<S>(o: Outcome<S>) {
    o.Stepped? || o.Flushed?
  }

  // The commands issued in one iteration.
  function IssuedBy<S>(env: Env<S>, e: Engine<S>): nat {
    var o := Advance(env, e);
    if GoesOn(o) then Answered(env, e.core.strategy, o.calls) else 0
  }

  // The commands issued in the first n iterations.
  function Issued<S>(env: Env<S>, e: Engine<S>, n: nat): nat {
    if n == 0 then 0
    else
      match After(env, e, n - 1)
      case None => 0
      case Some(last) => Issued(env, e, n - 1) + IssuedBy(env, last)
  }

  predicate AboutReports(call: Callback) {
    call.payload.OnReport? || call.payload.OnReports?
  }

  predicate OnlyReports(calls: seq<Callback>) {
    forall k :: 0 <= k < |calls| ==> AboutReports(calls[k])
  }

  // Each of these callbacks is answered.
  ghost predicate Answers<S>(env: Env<S>, s: S, calls: seq<Callback>) {
    calls == [] || (env.strategy(s, calls[0]).Reply? && Answers(env, env.strategy(s, calls[0]).state, calls[1..]))
  }

  lemma {:induction false} AnsweredOne<S>(env: Env<S>, s: S, call: Callback)
    ensures env.strategy(s, call).Reply? ==>
              && StateAfter(env, s, [call]) == env.strategy(s, call).state
              && Answered(env, s, [call]) == |env.strategy(s, call).commands| && Answers(env, s, [call])
  {
    assert [call][1..] == [];
  }

  lemma {:induction false} AnsweredNone<S>(env: Env<S>, s: S)
    ensures StateAfter(env, s, []) == s && Answered(env, s, []) == 0 && Answers(env, s, [])
  {
  }

  lemma {:induction false} AnsweredAppend<S>(env: Env<S>, s: S, a: seq<Callback>, b: seq<Callback>)
    requires Answers(env, s, a)
    ensures StateAfter(env, s, a + b) == StateAfter(env, StateAfter(env, s, a), b)
    ensures Answered(env, s, a + b) == Answered(env, s, a) + Answered(env, StateAfter(env, s, a), b)
    decreases a
  {
    if a == [] {
      assert a + b == b;
    } else {
      assert (a + b)[0] == a[0] && (a + b)[1..] == a[1..] + b;
      AnsweredAppend(env, env.strategy(s, a[0]).state, a[1..], b);
    }
  }

  lemma {:induction false} AnswersAppend<S>(env: Env<S>, s: S, a: seq<Callback>, b: seq<Callback>)
    requires Answers(env, s, a) && Answers(env, StateAfter(env, s, a), b)
    ensures Answers(env, s, a + b)
    ensures OnlyReports(a) && OnlyReports(b) ==> OnlyReports(a + b)
    decreases a
  {
    if a == [] {
      assert a + b == b;
    } else {
      assert (a + b)[0] == a[0] && (a + b)[1..] == a[1..] + b;
      AnswersAppend(env, env.strategy(s, a[0]).state, a[1..], b);
    }
  }

  // ---- The measure ---------------------------------------------------------------------------------

  // How many further events an event may give rise to without any command being issued.
  function Weight(kind: EventKind): nat {
    match kind
    case EvOrder(_) => 4
    case EvAck(_) => 3
    case EvCancel(_) => 3
    case EvCancelAck(_) => 2
    case _ => 1
  }

  function QueueWeight(q: Queue): nat {
    if q == [] then 0 else Weight(q[0].kind) + QueueWeight(q[1..])
  }

  function PushWeight(ps: seq<Push>): nat {
    if ps == [] then 0 else Weight(ps[0].kind) + PushWeight(ps[1..])
  }

  // What an event from outside is worth: a delivery counts again while it is buffered.
  function Worth(kind: EventKind): nat {
    match kind
    case EvTick(_) => 1
    case EvDelivery(_) => 2
    case EvFunding(_) => 1
    case _ => 0
  }

  function QueueWorth(q: Queue): nat {
    if q == [] then 0 else Worth(q[0].kind) + QueueWorth(q[1..])
  }

  ghost predicate Worthless(ps: seq<Push>) {
    forall p :: p in ps ==> Worth(p.kind) == 0
  }

  // What is still to come from outside. A source item stands for a trade and its delivery.
  function MarketLeft(f: Feed, b: Batch): nat {
    4 * Remaining(f) + QueueWorth(f.queue) + |b.ticks|
  }

  function Buffered(b: Batch): nat {
    if b.ticks != [] || b.reports != [] then 1 else 0
  }

  // ---- The queue -----------------------------------------------------------------------------------

  lemma {:induction false} InsertWeighs(q: Queue, e: Event)
    ensures QueueWeight(Insert(q, e)) == QueueWeight(q) + Weight(e.kind)
    ensures QueueWorth(Insert(q, e)) == QueueWorth(q) + Worth(e.kind)
  {
    hide Weight, Worth;
    if q != [] && !Before(e, q[0]) {
      InsertWeighs(q[1..], e);
      assert Insert(q, e)[1..] == Insert(q[1..], e);
    } else {
      assert Insert(q, e)[1..] == q;
    }
  }

  lemma {:induction false} PushesWeigh(q: Queue, next: int, ps: seq<Push>)
    ensures QueueWeight(PushAll(q, next, ps)) == QueueWeight(q) + PushWeight(ps)
    ensures Worthless(ps) ==> QueueWorth(PushAll(q, next, ps)) == QueueWorth(q)
    decreases ps
  {
    hide Insert, Weight, QueueWeight, Worth, QueueWorth;
    if ps != [] {
      var e := Event(ps[0].ts, next, ps[0].kind);
      InsertWeighs(q, e);
      PushesWeigh(Insert(q, e), next + 1, ps[1..]);
      if Worthless(ps) {
        assert ps[0] in ps;
      }
    }
  }

  lemma {:induction false} TwoPushes(q: Queue, next: int, p: Push, p': Push)
    ensures QueueWorth(PushAll(q, next, [p, p'])) == QueueWorth(q) + Worth(p.kind) + Worth(p'.kind)
  {
    hide Insert, Worth, QueueWorth, PushAll;
    var x := Event(p.ts, next, p.kind);
    assert [p, p'] == [p] + [p'];
    PushAllAppend(q, next, [p], [p']);
    PushOne(q, next, p);
    PushOne(Insert(q, x), next + 1, p');
    InsertWeighs(q, x);
    InsertWeighs(Insert(q, x), Event(p'.ts, next + 1, p'.kind));
  }

  // A source item is worth more than what it is turned into.
  lemma {:induction false} IngestOneShrinks(latency: int, f: Feed)
    requires CanIngest(f)
    ensures
      var g := IngestOne(latency, f);
      4 * Remaining(g) + QueueWorth(g.queue) < 4 * Remaining(f) + QueueWorth(f.queue)
  {
    IngestOneRemaining(latency, f);
    var ps := ItemPushes(latency, f);
    match NextItem(f) {
      case FromL3(i) =>
        hide NextItem, PushAll, QueueWorth;
        PushesWeigh(f.queue, f.nextSeq, ps);
      case FromTicks(j) =>
        assert ps == [ps[0], ps[1]];
        hide NextItem, PushAll, QueueWorth;
        TwoPushes(f.queue, f.nextSeq, ps[0], ps[1]);
    }
  }

  lemma {:induction false} IngestShrinks(latency: int, f: Feed)
    ensures
      var g := Ingest(latency, f);
      g == f || 4 * Remaining(g) + QueueWorth(g.queue) < 4 * Remaining(f) + QueueWorth(f.queue)
    decreases Remaining(f)
  {
    hide IngestOne, QueueWorth;
    if CanIngest(f) {
      IngestOneRemaining(latency, f);
      IngestOneShrinks(latency, f);
      IngestShrinks(latency, IngestOne(latency, f));
    }
  }

  lemma {:induction false} RemainingOfSources(f: Feed, g: Feed)
    requires g.sources == f.sources && g.l3Sources == f.l3Sources
    ensures Remaining(g) == Remaining(f)
  {
  }

  // ---- What the strategy is asked, and what it schedules -------------------------------------------

  // The callbacks are answered; without any command in the answers, at most w is scheduled; and
  // nothing from outside is scheduled.
  ghost predicate Costs<S>(env: Env<S>, before: S, eff: Effect<S>, w: nat) {
    eff.Effect? ==>
      && Worthless(eff.pushes)
      && Answers(env, before, eff.calls) && eff.core.strategy == StateAfter(env, before, eff.calls)
      && (Answered(env, before, eff.calls) == 0 ==> PushWeight(eff.pushes) <= w)
  }

  lemma {:induction false} CommandsWorthless(cfg: Config, l: Ledger, d: Desk, cmds: seq<Command>, ts: int)
    ensures Worthless(Commands(cfg, l, d, cmds, ts).1)
    ensures cmds == [] ==> Commands(cfg, l, d, cmds, ts).1 == []
    decreases cmds
  {
    if cmds != [] {
      CommandsWorthless(cfg, l, OneCommand(cfg, l, d, cmds[0], ts).0, cmds[1..], ts);
    }
  }

  lemma {:induction false} CallCosts<S>(env: Env<S>, c: Core<S>, ts: int, payload: Payload)
    ensures Costs(env, c.strategy, Call(env, c, ts, payload), 0)
    ensures
      var eff := Call(env, c, ts, payload);
      eff.Effect? ==> eff.core.batch == c.batch && |eff.calls| == 1 && eff.calls[0].payload == payload
  {
    var cb := Callback(ts, c.market, payload);
    AnsweredOne(env, c.strategy, cb);
    match env.strategy(c.strategy, cb) {
      case Reply(s, cmds) =>
        assert [cb][1..] == [];
        CommandsWorthless(env.cfg, c.ledger, Desk(c.routes, c.nextOrderId), cmds, ts);
      case _ =>
    }
    hide Commands, Worthless;
  }

  lemma {:induction false} HandOverAnswers<S>(env: Env<S>, s: S, market: map<int, Tick>, b: Batch, ts: int)
    ensures
      var h := HandOver(env, s, market, b, ts);
      h.Handover? ==>
        && Answers(env, s, h.calls) && h.state == StateAfter(env, s, h.calls)
        && |h.commands| == Answered(env, s, h.calls)
        && (b.ticks == [] ==> OnlyReports(h.calls))
  {
    var t, r := Callback(ts, market, OnTicks(b.ticks)), Callback(ts, market, OnReports(b.reports));
    AnsweredNone(env, s);
    AnsweredOne(env, s, t);
    AnsweredOne(env, s, r);
    if env.strategy(s, t).Reply? {
      AnsweredOne(env, env.strategy(s, t).state, r);
      AnsweredAppend(env, s, [t], [r]);
      if env.strategy(env.strategy(s, t).state, r).Reply? {
        AnswersAppend(env, s, [t], [r]);
      }
    }
    hide StateAfter, Answered, Answers;
    assert [] + [r] == [r] && [t] + [] == [t];
  }

  lemma {:induction false} FlushCosts<S>(env: Env<S>, c: Core<S>, ts: int)
    ensures Costs(env, c.strategy, Flush(env, c, ts), 0)
    ensures
      var eff := Flush(env, c, ts);
      eff.Effect? ==>
        && eff.core.batch.ticks == [] && eff.core.batch.reports == []
        && (c.batch.ticks == [] ==> OnlyReports(eff.calls))
  {
    HandOverAnswers(env, c.strategy, c.market, c.batch, ts);
    hide HandOver, Commands;
    match HandOver(env, c.strategy, c.market, c.batch, ts) {
      case Handover(s, cmds, calls) =>
        CommandsWorthless(env.cfg, c.ledger, Desk(c.routes, c.nextOrderId), cmds, ts);
      case Refused =>
    }
  }

  lemma {:induction false} PushesOf(p: Push)
    ensures PushWeight([p]) == Weight(p.kind)
    ensures forall r :: PushWeight([p, r]) == Weight(p.kind) + Weight(r.kind)
  {
    assert [p][1..] == [] && PushWeight([]) == 0;
    forall r ensures PushWeight([p, r]) == Weight(p.kind) + Weight(r.kind) {
      assert [p, r][1..] == [r] && [r][1..] == [];
    }
  }

  lemma {:induction false} NoWeight()
    ensures PushWeight([]) == 0
  {
  }

  lemma {:induction false} MarketAckCosts<S>(env: Env<S>, c: Core<S>, s: int, id: int)
    requires id in ExchangeAt(c, s).orders
    ensures
      var eff := MarketAck(env, c, s, id);
      Costs(env, c.strategy, eff, 2) && eff.Effect? && eff.calls == [] && eff.core.batch == c.batch
  {
    hide Record, JobOf, FillMarket, ForceCancel, ExchangeAt, PushWeight;
    var eff := MarketAck(env, c, s, id);
    PushesOf(eff.pushes[0]);
    assert |eff.pushes| == 1 ==> eff.pushes == [eff.pushes[0]];
    assert |eff.pushes| == 2 ==> eff.pushes == [eff.pushes[0], eff.pushes[1]];
  }

  // An event from outside is worth more than the buffer grows; any other event leaves the buffered
  // ticks alone, asks about reports only, and without a command schedules less than it weighs itself.
  ghost predicate Falls<S>(env: Env<S>, c: Core<S>, kind: EventKind, eff: Effect<S>) {
    eff.Effect? ==>
      && Worthless(eff.pushes)
      && Answers(env, c.strategy, eff.calls) && eff.core.strategy == StateAfter(env, c.strategy, eff.calls)
      && if Worth(kind) > 0 then |eff.core.batch.ticks| < |c.batch.ticks| + Worth(kind)
         else
           && eff.core.batch.ticks == c.batch.ticks && OnlyReports(eff.calls)
           && (Answered(env, c.strategy, eff.calls) == 0 ==> PushWeight(eff.pushes) < Weight(kind))
  }

  lemma {:induction false} OrderFalls<S>(env: Env<S>, c: Core<S>, kind: EventKind)
    requires kind.EvOrder? || kind.EvAck? || kind.EvCancel? || kind.EvCancelAck?
    ensures Falls(env, c, kind, Handle(env, c, kind))
  {
    hide Submit, AckNew, Cancel, AckCancel, ExchangeAt, MarketAck, Delay, PushWeight;
    if kind.EvAck? && kind.id in c.routes && kind.id in ExchangeAt(c, c.routes[kind.id]).orders {
      MarketAckCosts(env, c, c.routes[kind.id], kind.id);
    }
    var eff := Handle(env, c, kind);
    NoWeight();
    AnsweredNone(env, c.strategy);
    if eff.Effect? && |eff.pushes| == 1 {
      PushesOf(eff.pushes[0]);
      assert eff.pushes == [eff.pushes[0]];
    }
  }

  lemma {:induction false} NewsFalls<S>(env: Env<S>, c: Core<S>, kind: EventKind)
    requires kind.EvDelivery? || kind.EvReport? || kind.EvFunding? || kind.EvTimer?
    ensures Falls(env, c, kind, Handle(env, c, kind))
  {
    hide Call, Remove, ExchangeAt, Fund, FundingMark, PushWeight;
    NoWeight();
    AnsweredNone(env, c.strategy);
    if kind.EvDelivery? {
      CallCosts(env, c.(market := c.market[kind.tick.symbolId := kind.tick]), kind.tick.tsLocal, OnTick(kind.tick));
    } else if kind.EvReport? {
      CallCosts(env, Retire(c, kind.report), c.now, OnReport(kind.report));
    } else if kind.EvFunding? {
      var mark := FundingMark(c, kind.funding.symbolId);
      CallCosts(env, if mark.Some? then c.(ledger := Fund(c.ledger, kind.funding, mark.value)) else c, c.now,
                OnFunding(kind.funding));
    }
  }

  lemma {:induction false} MarketFalls<S>(env: Env<S>, c: Core<S>, kind: EventKind)
    requires kind.EvTick? || kind.EvL2? || kind.EvL3?
    ensures Falls(env, c, kind, Handle(env, c, kind))
  {
    AnsweredNone(env, c.strategy);
    hide OnTrade, Record, JobsOf, UpdateL2, UpdateL3, ExchangeAt;
  }

  lemma {:induction false} HandleFalls<S>(env: Env<S>, c: Core<S>, kind: EventKind)
    ensures Falls(env, c, kind, Handle(env, c, kind))
  {
    hide Handle, Falls;
    if kind.EvTick? || kind.EvL2? || kind.EvL3? {
      MarketFalls(env, c, kind);
    } else if kind.EvDelivery? || kind.EvReport? || kind.EvFunding? || kind.EvTimer? {
      NewsFalls(env, c, kind);
    } else {
      OrderFalls(env, c, kind);
    }
  }

  // ---- One iteration ------------------------------------------------------------------------------------

  // From what was left, queued and buffered, one iteration with these callbacks leads closer to the end.
  ghost predicate Closer<S>(
    env: Env<S>, market: nat, weight: nat, buffered: nat, s: S, calls: seq<Callback>, next: Engine<S>)
  {
    var (market', weight') := (MarketLeft(next.feed, next.core.batch), QueueWeight(next.feed.queue));
    && Answers(env, s, calls) && next.core.strategy == StateAfter(env, s, calls)
    && (market' < market
        || (market' == market && OnlyReports(calls)
            && (Answered(env, s, calls) > 0
                || weight' < weight || (weight' == weight && Buffered(next.core.batch) < buffered))))
  }

  // Scheduling what a handler or the strategy asked for.
  lemma {:induction false} ScheduleWeighs(f: Feed, ps: seq<Push>)
    requires Worthless(ps)
    ensures
      var g := Schedule(f, ps);
      && Remaining(g) == Remaining(f) && QueueWorth(g.queue) == QueueWorth(f.queue)
      && QueueWeight(g.queue) == QueueWeight(f.queue) + PushWeight(ps)
  {
    PushesWeigh(f.queue, f.nextSeq, ps);
    hide PushAll, QueueWorth, QueueWeight, PushWeight, Worthless;
    RemainingOfSources(f, Schedule(f, ps));
  }

  lemma {:induction false} FinishCloser<S>(env: Env<S>, c: Core<S>, eff: Effect<S>, f: Feed, e: Event)
    requires eff.Effect? && Falls(env, c, e.kind, eff)
    ensures
      var o := Finish(env, eff, f, e);
      o.Stepped? ==>
        Closer(env, 4 * Remaining(f) + Worth(e.kind) + QueueWorth(f.queue) + |c.batch.ticks|,
               Weight(e.kind) + QueueWeight(f.queue), 0, c.strategy, o.calls, o.engine)
  {
    var s, f1 := c.strategy, Schedule(f, eff.pushes);
    FlushCosts(env, eff.core, eff.core.now);
    hide Flush, Schedule, Remaining, QueueWorth, QueueWeight, PushWeight, Worth, Weight, Answers, Answered,
      StateAfter, Worthless, OnlyReports;
    ScheduleWeighs(f, eff.pushes);
    var fl := Flush(env, eff.core, eff.core.now);
    if fl.Effect? {
      ScheduleWeighs(f1, fl.pushes);
      AnsweredAppend(env, s, eff.calls, fl.calls);
      AnswersAppend(env, s, eff.calls, fl.calls);
    }
  }

  // Every iteration that goes on leads closer to the end: less is left from outside; or as much is, and
  // the strategy, asked about reports only, issues a command, or else less is queued, or the buffer
  // empties.
  lemma {:induction false} StepCloser<S>(env: Env<S>, e: Engine<S>)
    ensures
      var o := Advance(env, e);
      GoesOn(o) ==>
        Closer(env, MarketLeft(e.feed, e.core.batch), QueueWeight(e.feed.queue), Buffered(e.core.batch),
               e.core.strategy, o.calls, o.engine)
  {
    var g := Ingest(env.cfg.feedLatency, e.feed);
    hide Ingest, Handle, Flush, Finish, Worthless, PushWeight, Weight, Worth, Remaining, PushAll, Answers, Answered,
      StateAfter, OnlyReports, Falls, Schedule;
    IngestShrinks(env.cfg.feedLatency, e.feed);
    if g.queue != [] {
      var event, f := g.queue[0], g.(queue := g.queue[1..]);
      RemainingOfSources(g, f);
      ProcessSteps(env, e.core, f, event);
      var c := e.core.(now := event.ts);
      HandleFalls(env, c, event.kind);
      var eff := Handle(env, c, event.kind);
      if eff.Effect? {
        FinishCloser(env, c, eff, f, event);
      }
    } else {
      FlushCosts(env, e.core, e.core.now);
      var fl := Flush(env, e.core, e.core.now);
      if fl.Effect? {
        ScheduleWeighs(g, fl.pushes);
      }
    }
  }

  // ---- Whole runs ---------------------------------------------------------------------------------------

  // The run stops after this many iterations: nothing is left, or the next iteration fails.
  ghost predicate StopsAt<S>(env: Env<S>, e: Engine<S>, n: nat) {
    match After(env, e, n)
    case Some(last) => !GoesOn(Advance(env, last))
    case None => false
  }

  ghost predicate RunEnds<S>(env: Env<S>, e: Engine<S>) {
    exists n: nat :: StopsAt(env, e, n)
  }

  // No iteration follows the last one.
  lemma {:induction false} BeforeTheEnd<S>(env: Env<S>, e: Engine<S>, n: nat, end: nat)
    requires StopsAt(env, e, end) && After(env, e, n).Some?
    ensures n <= end
    decreases n
  {
    hide Advance;
    if n > end + 1 {
      BeforeTheEnd(env, e, n - 1, end);
    }
  }

  lemma {:induction false} AfterFirst<S>(env: Env<S>, e: Engine<S>, n: nat)
    requires GoesOn(Advance(env, e))
    ensures After(env, e, n + 1) == After(env, Advance(env, e).engine, n)
    decreases n
  {
    hide Advance;
    if n == 0 {
      assert After(env, e, 0) == Some(e);
    } else {
      AfterFirst(env, e, n - 1);
    }
  }

  lemma {:induction false} IssuedFirst<S>(env: Env<S>, e: Engine<S>, n: nat)
    requires GoesOn(Advance(env, e)) && After(env, e, n + 1).Some?
    ensures Issued(env, e, n + 1) == IssuedBy(env, e) + Issued(env, Advance(env, e).engine, n)
    decreases n
  {
    hide Advance, IssuedBy;
    AfterFirst(env, e, n);
    if n == 0 {
      assert After(env, e, 0) == Some(e) && Issued(env, e, 0) == 0;
    } else {
      AfterFirst(env, e, n - 1);
      IssuedFirst(env, e, n - 1);
    }
  }

  lemma {:induction false} IssuedGrows<S>(env: Env<S>, e: Engine<S>, m: nat, n: nat)
    requires m <= n && After(env, e, n).Some?
    ensures Issued(env, e, m) <= Issued(env, e, n)
    decreases n
  {
    hide Advance, IssuedBy;
    if m < n {
      IssuedGrows(env, e, m, n - 1);
    }
  }

  // The strategy never issues more than this many commands, however far the run gets.
  ghost predicate IssuesAtMost<S>(env: Env<S>, e: Engine<S>, bound: nat) {
    forall n: nat :: After(env, e, n).Some? ==> Issued(env, e, n) <= bound
  }

  lemma {:induction false} IssuesAtMostNext<S>(env: Env<S>, e: Engine<S>, bound: nat)
    requires GoesOn(Advance(env, e)) && IssuesAtMost(env, e, bound)
    ensures IssuedBy(env, e) <= bound
    ensures IssuesAtMost(env, Advance(env, e).engine, bound - IssuedBy(env, e))
  {
    var next := Advance(env, e).engine;
    assert After(env, next, 0) == Some(next) && Issued(env, next, 0) == 0;
    hide Advance, IssuedBy, After, Issued;
    AfterFirst(env, e, 0);
    IssuedFirst(env, e, 0);
    forall n: nat | After(env, next, n).Some? ensures Issued(env, next, n) <= bound - IssuedBy(env, e) {
      AfterFirst(env, e, n);
      IssuedFirst(env, e, n);
    }
  }

  lemma {:induction false} EndLater<S>(env: Env<S>, e: Engine<S>)
    requires GoesOn(Advance(env, e)) && RunEnds(env, Advance(env, e).engine)
    ensures RunEnds(env, e)
  {
    hide Advance, After;
    var n: nat :| StopsAt(env, Advance(env, e).engine, n);
    AfterFirst(env, e, n);
    assert StopsAt(env, e, n + 1);
  }

  lemma {:induction false} EndHere<S>(env: Env<S>, e: Engine<S>)
    requires !GoesOn(Advance(env, e))
    ensures RunEnds(env, e)
  {
    hide Advance;
    assert After(env, e, 0) == Some(e);
    assert StopsAt(env, e, 0);
  }

  lemma {:induction false} EndsWithin<S>(
    env: Env<S>, e: Engine<S>, bound: nat, market: nat, weight: nat, buffered: nat)
    requires IssuesAtMost(env, e, bound) && market == MarketLeft(e.feed, e.core.batch)
    requires weight == QueueWeight(e.feed.queue) && buffered == Buffered(e.core.batch)
    ensures RunEnds(env, e)
    decreases market, bound, weight, buffered
  {
    StepCloser(env, e);
    hide Advance, IssuesAtMost, MarketLeft, QueueWeight, Buffered, Answers, Answered, StateAfter, OnlyReports, RunEnds;
    if GoesOn(Advance(env, e)) {
      var next := Advance(env, e).engine;
      IssuesAtMostNext(env, e, bound);
      EndsWithin(env, next, bound - IssuedBy(env, e), MarketLeft(next.feed, next.core.batch),
                 QueueWeight(next.feed.queue), Buffered(next.core.batch));
      EndLater(env, e);
    } else {
      EndHere(env, e);
    }
  }

  // Exactly when a run ends: in either mode, for any strategy and any sources, it ends if and only if
  // there is a bound on the commands the strategy issues in it.
  lemma {:induction false} RunEndsExactly<S>(env: Env<S>, e: Engine<S>)
    ensures RunEnds(env, e) <==> exists bound: nat :: IssuesAtMost(env, e, bound)
  {
    hide Advance, After, Issued, MarketLeft, QueueWeight, Buffered;
    if RunEnds(env, e) {
      var end: nat :| StopsAt(env, e, end);
      forall n: nat | After(env, e, n).Some? ensures Issued(env, e, n) <= Issued(env, e, end) {
        BeforeTheEnd(env, e, n, end);
        IssuedGrows(env, e, n, end);
      }
      assert IssuesAtMost(env, e, Issued(env, e, end));
    }
    if bound: nat :| IssuesAtMost(env, e, bound) {
      EndsWithin(env, e, bound, MarketLeft(e.feed, e.core.batch), QueueWeight(e.feed.queue), Buffered(e.core.batch));
    }
  }

  // ---- Strategies whose runs end ---------------------------------------------------------------------------

  ghost predicate Pays<S>(budget: S -> nat, s: S, r: Reply<S>)
    requires r.Reply?
  {
    budget(r.state) + |r.commands| <= budget(s)
  }

  // Commands in answer to reports come out of a budget that such answers never refill. Answers to ticks
  // and to funding are free, and may refill it.
  ghost predicate PaysForReports<S(!new)>(env: Env<S>, budget: S -> nat) {
    forall s, cb :: AboutReports(cb) && env.strategy(s, cb).Reply? ==>
      Pays(budget, s, env.strategy(s, cb))
  }

  lemma {:induction false} ReportsArePaid<S(!new)>(env: Env<S>, budget: S -> nat, s: S, calls: seq<Callback>)
    requires PaysForReports(env, budget) && Answers(env, s, calls) && OnlyReports(calls)
    ensures budget(StateAfter(env, s, calls)) + Answered(env, s, calls) <= budget(s)
    decreases calls
  {
    if calls != [] {
      var r := env.strategy(s, calls[0]);
      assert Pays(budget, s, r);
      ReportsArePaid(env, budget, r.state, calls[1..]);
    }
  }

  lemma {:induction false} PaidRunEnds<S(!new)>(
    env: Env<S>, budget: S -> nat, e: Engine<S>, market: nat, left: nat, weight: nat, buffered: nat)
    requires PaysForReports(env, budget) && left == budget(e.core.strategy)
    requires market == MarketLeft(e.feed, e.core.batch)
    requires weight == QueueWeight(e.feed.queue) && buffered == Buffered(e.core.batch)
    ensures RunEnds(env, e)
    decreases market, left, weight, buffered
  {
    StepCloser(env, e);
    hide Advance, MarketLeft, QueueWeight, Buffered, Answers, Answered, StateAfter, OnlyReports, RunEnds,
      PaysForReports;
    var o := Advance(env, e);
    if GoesOn(o) {
      if OnlyReports(o.calls) {
        ReportsArePaid(env, budget, e.core.strategy, o.calls);
      }
      PaidRunEnds(env, budget, o.engine, MarketLeft(o.engine.feed, o.engine.core.batch),
                  budget(o.engine.core.strategy), QueueWeight(o.engine.feed.queue), Buffered(o.engine.core.batch));
      EndLater(env, e);
    } else {
      EndHere(env, e);
    }
  }

  // A strategy may answer ticks and funding as it likes: its runs end if it pays for its answers to
  // reports.
  lemma {:induction false} PaidRunsEnd<S(!new)>(env: Env<S>, budget: S -> nat, e: Engine<S>)
    requires PaysForReports(env, budget)
    ensures RunEnds(env, e)
  {
    hide MarketLeft, QueueWeight, Buffered, RunEnds;
    PaidRunEnds(env, budget, e, MarketLeft(e.feed, e.core.batch), budget(e.core.strategy),
                QueueWeight(e.feed.queue), Buffered(e.core.batch));
  }

  // Reports are never answered with a command, as by a strategy that orders on every tick.
  ghost predicate ReportsUnanswered<S(!new)>(env: Env<S>) {
    forall s, cb :: AboutReports(cb) && env.strategy(s, cb).Reply? ==>
      env.strategy(s, cb).commands == []
  }

  lemma {:induction false} TickStrategiesEnd<S(!new)>(env: Env<S>, e: Engine<S>)
    requires ReportsUnanswered(env)
    ensures RunEnds(env, e)
  {
    hide RunEnds;
    PaidRunsEnd(env, (s: S) => 0, e);
  }

  // Every command, whatever it answers, comes out of a budget that is never refilled.
  ghost predicate Frugal<S(!new)>(env: Env<S>, budget: S -> nat) {
    forall s, cb :: env.strategy(s, cb).Reply? ==> Pays(budget, s, env.strategy(s, cb))
  }

  // The special case of a strategy that pays for all its answers.
  lemma {:induction false} RunsTerminate<S(!new)>(env: Env<S>, budget: S -> nat, e: Engine<S>)
    requires Frugal(env, budget)
    ensures RunEnds(env, e)
  {
    hide RunEnds, Pays;
    PaidRunsEnd(env, budget, e);
  }
}
