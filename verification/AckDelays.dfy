// How long acknowledgements take: that of an order, or of a cancel the exchange has taken, comes one latency
// draw after the request was handled, and the draws are made in the order of those requests.
module AckDelays {
  import opened Types
  import opened Arith
  import opened Ledgers
  import opened Exchanges
  import opened EventQueues
  import opened Feeds
  import opened EngineSpec
  import opened EngineClock
  import opened Lifecycle

  predicate IsAck(kind: EventKind) {
    kind.EvAck? || kind.EvCancelAck?
  }

  // The requests that are answered: every order that arrives, and a cancel of a tracked order that rests.
  predicate Answered<S>(c: Core<S>, kind: EventKind) {
    match kind
    case EvOrder(_) => true
    case EvCancel(id) =>
      id in c.routes && Rests(LiveIn(c.exchanges, c.routes[id], id))
    case _ => false
  }

  predicate Rests(o: Option<LiveOrder>) {
    o.Some? && (o.value.state == Open || o.value.state == PartiallyFilled)
  }

  // The answer to a request handled at this time, after this many draws.
  function Answer<S>(env: Env<S>, ts: int, draws: nat, kind: EventKind): Push
    requires kind.EvOrder? || kind.EvCancel?
  {
    var latency := env.latency(ts, draws);
    Push(if latency > 0 then ts + latency else ts,
         if kind.EvOrder? then EvAck(kind.order.orderId) else EvCancelAck(kind.id))
  }

  // ---- One event -----------------------------------------------------------------------------------------

  ghost predicate NoAcks(ps: seq<Push>) {
    forall p :: p in ps ==> !IsAck(p.kind)
  }

  lemma {:induction false} CommandsAckNothing(cfg: Config, l: Ledger, d: Desk, cmds: seq<Command>, ts: int)
    ensures NoAcks(Commands(cfg, l, d, cmds, ts).1)
    decreases cmds
  {
    if cmds != [] {
      CommandsAckNothing(cfg, l, OneCommand(cfg, l, d, cmds[0], ts).0, cmds[1..], ts);
    }
  }

  lemma {:induction false} CallAcksNothing<S>(env: Env<S>, c: Core<S>, ts: int, payload: Payload)
    ensures
      var eff := Call(env, c, ts, payload);
      eff.Effect? ==> NoAcks(eff.pushes) && eff.core.draws == c.draws
  {
    hide Commands, NoAcks;
    match env.strategy(c.strategy, Callback(ts, c.market, payload)) {
      case Reply(s, cmds) => CommandsAckNothing(env.cfg, c.ledger, Desk(c.routes, c.nextOrderId), cmds, ts);
      case _ =>
    }
  }

  lemma {:induction false} FlushAcksNothing<S>(env: Env<S>, c: Core<S>, ts: int)
    ensures
      var eff := Flush(env, c, ts);
      eff.Effect? ==> NoAcks(eff.pushes) && eff.core.draws == c.draws
  {
    hide Commands, HandOver;
    match HandOver(env, c.strategy, c.market, c.batch, ts) {
      case Handover(s, cmds, calls) =>
        CommandsAckNothing(env.cfg, c.ledger, Desk(c.routes, c.nextOrderId), cmds, ts);
      case Refused =>
    }
  }

  // An event draws a latency and schedules the one answer exactly if it is an answered request.
  ghost predicate AnswersOnce<S>(env: Env<S>, c: Core<S>, kind: EventKind, eff: Effect<S>) {
    eff.Effect? ==>
      if Answered(c, kind) then eff.pushes == [Answer(env, c.now, c.draws, kind)] && eff.core.draws == c.draws + 1
      else NoAcks(eff.pushes) && eff.core.draws == c.draws
  }

  lemma {:induction false} RequestAnswers<S>(env: Env<S>, c: Core<S>, kind: EventKind)
    requires kind.EvOrder? || kind.EvCancel?
    ensures AnswersOnce(env, c, kind, Handle(env, c, kind))
  {
    hide Submit;
  }

  lemma {:induction false} MarketAckAnswers<S>(env: Env<S>, c: Core<S>, s: int, id: int)
    requires id in ExchangeAt(c, s).orders
    ensures
      var eff := MarketAck(env, c, s, id);
      eff.Effect? && NoAcks(eff.pushes) && eff.core.draws == c.draws
  {
    hide Record, ExchangeAt, MarketQuote, ForceCancel, JobOf;
  }

  lemma {:induction false} AckAnswers<S>(env: Env<S>, c: Core<S>, kind: EventKind)
    requires IsAck(kind)
    ensures AnswersOnce(env, c, kind, Handle(env, c, kind))
  {
    hide MarketAck, AckNew, AckCancel, ExchangeAt;
    if kind.EvAck? && kind.id in c.routes && kind.id in ExchangeAt(c, c.routes[kind.id]).orders {
      MarketAckAnswers(env, c, c.routes[kind.id], kind.id);
    }
  }

  lemma {:induction false} DataAnswers<S>(env: Env<S>, c: Core<S>, kind: EventKind)
    requires kind.EvTick? || kind.EvL2? || kind.EvL3?
    ensures AnswersOnce(env, c, kind, Handle(env, c, kind))
  {
    hide OnTrade, Record, JobsOf, UpdateL3, ExchangeAt, UpdateL2;
  }

  lemma {:induction false} NewsAnswers<S>(env: Env<S>, c: Core<S>, kind: EventKind)
    requires kind.EvDelivery? || kind.EvReport? || kind.EvFunding? || kind.EvTimer?
    ensures AnswersOnce(env, c, kind, Handle(env, c, kind))
  {
    hide Call, ExchangeAt, Remove, Fund, FundingMark;
    match kind {
      case EvDelivery(tick) =>
        CallAcksNothing(env, c.(market := c.market[tick.symbolId := tick]), tick.tsLocal, OnTick(tick));
      case EvReport(r) => CallAcksNothing(env, Retire(c, r), c.now, OnReport(r));
      case EvFunding(event) =>
        var mark := FundingMark(c, event.symbolId);
        CallAcksNothing(env, if mark.Some? then c.(ledger := Fund(c.ledger, event, mark.value)) else c, c.now,
                        OnFunding(event));
      case _ =>
    }
  }

  lemma {:induction false} HandleAnswers<S>(env: Env<S>, c: Core<S>, kind: EventKind)
    ensures AnswersOnce(env, c, kind, Handle(env, c, kind))
  {
    hide Handle, AnswersOnce;
    if kind.EvTick? || kind.EvL2? || kind.EvL3? {
      DataAnswers(env, c, kind);
    } else if kind.EvOrder? || kind.EvCancel? {
      RequestAnswers(env, c, kind);
    } else if IsAck(kind) {
      AckAnswers(env, c, kind);
    } else {
      NewsAnswers(env, c, kind);
    }
  }

  // ---- The queue -----------------------------------------------------------------------------------------

  // Every acknowledgement of the second queue stands in the first, or is this one.
  ghost predicate OnlyNewAck(q: Queue, q': Queue, p: Option<Push>) {
    forall x :: x in q' && IsAck(x.kind) ==> x in q || (p.Some? && Push(x.ts, x.kind) == p.value)
  }

  lemma {:induction false} PushesAckNothing(q: Queue, next: int, ps: seq<Push>)
    requires NoAcks(ps)
    ensures OnlyNewAck(q, PushAll(q, next, ps), None)
  {
    hide PushAll;
    forall x | x in PushAll(q, next, ps) && IsAck(x.kind) ensures x in q {
      PushAllMembers(q, next, ps, x);
      if i :| 0 <= i < |ps| && x == Event(ps[i].ts, next + i, ps[i].kind) {
        assert ps[i] in ps;
      }
    }
  }

  lemma {:induction false} PushIsOnlyNewAck(q: Queue, next: int, p: Push)
    ensures OnlyNewAck(q, PushAll(q, next, [p]), Some(p)) && Event(p.ts, next, p.kind) in PushAll(q, next, [p])
  {
    hide Insert;
    PushOne(q, next, p);
    InsertMembers(q, Event(p.ts, next, p.kind));
  }

  lemma {:induction false} StillQueued(q: Queue, next: int, ps: seq<Push>, x: Event)
    requires x in q
    ensures x in PushAll(q, next, ps)
  {
    PushAllMembers(q, next, ps, x);
  }

  lemma {:induction false} ItemsAckNothing(latency: int, f: Feed)
    requires !NextItem(f).Neither?
    ensures NoAcks(ItemPushes(latency, f))
  {
  }

  lemma {:induction false} IngestAcksNothing(latency: int, f: Feed)
    ensures OnlyNewAck(f.queue, Ingest(latency, f).queue, None)
    decreases Remaining(f)
  {
    hide PushAll, ItemPushes, NextItem;
    if CanIngest(f) {
      IngestOneRemaining(latency, f);
      ItemsAckNothing(latency, f);
      PushesAckNothing(f.queue, f.nextSeq, ItemPushes(latency, f));
      IngestAcksNothing(latency, IngestOne(latency, f));
    }
  }

  // ---- One iteration -------------------------------------------------------------------------------------

  function AnswerIn<S>(env: Env<S>, c: Core<S>, event: Event): Option<Push> {
    if Answered(c, event.kind) then Some(Answer(env, event.ts, c.draws, event.kind)) else None
  }

  function Drawn<S>(c: Core<S>, kind: EventKind): nat {
    if Answered(c, kind) then 1 else 0
  }

  ghost predicate Queued(q: Queue, p: Push) {
    exists x :: x in q && Push(x.ts, x.kind) == p
  }

  lemma {:induction false} QueuedOn(q: Queue, next: int, ps: seq<Push>, p: Push)
    requires Queued(q, p)
    ensures Queued(PushAll(q, next, ps), p)
  {
    var x :| x in q && Push(x.ts, x.kind) == p;
    StillQueued(q, next, ps, x);
  }

  lemma {:induction false} ScheduleAnswers<S>(env: Env<S>, c: Core<S>, f: Feed, event: Event)
    requires c.now == event.ts && Handle(env, c, event.kind).Effect?
    ensures
      var eff := Handle(env, c, event.kind);
      var q' := Schedule(f, eff.pushes).queue;
      && eff.core.draws == c.draws + Drawn(c, event.kind)
      && OnlyNewAck(f.queue, q', AnswerIn(env, c, event))
      && (Answered(c, event.kind) ==> Queued(q', AnswerIn(env, c, event).value))
  {
    HandleAnswers(env, c, event.kind);
    hide Handle, Answered, Answer, NoAcks, PushAll, OnlyNewAck;
    var eff := Handle(env, c, event.kind);
    if Answered(c, event.kind) {
      var p := AnswerIn(env, c, event).value;
      PushIsOnlyNewAck(f.queue, f.nextSeq, p);
      assert Event(p.ts, f.nextSeq, p.kind) in Schedule(f, eff.pushes).queue;
    } else {
      PushesAckNothing(f.queue, f.nextSeq, eff.pushes);
    }
  }

  lemma {:induction false} OnlyNewTrans(a: Queue, b: Queue, c: Queue, p: Option<Push>)
    requires OnlyNewAck(a, b, p) && OnlyNewAck(b, c, None)
    ensures OnlyNewAck(a, c, p)
  {
  }

  lemma {:induction false} ProcessAnswers<S>(env: Env<S>, c: Core<S>, f: Feed, event: Event)
    ensures
      var o := Process(env, c, f, event);
      o.Stepped? ==>
        && o.engine.core.draws == c.draws + Drawn(c, event.kind)
        && OnlyNewAck(f.queue, o.engine.feed.queue, AnswerIn(env, c, event))
        && (Answered(c, event.kind) ==> Queued(o.engine.feed.queue, AnswerIn(env, c, event).value))
  {
    var c1 := c.(now := event.ts);
    assert AnswerIn(env, c1, event) == AnswerIn(env, c, event);
    assert Answered(c1, event.kind) == Answered(c, event.kind);
    hide Handle, Flush, Answered, AnswerIn, PushAll, OnlyNewAck, Queued, NoAcks;
    var eff := Handle(env, c1, event.kind);
    if eff.Effect? {
      ScheduleAnswers(env, c1, f, event);
      var f1 := Schedule(f, eff.pushes);
      FlushAcksNothing(env, eff.core, eff.core.now);
      var fl := Flush(env, eff.core, eff.core.now);
      if fl.Effect? {
        PushesAckNothing(f1.queue, f1.nextSeq, fl.pushes);
        OnlyNewTrans(f.queue, f1.queue, Schedule(f1, fl.pushes).queue, AnswerIn(env, c, event));
        if Answered(c, event.kind) {
          QueuedOn(f1.queue, f1.nextSeq, fl.pushes, AnswerIn(env, c, event).value);
        }
      }
    }
  }

  lemma {:induction false} HeadOfIngested(q: Queue, e: Event, rest: Queue, q': Queue, p: Option<Push>)
    requires OnlyNewAck(q, [e] + rest, None) && OnlyNewAck(rest, q', p)
    ensures OnlyNewAck(q, q', p) && (IsAck(e.kind) ==> e in q)
  {
    assert e in [e] + rest;
    forall x | x in rest ensures x in [e] + rest {}
  }

  lemma {:induction false} StepAnswers<S>(env: Env<S>, e: Engine<S>)
    ensures
      match Advance(env, e)
      case Stepped(next, event, _) =>
        && next.core.draws == e.core.draws + Drawn(e.core, event.kind)
        && OnlyNewAck(e.feed.queue, next.feed.queue, AnswerIn(env, e.core, event))
        && (Answered(e.core, event.kind) ==> Queued(next.feed.queue, AnswerIn(env, e.core, event).value))
        && (IsAck(event.kind) ==> event in e.feed.queue)
      case Flushed(next, _) =>
        next.core.draws == e.core.draws && OnlyNewAck(e.feed.queue, next.feed.queue, None)
      case _ => true
  {
    hide Process, Flush, Ingest, Answered, AnswerIn, OnlyNewAck, Queued, NoAcks, PushAll;
    var g := Ingest(env.cfg.feedLatency, e.feed);
    IngestAcksNothing(env.cfg.feedLatency, e.feed);
    match PopFeed(env.cfg.feedLatency, e.feed) {
      case Some((event, f)) =>
        assert g.queue == [event] + f.queue;
        ProcessSteps(env, e.core, f, event);
        ProcessAnswers(env, e.core, f, event);
        var o := Process(env, e.core, f, event);
        if o.Stepped? {
          HeadOfIngested(e.feed.queue, event, f.queue, o.engine.feed.queue, AnswerIn(env, e.core, event));
        }
      case None =>
        FlushAcksNothing(env, e.core, e.core.now);
        var fl := Flush(env, e.core, e.core.now);
        if fl.Effect? {
          PushesAckNothing(g.queue, g.nextSeq, fl.pushes);
          OnlyNewTrans(e.feed.queue, g.queue, Schedule(g, fl.pushes).queue, None);
        }
    }
  }

  // ---- Whole runs ----------------------------------------------------------------------------------------

  // How many answered requests the first n iterations have handled.
  function Requests<S>(env: Env<S>, e: Engine<S>, n: nat): nat {
    if n == 0 then 0
    else
      match After(env, e, n - 1)
      case None => 0
      case Some(last) =>
        var o := Advance(env, last);
        Requests(env, e, n - 1) + if o.Stepped? then Drawn(last.core, o.event.kind) else 0
  }

  // Latencies are drawn for answered requests and for nothing else.
  lemma {:induction false} DrawsCountRequests<S>(env: Env<S>, e: Engine<S>, n: nat)
    requires After(env, e, n).Some?
    ensures After(env, e, n).value.core.draws == e.core.draws + Requests(env, e, n)
    decreases n
  {
    hide Advance, Drawn;
    if n > 0 {
      DrawsCountRequests(env, e, n - 1);
      StepAnswers(env, After(env, e, n - 1).value);
    }
  }

  // The m-th iteration handles a request, and this is its answer: it carries the order's id, and stands one
  // latency draw after the request, but no earlier; the draws before it number the requests before it.
  ghost predicate AnswersRequest<S>(env: Env<S>, e: Engine<S>, m: nat, p: Push) {
    match After(env, e, m)
    case None => false
    case Some(last) =>
      match Advance(env, last)
      case Stepped(_, event, _) =>
        Answered(last.core, event.kind)
        && p.ts == event.ts + Max(env.latency(event.ts, e.core.draws + Requests(env, e, m)), 0)
        && p.kind == (if event.kind.EvOrder? then EvAck(event.kind.order.orderId) else EvCancelAck(event.kind.id))
      case _ => false
  }

  ghost predicate AnswersEarlier<S>(env: Env<S>, e: Engine<S>, n: nat, p: Push) {
    exists m: nat :: m < n && AnswersRequest(env, e, m, p)
  }

  lemma {:induction false} AnswersLater<S>(env: Env<S>, e: Engine<S>, n: nat, p: Push)
    requires AnswersEarlier(env, e, n, p)
    ensures AnswersEarlier(env, e, n + 1, p)
  {
    hide AnswersRequest;
  }

  lemma {:induction false} AnswerIsRequest<S>(env: Env<S>, e: Engine<S>, n: nat)
    requires After(env, e, n).Some? && Advance(env, After(env, e, n).value).Stepped?
    requires Answered(After(env, e, n).value.core, Advance(env, After(env, e, n).value).event.kind)
    ensures
      var (last, o) := (After(env, e, n).value, Advance(env, After(env, e, n).value));
      var p := AnswerIn(env, last.core, o.event).value;
      AnswersRequest(env, e, n, p) && AnswersEarlier(env, e, n + 1, p)
  {
    hide After, Advance, Requests;
    DrawsCountRequests(env, e, n);
  }

  // Every acknowledgement that is queued in a run answers a request that the run has handled.
  lemma {:induction false} AcksAreDrawn<S>(env: Env<S>, e: Engine<S>, n: nat, x: Event)
    requires After(env, e, n).Some? && x in After(env, e, n).value.feed.queue && IsAck(x.kind)
    requires forall y :: y in e.feed.queue ==> !IsAck(y.kind)
    ensures AnswersEarlier(env, e, n, Push(x.ts, x.kind))
    decreases n
  {
    hide Advance, Answered, Answer, AnswersEarlier, Drawn;
    var last := After(env, e, n - 1).value;
    StepAnswers(env, last);
    if x in last.feed.queue {
      AcksAreDrawn(env, e, n - 1, x);
      AnswersLater(env, e, n - 1, Push(x.ts, x.kind));
    } else {
      assert AnswerIn(env, last.core, Advance(env, last).event) == Some(Push(x.ts, x.kind));
      AnswerIsRequest(env, e, n - 1);
    }
  }

  // So does every acknowledgement that is handled; and a request that is handled has its answer queued.
  lemma {:induction false} HandledAcksAreDrawn<S>(env: Env<S>, e: Engine<S>, n: nat)
    requires After(env, e, n).Some? && Advance(env, After(env, e, n).value).Stepped?
    requires forall y :: y in e.feed.queue ==> !IsAck(y.kind)
    ensures
      var o := Advance(env, After(env, e, n).value);
      && (IsAck(o.event.kind) ==> AnswersEarlier(env, e, n, Push(o.event.ts, o.event.kind)))
      && (Answered(After(env, e, n).value.core, o.event.kind) ==>
            exists p :: AnswersRequest(env, e, n, p) && Queued(o.engine.feed.queue, p))
  {
    hide After, Advance, Answered, Answer, AnswersEarlier, AnswersRequest, Drawn, Queued;
    var last := After(env, e, n).value;
    var o := Advance(env, last);
    StepAnswers(env, last);
    if IsAck(o.event.kind) {
      AcksAreDrawn(env, e, n, o.event);
    }
    if Answered(last.core, o.event.kind) {
      AnswerIsRequest(env, e, n);
      var p := AnswerIn(env, last.core, o.event).value;
      assert AnswersRequest(env, e, n, p) && Queued(o.engine.feed.queue, p);
    }
  }

  lemma {:induction false} StartAcksNothing<S>(
    cfg: Config, s: S, sources: seq<seq<Tick>>, l3Sources: seq<seq<L3Update>>, l3Symbols: set<int>, external: seq<Push>)
    requires forall p :: p in external ==> External(p)
    ensures
      var e := Start(cfg, s, sources, l3Sources, l3Symbols, external);
      e.core.draws == 0 && forall y :: y in e.feed.queue ==> !IsAck(y.kind)
  {
    hide PushAll;
    PushesAckNothing([], 0, external);
  }
}
