// Simulated time: events are scheduled only into the future, so the clock never runs backwards.
module EngineClock {
  import opened Types
  import opened Ledgers
  import opened Exchanges
  import opened EventQueues
  import opened Feeds
  import opened EngineSpec

  ghost predicate GoodConfig(cfg: Config) {
    cfg.feedLatency >= 0 && cfg.reportLatency >= 0
  }

  // Market events stand at the time they carry.
  ghost predicate TimedAt(ts: int, kind: EventKind) {
    match kind
    case EvTick(t) => ts == t.tsExchange
    case EvDelivery(t) => ts == t.tsLocal
    case _ => true
  }

  ghost predicate Timed(q: Queue) {
    forall x :: x in q ==> TimedAt(x.ts, x.kind)
  }

  ghost predicate ClockOk<S>(e: Engine<S>) {
    FeedOk(e.feed, e.core.now) && Timed(e.feed.queue)
  }

  // What a handler may schedule at a given time: orders and cancels at once, reports after exactly
  // the report latency, acknowledgements and timers at any later time, never market data.
  ghost predicate FreshPush(cfg: Config, now: int, p: Push) {
    && now <= p.ts
    && match p.kind
       case EvOrder(_) => p.ts == now
       case EvCancel(_) => p.ts == now
       case EvReport(_) => p.ts == now + cfg.reportLatency
       case EvAck(_) => true
       case EvCancelAck(_) => true
       case EvTimer(_) => true
       case _ => false
  }

  ghost predicate FreshPushes(cfg: Config, now: int, ps: seq<Push>) {
    forall p :: p in ps ==> FreshPush(cfg, now, p)
  }

  lemma {:induction false} CommandsFresh(cfg: Config, l: Ledger, d: Desk, cmds: seq<Command>, ts: int)
    requires GoodConfig(cfg)
    ensures FreshPushes(cfg, ts, Commands(cfg, l, d, cmds, ts).1)
    decreases cmds
  {
    if cmds != [] {
      CommandsFresh(cfg, l, OneCommand(cfg, l, d, cmds[0], ts).0, cmds[1..], ts);
    }
  }

  lemma {:induction false} CallFresh<S>(env: Env<S>, c: Core<S>, ts: int, payload: Payload)
    requires GoodConfig(env.cfg)
    ensures
      var eff := Call(env, c, ts, payload);
      eff.Effect? ==> FreshPushes(env.cfg, ts, eff.pushes) && eff.core.now == c.now && |eff.calls| == 1
                      && eff.calls[0] == Callback(ts, c.market, payload)
  {
    hide Commands, FreshPushes;
    match env.strategy(c.strategy, Callback(ts, c.market, payload)) {
      case Reply(s, cmds) => CommandsFresh(env.cfg, c.ledger, Desk(c.routes, c.nextOrderId), cmds, ts);
      case _ =>
    }
  }

  lemma {:induction false} FlushFresh<S>(env: Env<S>, c: Core<S>, ts: int)
    requires GoodConfig(env.cfg)
    ensures
      var eff := Flush(env, c, ts);
      eff.Effect? ==> FreshPushes(env.cfg, ts, eff.pushes) && eff.core.now == c.now
                      && forall k :: 0 <= k < |eff.calls| ==> eff.calls[k].ts == ts
  {
    hide Commands, FreshPush;
    match HandOver(env, c.strategy, c.market, c.batch, ts) {
      case Handover(s, cmds, calls) => CommandsFresh(env.cfg, c.ledger, Desk(c.routes, c.nextOrderId), cmds, ts);
      case Refused =>
    }
  }

  lemma {:induction false} MarketAckFresh<S>(env: Env<S>, c: Core<S>, symbol: int, id: int)
    requires GoodConfig(env.cfg) && id in ExchangeAt(c, symbol).orders
    ensures
      var eff := MarketAck(env, c, symbol, id);
      eff.Effect? && FreshPushes(env.cfg, c.now, eff.pushes) && eff.core.now == c.now && eff.calls == []
  {
    hide Record, ExchangeAt, FillMarket, ForceCancel, ComputeFee;
  }

  lemma {:induction false} HandleFresh<S>(env: Env<S>, c: Core<S>, kind: EventKind)
    requires GoodConfig(env.cfg) && TimedAt(c.now, kind)
    ensures
      var eff := Handle(env, c, kind);
      eff.Effect? ==> FreshPushes(env.cfg, c.now, eff.pushes) && eff.core.now == c.now
                      && forall k :: 0 <= k < |eff.calls| ==> eff.calls[k].ts == c.now
  {
    hide Call, OnTrade, Record, JobsOf, UpdateL3, Submit, FillMarket, ForceCancel, AckNew, Cancel, AckCancel,
      ExchangeAt, Remove, Fund, FundingMark, ComputeFee, UpdateL2;
    match kind {
      case EvDelivery(tick) =>
        CallFresh(env, c.(market := c.market[tick.symbolId := tick]), tick.tsLocal, OnTick(tick));
      case EvReport(r) => CallFresh(env, Retire(c, r), c.now, OnReport(r));
      case EvFunding(event) =>
        var mark := FundingMark(c, event.symbolId);
        CallFresh(env, if mark.Some? then c.(ledger := Fund(c.ledger, event, mark.value)) else c, c.now,
                  OnFunding(event));
      case EvAck(id) =>
        if id in c.routes && id in ExchangeAt(c, c.routes[id]).orders {
          MarketAckFresh(env, c, c.routes[id], id);
        }
      case _ =>
    }
  }

  lemma {:induction false} FreshIsLater(cfg: Config, now: int, ps: seq<Push>)
    requires FreshPushes(cfg, now, ps)
    ensures AllFrom(ps, now)
    ensures forall p :: p in ps ==> TimedAt(p.ts, p.kind)
  {
    forall i | 0 <= i < |ps| ensures now <= ps[i].ts {
      assert ps[i] in ps;
    }
  }

  // Scheduling what a handler asked for keeps the feed good.
  lemma {:induction false} ScheduleOk(cfg: Config, f: Feed, now: int, ps: seq<Push>)
    requires FeedOk(f, now) && Timed(f.queue) && FreshPushes(cfg, now, ps)
    ensures FeedOk(Schedule(f, ps), now) && Timed(Schedule(f, ps).queue)
    ensures Schedule(f, ps).sources == f.sources && Schedule(f, ps).l3Sources == f.l3Sources
  {
    FreshIsLater(cfg, now, ps);
    hide PushAll, QueueOk, SourcesOk, FreshPushes, AllFrom;
    PushAllOk(f.queue, f.nextSeq, now, ps);
    PushAllEach(f.queue, f.nextSeq, ps, (ts, k) => TimedAt(ts, k));
    SourcesIgnoreQueue(f, Schedule(f, ps), now);
  }

  lemma {:induction false} IngestTimed(latency: int, f: Feed)
    requires Timed(f.queue)
    ensures Timed(Ingest(latency, f).queue)
    decreases Remaining(f)
  {
    hide PushAll, NextItem;
    if CanIngest(f) {
      IngestOneRemaining(latency, f);
      PushAllEach(f.queue, f.nextSeq, ItemPushes(latency, f), (ts, k) => TimedAt(ts, k));
      IngestTimed(latency, IngestOne(latency, f));
    }
  }

  // Popping lazily: time moves forward, and everything left over is later still.
  lemma {:induction false} PopClock<S>(env: Env<S>, e: Engine<S>)
    requires GoodConfig(env.cfg) && ClockOk(e)
    ensures
      match PopFeed(env.cfg.feedLatency, e.feed)
      case None => ClockOk(Engine(e.core, Ingest(env.cfg.feedLatency, e.feed)))
      case Some((event, f)) =>
        && e.core.now <= event.ts
        && FeedOk(f, event.ts) && Timed(f.queue) && TimedAt(event.ts, event.kind)
        && SourcesOk(f, event.ts + 1)
  {
    hide Ingest, SourcesOk, QueueOk;
    var g := Ingest(env.cfg.feedLatency, e.feed);
    IngestOk(env.cfg.feedLatency, e.feed, e.core.now);
    IngestTimed(env.cfg.feedLatency, e.feed);
    if g.queue != [] {
      var f := g.(queue := g.queue[1..]);
      PopOk(g.queue, g.nextSeq, e.core.now);
      SourcesIgnoreQueue(g, f, g.queue[0].ts + 1);
      SourcesLater(f, g.queue[0].ts + 1, g.queue[0].ts);
    }
  }

  // Handling an event and, if due, flushing the batch keeps the clock where the event put it.
  lemma {:induction false} ProcessClock<S>(env: Env<S>, c: Core<S>, f: Feed, event: Event)
    requires GoodConfig(env.cfg) && TimedAt(event.ts, event.kind)
    requires FeedOk(f, event.ts) && Timed(f.queue) && SourcesOk(f, event.ts + 1)
    ensures
      var o := Process(env, c, f, event);
      o.Stepped? ==>
        && o.event == event && o.engine.core.now == event.ts
        && ClockOk(o.engine) && SourcesOk(o.engine.feed, event.ts + 1)
        && forall k :: 0 <= k < |o.calls| ==> o.calls[k].ts == event.ts
    ensures !Process(env, c, f, event).Flushed? && !Process(env, c, f, event).Done?
  {
    hide Handle, Flush, FeedOk, Timed, FreshPushes, Schedule;
    var c1 := c.(now := event.ts);
    HandleFresh(env, c1, event.kind);
    var eff := Handle(env, c1, event.kind);
    if eff.Effect? {
      ScheduleOk(env.cfg, f, event.ts, eff.pushes);
      var f1 := Schedule(f, eff.pushes);
      SourcesIgnoreQueue(f, f1, event.ts + 1);
      FlushFresh(env, eff.core, event.ts);
      var fl := Flush(env, eff.core, event.ts);
      if fl.Effect? {
        ScheduleOk(env.cfg, f1, event.ts, fl.pushes);
        SourcesIgnoreQueue(f1, Schedule(f1, fl.pushes), event.ts + 1);
      }
    }
  }

  // Only the final drain hands over without handling an event.
  lemma {:induction false} FinishSteps<S>(env: Env<S>, eff: Effect<S>, f: Feed, event: Event)
    requires eff.Effect?
    ensures !Finish(env, eff, f, event).Done? && !Finish(env, eff, f, event).Flushed?
    ensures Finish(env, eff, f, event).Stepped? ==> Finish(env, eff, f, event).event == event
  {
    hide Flush;
  }

  lemma {:induction false} ProcessSteps<S>(env: Env<S>, c: Core<S>, f: Feed, event: Event)
    ensures !Process(env, c, f, event).Done? && !Process(env, c, f, event).Flushed?
    ensures Process(env, c, f, event).Stepped? ==> Process(env, c, f, event).event == event
  {
    hide Handle, Finish;
    var eff := Handle(env, c.(now := event.ts), event.kind);
    if eff.Effect? {
      FinishSteps(env, eff, f, event);
    }
  }

  // One iteration: the clock moves to the popped event, never back, and every callback carries
  // exactly that time.
  lemma {:induction false} AdvanceClock<S>(env: Env<S>, e: Engine<S>)
    requires GoodConfig(env.cfg) && ClockOk(e)
    ensures
      match Advance(env, e)
      case Stepped(next, event, calls) =>
        && e.core.now <= event.ts == next.core.now && ClockOk(next)
        && SourcesOk(next.feed, event.ts + 1)
        && forall k :: 0 <= k < |calls| ==> calls[k].ts == event.ts
      case Flushed(next, calls) =>
        && next.core.now == e.core.now && ClockOk(next)
        && forall k :: 0 <= k < |calls| ==> calls[k].ts == e.core.now
      case _ => true
  {
    hide Process, FeedOk, Timed, PopFeed, Flush, Ingest, FreshPushes, Schedule;
    PopClock(env, e);
    match PopFeed(env.cfg.feedLatency, e.feed) {
      case Some((event, f)) => ProcessClock(env, e.core, f, event);
      case None =>
        var f := Ingest(env.cfg.feedLatency, e.feed);
        FlushFresh(env, e.core, e.core.now);
        var fl := Flush(env, e.core, e.core.now);
        if fl.Effect? {
          ScheduleOk(env.cfg, f, e.core.now, fl.pushes);
        }
    }
  }

  lemma {:induction false} StartClock<S>(
    cfg: Config, s: S, sources: seq<seq<Tick>>, l3Sources: seq<seq<L3Update>>, l3Symbols: set<int>, external: seq<Push>)
    requires SourcesOk(Feed([], 0, sources, l3Sources), 0)
    requires forall p :: p in external ==> External(p) && p.ts >= 0
    ensures ClockOk(Start(cfg, s, sources, l3Sources, l3Symbols, external))
  {
    hide PushAll, SourcesOk;
    forall i | 0 <= i < |external| ensures 0 <= external[i].ts {
      assert external[i] in external;
    }
    PushAllOk([], 0, 0, external);
    PushAllEach([], 0, external, (ts, k) => TimedAt(ts, k));
    SourcesIgnoreQueue(Feed([], 0, sources, l3Sources), Start(cfg, s, sources, l3Sources, l3Symbols, external).feed, 0);
  }

  // In any run, whatever the strategy does, simulated time never decreases.
  lemma {:induction false} ClockNeverRunsBack<S>(env: Env<S>, e: Engine<S>, m: nat, n: nat)
    requires GoodConfig(env.cfg) && ClockOk(e) && m <= n && After(env, e, n).Some?
    ensures After(env, e, m).Some?
    ensures ClockOk(After(env, e, n).value)
    ensures After(env, e, m).value.core.now <= After(env, e, n).value.core.now
    decreases n
  {
    hide Advance, ClockOk;
    if n > 0 {
      ClockNeverRunsBack(env, e, if m < n then m else n - 1, n - 1);
      AdvanceClock(env, After(env, e, n - 1).value);
    }
  }
}
