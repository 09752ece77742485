// The two views of the market in a run: the trades as they happened, which price market orders and funding,
// and the ticks as they were delivered, which are all that a strategy is shown.
module MarketViews {
  import opened Types
  import opened Ledgers
  import opened Exchanges
  import opened EventQueues
  import opened Feeds
  import opened EngineSpec
  import opened EngineClock
  import opened EngineMoney
  import opened Quotes

  // ---- What an event shows -------------------------------------------------------------------------------

  function Traded(view: map<int, Tick>, kind: EventKind): map<int, Tick> {
    if kind.EvTick? then view[kind.tick.symbolId := kind.tick] else view
  }

  function Delivered(view: map<int, Tick>, kind: EventKind): map<int, Tick> {
    if kind.EvDelivery? then view[kind.tick.symbolId := kind.tick] else view
  }

  lemma {:induction false} CallViews<S>(env: Env<S>, c: Core<S>, ts: int, payload: Payload)
    ensures
      var eff := Call(env, c, ts, payload);
      eff.Effect? ==> eff.core.truth == c.truth && eff.core.market == c.market
                      && forall x :: x in eff.calls ==> x.market == c.market
  {
    hide Commands;
  }

  lemma {:induction false} FlushViews<S>(env: Env<S>, c: Core<S>, ts: int)
    ensures
      var eff := Flush(env, c, ts);
      eff.Effect? ==> eff.core.truth == c.truth && eff.core.market == c.market
                      && forall x :: x in eff.calls ==> x.market == c.market
  {
    hide Commands;
  }

  lemma {:induction false} MarketAckViews<S>(env: Env<S>, c: Core<S>, s: int, id: int)
    requires id in ExchangeAt(c, s).orders
    ensures
      var eff := MarketAck(env, c, s, id);
      eff.Effect? && eff.core.truth == c.truth && eff.core.market == c.market && eff.calls == []
  {
    hide Record, ExchangeAt, MarketQuote, ForceCancel, JobOf;
  }

  ghost predicate ShowsEvent<S>(c: Core<S>, kind: EventKind, eff: Effect<S>) {
    eff.Effect? ==>
      && eff.core.truth == Traded(c.truth, kind) && eff.core.market == Delivered(c.market, kind)
      && forall x :: x in eff.calls ==> x.market == eff.core.market
  }

  lemma {:induction false} NewsViews<S>(env: Env<S>, c: Core<S>, kind: EventKind)
    requires kind.EvDelivery? || kind.EvReport? || kind.EvFunding? || kind.EvTimer?
    ensures ShowsEvent(c, kind, Handle(env, c, kind))
  {
    hide Call, ExchangeAt, Remove, Fund, FundingMark;
    match kind {
      case EvDelivery(tick) =>
        CallViews(env, c.(market := c.market[tick.symbolId := tick]), tick.tsLocal, OnTick(tick));
      case EvReport(r) => CallViews(env, Retire(c, r), c.now, OnReport(r));
      case EvFunding(event) =>
        var mark := FundingMark(c, event.symbolId);
        CallViews(env, if mark.Some? then c.(ledger := Fund(c.ledger, event, mark.value)) else c, c.now,
                  OnFunding(event));
      case _ =>
    }
  }

  lemma {:induction false} DataViews<S>(env: Env<S>, c: Core<S>, kind: EventKind)
    requires kind.EvTick? || kind.EvL2? || kind.EvL3?
    ensures ShowsEvent(c, kind, Handle(env, c, kind))
  {
    hide OnTrade, Record, JobsOf, UpdateL3, ExchangeAt, UpdateL2, ReportPushes;
  }

  lemma {:induction false} OrderViews<S>(env: Env<S>, c: Core<S>, kind: EventKind)
    requires kind.EvOrder? || kind.EvAck? || kind.EvCancel? || kind.EvCancelAck?
    ensures ShowsEvent(c, kind, Handle(env, c, kind))
  {
    hide Submit, MarketAck, AckNew, Cancel, AckCancel, ExchangeAt, Delay;
    if kind.EvAck? && kind.id in c.routes && kind.id in ExchangeAt(c, c.routes[kind.id]).orders {
      MarketAckViews(env, c, c.routes[kind.id], kind.id);
    }
  }

  lemma {:induction false} HandleViews<S>(env: Env<S>, c: Core<S>, kind: EventKind)
    ensures ShowsEvent(c, kind, Handle(env, c, kind))
  {
    hide Handle, ShowsEvent;
    if kind.EvTick? || kind.EvL2? || kind.EvL3? {
      DataViews(env, c, kind);
    } else if kind.EvOrder? || kind.EvAck? || kind.EvCancel? || kind.EvCancelAck? {
      OrderViews(env, c, kind);
    } else {
      NewsViews(env, c, kind);
    }
  }

  lemma {:induction false} StepViews<S>(env: Env<S>, e: Engine<S>)
    ensures
      match Advance(env, e)
      case Stepped(next, event, calls) =>
        && next.core.truth == Traded(e.core.truth, event.kind)
        && next.core.market == Delivered(e.core.market, event.kind)
        && forall x :: x in calls ==> x.market == next.core.market
      case Flushed(next, calls) =>
        && next.core.truth == e.core.truth && next.core.market == e.core.market
        && forall x :: x in calls ==> x.market == next.core.market
      case _ => true
  {
    hide Handle, Flush, Ingest, PopFeed, Traded, Delivered, Schedule;
    match PopFeed(env.cfg.feedLatency, e.feed) {
      case Some((event, f)) =>
        HandleViews(env, e.core.(now := event.ts), event.kind);
        var eff := Handle(env, e.core.(now := event.ts), event.kind);
        if eff.Effect? {
          FlushViews(env, eff.core, eff.core.now);
        }
      case None => FlushViews(env, e.core, e.core.now);
    }
  }

  // ---- Whole runs ----------------------------------------------------------------------------------------

  // The last trade of each symbol among the events handled in the first n iterations.
  function LastTrades<S>(env: Env<S>, e: Engine<S>, n: nat): map<int, Tick> {
    if n == 0 then e.core.truth
    else
      match After(env, e, n - 1)
      case None => map[]
      case Some(last) =>
        var o := Advance(env, last);
        if o.Stepped? then Traded(LastTrades(env, e, n - 1), o.event.kind) else LastTrades(env, e, n - 1)
  }

  // The last tick of each symbol delivered in the first n iterations.
  function LastDelivered<S>(env: Env<S>, e: Engine<S>, n: nat): map<int, Tick> {
    if n == 0 then e.core.market
    else
      match After(env, e, n - 1)
      case None => map[]
      case Some(last) =>
        var o := Advance(env, last);
        if o.Stepped? then Delivered(LastDelivered(env, e, n - 1), o.event.kind) else LastDelivered(env, e, n - 1)
  }

  lemma {:induction false} ViewsAreLast<S>(env: Env<S>, e: Engine<S>, n: nat)
    requires After(env, e, n).Some?
    ensures After(env, e, n).value.core.truth == LastTrades(env, e, n)
    ensures After(env, e, n).value.core.market == LastDelivered(env, e, n)
    decreases n
  {
    hide Advance, Traded, Delivered;
    if n > 0 {
      ViewsAreLast(env, e, n - 1);
      StepViews(env, After(env, e, n - 1).value);
    }
  }

  // Whatever a strategy is called with, the market it sees is made of the last tick of each symbol that has
  // been delivered by then, and of nothing else.
  lemma {:induction false} StrategySeesLastDelivered<S>(env: Env<S>, e: Engine<S>, n: nat, call: Callback)
    requires After(env, e, n).Some? && call in CallsOf(Advance(env, After(env, e, n).value))
    ensures call.market == LastDelivered(env, e, n + 1)
  {
    hide Advance, Traded, Delivered;
    ViewsAreLast(env, e, n);
    StepViews(env, After(env, e, n).value);
  }

  // ---- Market fills and funding in a run -------------------------------------------------------------------

  function LastPrice(trades: map<int, Tick>, s: int): Option<int> {
    if s in trades then Some(trades[s].price) else None
  }

  lemma {:induction false} MarketAckReports<S>(env: Env<S>, c: Core<S>, id: int)
    requires id in c.routes && id in ExchangeAt(c, c.routes[id]).orders
    requires ExchangeAt(c, c.routes[id]).orders[id].order.orderType == Market
    ensures
      var (eff, s) := (Handle(env, c, EvAck(id)), c.routes[id]);
      && eff.Effect? && eff.pushes != []
      && eff.pushes[0].ts == c.now + env.cfg.reportLatency && eff.pushes[0].kind.EvReport?
      && FillsFromBook(ExchangeAt(c, s), LastPrice(c.truth, s), ExchangeAt(c, s).orders[id].order,
                       eff.pushes[0].kind.report)
  {
    var ex := ExchangeAt(c, c.routes[id]);
    MarketFillsFromBook(ex, id, LastPrice(c.truth, c.routes[id]));
    hide FillMarket, FillsFromBook, ExchangeAt, Record, JobOf;
  }

  lemma {:induction false} FinishKeepsPush<S>(env: Env<S>, eff: Effect<S>, f: Feed, event: Event)
    requires eff.Effect? && eff.pushes != [] && Finish(env, eff, f, event).Stepped?
    ensures
      Event(eff.pushes[0].ts, f.nextSeq, eff.pushes[0].kind) in Finish(env, eff, f, event).engine.feed.queue
  {
    hide PushAll, Flush;
    var x := Event(eff.pushes[0].ts, f.nextSeq + 0, eff.pushes[0].kind);
    PushAllMembers(f.queue, f.nextSeq, eff.pushes, x);
    var f1 := Schedule(f, eff.pushes);
    var fl := Flush(env, eff.core, eff.core.now);
    if fl.Effect? {
      PushAllMembers(f1.queue, f1.nextSeq, fl.pushes, x);
    }
  }

  // The acknowledgement of a market order queues the report of its one fill: at the best price and for what
  // stands there in the other side of the books of that moment, or else at the price of the last trade.
  lemma {:induction false} MarketOrdersFillFromBook<S>(env: Env<S>, e: Engine<S>, n: nat, id: int)
    requires After(env, e, n).Some? && id in After(env, e, n).value.core.routes
    requires
      var (last, o) := (After(env, e, n).value, Advance(env, After(env, e, n).value));
      var ex := ExchangeAt(last.core, last.core.routes[id]);
      && o.Stepped? && o.event.kind == EvAck(id)
      && id in ex.orders && ex.orders[id].order.orderType == Market
    ensures
      var (last, o) := (After(env, e, n).value, Advance(env, After(env, e, n).value));
      var (s, ex) := (last.core.routes[id], ExchangeAt(last.core, last.core.routes[id]));
      exists x :: x in o.engine.feed.queue && x.ts == o.event.ts + env.cfg.reportLatency && x.kind.EvReport?
                  && FillsFromBook(ex, LastPrice(LastTrades(env, e, n), s), ex.orders[id].order, x.kind.report)
  {
    var last := After(env, e, n).value;
    ViewsAreLast(env, e, n);
    hide After, LastTrades, LastDelivered, Handle, Finish, FillsFromBook, Flush, Ingest, PopFeed, LastPrice;
    var (event, f) := PopFeed(env.cfg.feedLatency, last.feed).value;
    ProcessSteps(env, last.core, f, event);
    var c := last.core.(now := event.ts);
    MarketAckReports(env, c, id);
    var eff := Handle(env, c, event.kind);
    FinishKeepsPush(env, eff, f, event);
    var x := Event(eff.pushes[0].ts, f.nextSeq, eff.pushes[0].kind);
    assert x in Advance(env, last).engine.feed.queue;
  }

  // A funding event of a symbol that has traded is booked at the price of its last trade, whatever has been
  // delivered by then.
  lemma {:induction false} FundingIsMarkedAtLastTrade<S>(env: Env<S>, e: Engine<S>, n: nat)
    requires After(env, e, n).Some?
    requires
      var o := Advance(env, After(env, e, n).value);
      o.Stepped? && o.event.kind.EvFunding? && o.event.kind.funding.symbolId in LastTrades(env, e, n)
    ensures
      var (last, o) := (After(env, e, n).value, Advance(env, After(env, e, n).value));
      o.engine.core.ledger
      == Fund(last.core.ledger, o.event.kind.funding, LastTrades(env, e, n)[o.event.kind.funding.symbolId].price)
  {
    var last := After(env, e, n).value;
    ViewsAreLast(env, e, n);
    hide After, LastTrades, LastDelivered, Handle, Fund, Flush, Ingest, PopFeed, Schedule;
    var (event, f) := PopFeed(env.cfg.feedLatency, last.feed).value;
    ProcessSteps(env, last.core, f, event);
    var c := last.core.(now := event.ts);
    EventLedger(env, c, event.kind);
    FlushLedger(env, Handle(env, c, event.kind).core, event.ts);
    FlushLedger(env, Handle(env, c, event.kind).core, Handle(env, c, event.kind).core.now);
  }

  lemma {:induction false} FundingCall<S>(env: Env<S>, c: Core<S>, event: FundingEvent)
    ensures
      var eff := Handle(env, c, EvFunding(event));
      eff.Effect? ==> eff.calls == [Callback(c.now, c.market, OnFunding(event))]
  {
    hide Fund, FundingMark, Issue;
  }

  // A strategy is told of every funding event as it is handled, whether a payment was booked or not.
  lemma {:induction false} FundingIsAlwaysShown<S>(env: Env<S>, e: Engine<S>)
    requires Advance(env, e).Stepped? && Advance(env, e).event.kind.EvFunding?
    ensures
      var o := Advance(env, e);
      && o.calls != []
      && o.calls[0] == Callback(o.event.ts, e.core.market, OnFunding(o.event.kind.funding))
  {
    hide Handle, Flush, Ingest, PopFeed, Schedule;
    var (event, f) := PopFeed(env.cfg.feedLatency, e.feed).value;
    ProcessSteps(env, e.core, f, event);
    FundingCall(env, e.core.(now := event.ts), event.kind.funding);
  }
}
