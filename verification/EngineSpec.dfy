// The engine as a deterministic state machine: what one step does, event by event.
module EngineSpec {
  import opened Types
  import opened Arith
  import opened Accounts
  import opened Stats
  import opened RiskGuards
  import opened Ledgers
  import opened QueueModels
  import opened Exchanges
  import opened EventQueues
  import opened Feeds

  datatype Mode = TickMode | BatchMode

  datatype Config = Config(
    feedLatency: int,
    reportLatency: int,
    mode: Mode,
    maxBatch: int,
    logMode: TradeLogMode,
    makerBps: int,
    takerBps: int,
    maxOpenOrders: nat,
    maxPosition: int,
    maxLoss: int,
    model: QueueModel)

  datatype Command = SubmitOrder(order: Order) | CancelOrder(id: int)

  datatype Payload =
    | OnTick(tick: Tick)
    | OnTicks(ticks: seq<Tick>)
    | OnReport(report: OrderReport)
    | OnReports(reports: seq<OrderReport>)
    | OnFunding(event: FundingEvent)

  // All that a strategy is shown: the local time, the delivered market, and the news.
  datatype Callback = Callback(ts: int, market: map<int, Tick>, payload: Payload)

  datatype Reply<S> = Reply(state: S, commands: seq<Command>) | StrategyError

  // An arbitrary deterministic strategy, and the latency draws in the order they are made.
  datatype Env<!S> = Env(
    cfg: Config,
    strategy: (S, Callback) -> Reply<S>,
    latency: (int, nat) -> int)

  // Deliveries waiting for the next batch, and the wakeup that will hand them over.
  datatype Batch = Batch(
    ticks: seq<Tick>,
    reports: seq<OrderReport>,
    timer: Option<int>,
    nextTimer: int,
    pendingWakeup: bool)

  datatype Core<S> = Core(
    exchanges: Venues,
    routes: map<int, int>,
    nextOrderId: int,
    strategy: S,
    draws: nat,
    ledger: Ledger,
    market: map<int, Tick>,
    truth: map<int, Tick>,
    now: int,
    batch: Batch,
    l2Symbols: set<int>,
    l3Symbols: set<int>)

  datatype Engine<S> = Engine(core: Core<S>, feed: Feed)

  function InitialCore<S>(cfg: Config, s: S, l3Symbols: set<int>): Core<S> {
    Core(map[], map[], 1, s, 0,
         Ledger(EMPTY_ACCOUNT, NewLog(cfg.logMode), NewGuard(cfg.maxOpenOrders, cfg.maxPosition, cfg.maxLoss)),
         map[], map[], 0, Batch([], [], None, 1, false), {}, l3Symbols)
  }

  // What handling one event does: the new state, the events it schedules, the callbacks it made,
  // whether it asks for a batch wakeup, and whether it returned before the wakeup check.
  datatype Effect<S> =
    | Effect(core: Core<S>, pushes: seq<Push>, calls: seq<Callback>, wake: bool, early: bool)
    | Fault

  function ExchangeAt<S>(c: Core<S>, symbol: int): Exchange {
    VenueAt(c.exchanges, symbol, symbol in c.l3Symbols)
  }

  function SetExchange<S>(c: Core<S>, symbol: int, ex: Exchange): Core<S> {
    c.(exchanges := c.exchanges[symbol := ex])
  }

  // ---- Commands --------------------------------------------------------------------------------

  datatype Desk = Desk(routes: map<int, int>, nextOrderId: int)

  function RiskReport(order: Order, reason: Reason): OrderReport {
    OrderReport(order.orderId, order.clientOrderId, order.symbolId, Rejected, 0, 0, 0, order.qty, Some(reason))
  }

  function OneCommand(cfg: Config, l: Ledger, d: Desk, cmd: Command, ts: int): (Desk, Push) {
    match cmd
    case CancelOrder(id) => (d, Push(ts, EvCancel(id)))
    case SubmitOrder(o) =>
      var order := o.(tsSubmit := ts, orderId := d.nextOrderId);
      var d' := d.(nextOrderId := d.nextOrderId + 1);
      match CheckOrder(l.guard, order, |d.routes|, PositionQty(l.account, order.symbolId))
      case Some(reason) => (d', Push(ts + cfg.reportLatency, EvReport(RiskReport(order, reason))))
      case None => (d'.(routes := d.routes[order.orderId := order.symbolId]), Push(ts, EvOrder(order)))
  }

  function Commands(cfg: Config, l: Ledger, d: Desk, cmds: seq<Command>, ts: int): (Desk, seq<Push>)
    decreases cmds
  {
    if cmds == [] then (d, [])
    else
      var (d1, p) := OneCommand(cfg, l, d, cmds[0], ts);
      var (d2, ps) := Commands(cfg, l, d1, cmds[1..], ts);
      (d2, [p] + ps)
  }

  function Issue<S>(cfg: Config, c: Core<S>, cmds: seq<Command>, ts: int): (Core<S>, seq<Push>) {
    var (d, ps) := Commands(cfg, c.ledger, Desk(c.routes, c.nextOrderId), cmds, ts);
    (c.(routes := d.routes, nextOrderId := d.nextOrderId), ps)
  }

  // Show the strategy one item of news and carry out what it asks.
  function Call<S>(env: Env<S>, c: Core<S>, ts: int, payload: Payload): Effect<S> {
    var cb := Callback(ts, c.market, payload);
    match env.strategy(c.strategy, cb)
    case StrategyError => Fault
    case Reply(s, cmds) =>
      var (c', ps) := Issue(env.cfg, c.(strategy := s), cmds, ts);
      Effect(c', ps, [cb], false, false)
  }

  // What the strategy makes of a batch: the ticks first, then the reports.
  datatype Handover<S> = Handover(state: S, commands: seq<Command>, calls: seq<Callback>) | Refused

  function HandOver<S>(env: Env<S>, s: S, market: map<int, Tick>, b: Batch, ts: int): Handover<S> {
    var tickCall := if b.ticks == [] then [] else [Callback(ts, market, OnTicks(b.ticks))];
    var first := if tickCall == [] then Reply(s, []) else env.strategy(s, tickCall[0]);
    if first.StrategyError? then Refused
    else
      var reportCall := if b.reports == [] then [] else [Callback(ts, market, OnReports(b.reports))];
      var second := if reportCall == [] then Reply(first.state, []) else env.strategy(first.state, reportCall[0]);
      if second.StrategyError? then Refused
      else Handover(second.state, first.commands + second.commands, tickCall + reportCall)
  }

  function Emptied(b: Batch): Batch {
    b.(ticks := [], reports := [], timer := None)
  }

  // Hand over whatever is buffered, under one set of commands, and forget the wakeup timer.
  function Flush<S>(env: Env<S>, c: Core<S>, ts: int): Effect<S> {
    if c.batch.ticks == [] && c.batch.reports == [] then Effect(c, [], [], false, false)
    else
      match HandOver(env, c.strategy, c.market, c.batch, ts)
      case Refused => Fault
      case Handover(s, cmds, calls) =>
        var (c', ps) := Issue(env.cfg, c.(strategy := s, batch := Emptied(c.batch)), cmds, ts);
        Effect(c', ps, calls, false, false)
  }

  // ---- Event handlers --------------------------------------------------------------------------

  function ReportPushes(ts: int, rs: seq<OrderReport>): seq<Push> {
    seq(|rs|, i requires 0 <= i < |rs| => Push(ts, EvReport(rs[i])))
  }

  function JobOf(order: Order, r: OrderReport, ts: int, bps: int, taker: bool): FillJob {
    FillJob(order, TradeFill(ts, r.orderId, r.lastFillPrice, r.lastFillQty,
                             ComputeFee(r.lastFillPrice, r.lastFillQty, bps), r.symbolId, order.side, taker))
  }

  function JobsOf(ex: Exchange, rs: seq<OrderReport>, ts: int, bps: int): seq<FillJob> {
    if rs == [] then []
    else
      (if rs[0].lastFillQty > 0 && rs[0].orderId in ex.orders
       then [JobOf(ex.orders[rs[0].orderId].order, rs[0], ts, bps, false)] else [])
      + JobsOf(ex, rs[1..], ts, bps)
  }

  function HandleTick<S>(env: Env<S>, c: Core<S>, tick: Tick): Effect<S> {
    var (ex, reports) := OnTrade(ExchangeAt(c, tick.symbolId), tick);
    var jobs := JobsOf(ex, reports, tick.tsExchange, env.cfg.makerBps);
    var c' := SetExchange(c, tick.symbolId, ex)
              .(truth := c.truth[tick.symbolId := tick], ledger := Record(c.ledger, jobs));
    Effect(c', ReportPushes(tick.tsExchange + env.cfg.reportLatency, reports), [], false, false)
  }

  function HandleDelivery<S>(env: Env<S>, c: Core<S>, tick: Tick): Effect<S> {
    var c1 := c.(market := c.market[tick.symbolId := tick]);
    if env.cfg.mode == TickMode then Call(env, c1, tick.tsLocal, OnTick(tick))
    else
      var b := c1.batch.(ticks := c1.batch.ticks + [tick]);
      if b.timer.None? && env.cfg.maxBatch > 0 then
        Effect(c1.(batch := b.(timer := Some(b.nextTimer), nextTimer := b.nextTimer + 1)),
               [Push(tick.tsLocal + env.cfg.maxBatch, EvTimer(b.nextTimer))], [], false, false)
      else Effect(c1.(batch := b), [], [], false, false)
  }

  // One symbol may not mix level updates and per-order updates.
  function HandleL2<S>(c: Core<S>, u: L2Update): Effect<S> {
    if u.symbolId in c.l3Symbols then Fault
    else
      var c1 := c.(l2Symbols := c.l2Symbols + {u.symbolId});
      Effect(SetExchange(c1, u.symbolId, UpdateL2(ExchangeAt(c1, u.symbolId), u)), [], [], false, false)
  }

  function HandleL3<S>(c: Core<S>, u: L3Update): Effect<S> {
    if u.symbolId in c.l2Symbols then Fault
    else
      var c1 := c.(l3Symbols := c.l3Symbols + {u.symbolId});
      match UpdateL3(ExchangeAt(c1, u.symbolId), u)
      case None => Fault
      case Some(ex) => Effect(SetExchange(c1, u.symbolId, ex), [], [], false, false)
  }

  function Delay<S>(env: Env<S>, c: Core<S>): int {
    Max(env.latency(c.now, c.draws), 0)
  }

  function HandleOrder<S>(env: Env<S>, c: Core<S>, order: Order): Effect<S> {
    var ex := Submit(env.cfg.model, ExchangeAt(c, order.symbolId), order);
    Effect(SetExchange(c, order.symbolId, ex).(draws := c.draws + 1),
           [Push(c.now + Delay(env, c), EvAck(order.orderId))], [], false, false)
  }

  // A market order fills at once; what its one fill leaves over is cancelled at once.
  function MarketAck<S>(env: Env<S>, c: Core<S>, symbol: int, id: int): Effect<S>
    requires id in ExchangeAt(c, symbol).orders
  {
    var ex := ExchangeAt(c, symbol);
    var order := ex.orders[id].order;
    var fallback := if symbol in c.truth then Some(c.truth[symbol].price) else None;
    var (ex1, r) := FillMarket(ex, id, fallback).value;
    var ledger :=
      if r.lastFillQty > 0 then Record(c.ledger, [JobOf(order, r, c.now, env.cfg.takerBps, true)]) else c.ledger;
    var ts := c.now + env.cfg.reportLatency;
    if r.status == PartiallyFilled then
      var (ex2, r2) := ForceCancel(ex1, id).value;
      Effect(SetExchange(c, symbol, ex2).(ledger := ledger),
             [Push(ts, EvReport(r)), Push(ts, EvReport(r2))], [], false, false)
    else
      Effect(SetExchange(c, symbol, ex1).(ledger := ledger), [Push(ts, EvReport(r))], [], false, false)
  }

  function HandleAck<S>(env: Env<S>, c: Core<S>, id: int): Effect<S> {
    if id !in c.routes then Effect(c, [], [], false, true)
    else
      var symbol := c.routes[id];
      var ex := ExchangeAt(c, symbol);
      if id in ex.orders && ex.orders[id].order.orderType == Market then MarketAck(env, c, symbol, id)
      else
        match AckNew(ex, id)
        case Some((ex', r)) =>
          Effect(SetExchange(c, symbol, ex'), [Push(c.now + env.cfg.reportLatency, EvReport(r))], [], false, false)
        case None => Effect(SetExchange(c, symbol, ex), [], [], false, false)
  }

  function HandleCancel<S>(env: Env<S>, c: Core<S>, id: int): Effect<S> {
    if id !in c.routes then Effect(c, [], [], false, true)
    else
      var symbol := c.routes[id];
      match Cancel(ExchangeAt(c, symbol), id)
      case Some(ex) =>
        Effect(SetExchange(c, symbol, ex).(draws := c.draws + 1),
               [Push(c.now + Delay(env, c), EvCancelAck(id))], [], false, false)
      case None => Effect(SetExchange(c, symbol, ExchangeAt(c, symbol)), [], [], false, false)
  }

  function HandleCancelAck<S>(env: Env<S>, c: Core<S>, id: int): Effect<S> {
    if id !in c.routes then Effect(c, [], [], false, false)
    else
      var symbol := c.routes[id];
      match AckCancel(ExchangeAt(c, symbol), id)
      case Some((ex, r)) =>
        Effect(SetExchange(c, symbol, ex), [Push(c.now + env.cfg.reportLatency, EvReport(r))], [], false, false)
      case None => Effect(SetExchange(c, symbol, ExchangeAt(c, symbol)), [], [], false, false)
  }

  // A terminal report retires its order before the strategy sees it.
  function Retire<S>(c: Core<S>, r: OrderReport): Core<S> {
    if !IsTerminal(r.status) || r.orderId !in c.routes then c
    else
      var symbol := c.routes[r.orderId];
      SetExchange(c, symbol, Remove(ExchangeAt(c, symbol), r.orderId)).(routes := c.routes - {r.orderId})
  }

  function HandleReport<S>(env: Env<S>, c: Core<S>, r: OrderReport): Effect<S> {
    var c1 := Retire(c, r);
    if env.cfg.mode == TickMode then Call(env, c1, c1.now, OnReport(r))
    else Effect(c1.(batch := c1.batch.(reports := c1.batch.reports + [r])), [], [], true, false)
  }

  function FundingMark<S>(c: Core<S>, symbol: int): Option<int> {
    if symbol in c.truth then Some(c.truth[symbol].price)
    else if symbol in c.exchanges then MarkPrice(c.exchanges[symbol])
    else None
  }

  function HandleFunding<S>(env: Env<S>, c: Core<S>, event: FundingEvent): Effect<S> {
    var mark := FundingMark(c, event.symbolId);
    var c1 := if mark.Some? then c.(ledger := Fund(c.ledger, event, mark.value)) else c;
    match Call(env, c1, c1.now, OnFunding(event))
    case Fault => Fault
    case Effect(c2, ps, calls, _, _) => Effect(c2, ps, calls, env.cfg.mode == BatchMode, false)
  }

  function HandleTimer<S>(env: Env<S>, c: Core<S>, id: int): Effect<S> {
    if env.cfg.mode == BatchMode && c.batch.timer == Some(id) then
      Effect(c.(batch := c.batch.(timer := None)), [], [], true, false)
    else Effect(c, [], [], false, false)
  }

  function Handle<S>(env: Env<S>, c: Core<S>, kind: EventKind): Effect<S> {
    match kind
    case EvTick(tick) => HandleTick(env, c, tick)
    case EvDelivery(tick) => HandleDelivery(env, c, tick)
    case EvL2(u) => HandleL2(c, u)
    case EvL3(u) => HandleL3(c, u)
    case EvOrder(order) => HandleOrder(env, c, order)
    case EvAck(id) => HandleAck(env, c, id)
    case EvCancel(id) => HandleCancel(env, c, id)
    case EvCancelAck(id) => HandleCancelAck(env, c, id)
    case EvReport(r) => HandleReport(env, c, r)
    case EvFunding(event) => HandleFunding(env, c, event)
    case EvTimer(id) => HandleTimer(env, c, id)
  }

  // ---- One step --------------------------------------------------------------------------------

  function Schedule(f: Feed, ps: seq<Push>): Feed {
    f.(queue := PushAll(f.queue, f.nextSeq, ps), nextSeq := f.nextSeq + |ps|)
  }

  datatype Outcome<S> =
    | Stepped(engine: Engine<S>, event: Event, calls: seq<Callback>)
    | Flushed(engine: Engine<S>, calls: seq<Callback>)
    | Done(engine: Engine<S>)
    | Failed

  // Is a batch due?
  predicate WantsFlush<S>(env: Env<S>, eff: Effect<S>)
    requires eff.Effect?
  {
    env.cfg.mode == BatchMode && !eff.early && (eff.wake || eff.core.batch.pendingWakeup)
  }

  // Does another event stand at this very instant?
  predicate MustWait(q: Queue, now: int) {
    q != [] && q[0].ts == now
  }

  // After the handler: flush, defer the flush, or go on.
  function Finish<S>(env: Env<S>, eff: Effect<S>, f: Feed, event: Event): Outcome<S>
    requires eff.Effect?
  {
    var f1 := Schedule(f, eff.pushes);
    if !WantsFlush(env, eff) then Stepped(Engine(eff.core, f1), event, eff.calls)
    else if MustWait(f1.queue, eff.core.now) then
      Stepped(Engine(eff.core.(batch := eff.core.batch.(pendingWakeup := true)), f1), event, eff.calls)
    else
      match Flush(env, eff.core, eff.core.now)
      case Fault => Failed
      case Effect(c, ps, calls, _, _) =>
        Stepped(Engine(c.(batch := c.batch.(pendingWakeup := false)), Schedule(f1, ps)), event, eff.calls + calls)
  }

  // Handle an event that has just left the queue.
  function Process<S>(env: Env<S>, c: Core<S>, f: Feed, event: Event): Outcome<S> {
    match Handle(env, c.(now := event.ts), event.kind)
    case Fault => Failed
    case Effect(c', ps, calls, wake, early) => Finish(env, Effect(c', ps, calls, wake, early), f, event)
  }

  // When nothing is left, whatever is still buffered is handed over once.
  function Drain<S>(env: Env<S>, c: Core<S>, f: Feed): Outcome<S> {
    if env.cfg.mode == BatchMode && (c.batch.ticks != [] || c.batch.reports != []) then
      match Flush(env, c, c.now)
      case Fault => Failed
      case Effect(c', ps, calls, _, _) => Flushed(Engine(c', Schedule(f, ps)), calls)
    else Done(Engine(c, f))
  }

  // One iteration of the run loop.
  function Advance<S>(env: Env<S>, e: Engine<S>): Outcome<S> {
    match PopFeed(env.cfg.feedLatency, e.feed)
    case Some((event, f)) => Process(env, e.core, f, event)
    case None => Drain(env, e.core, Ingest(env.cfg.feedLatency, e.feed))
  }

  // ---- Runs -------------------------------------------------------------------------------------

  // The engine after n iterations, if the run gets that far.
  function After<S>(env: Env<S>, e: Engine<S>, n: nat): Option<Engine<S>> {
    if n == 0 then Some(e)
    else
      match After(env, e, n - 1)
      case None => None
      case Some(e') =>
        match Advance(env, e')
        case Stepped(next, _, _) => Some(next)
        case Flushed(next, _) => Some(next)
        case _ => None
  }

  // The calls an iteration makes.
  function CallsOf<S>(o: Outcome<S>): seq<Callback> {
    match o
    case Stepped(_, _, calls) => calls
    case Flushed(_, calls) => calls
    case _ => []
  }

  // Events put in the queue before a run: market data and funding, each at its own time.
  predicate External(p: Push) {
    match p.kind
    case EvTick(t) => p.ts == t.tsExchange
    case EvDelivery(t) => p.ts == t.tsLocal
    case EvL2(u) => u.qty >= 0
    case EvL3(_) => true
    case EvFunding(_) => true
    case _ => false
  }

  // A run's starting point: sources attached, external events queued.
  function Start<S>(
    cfg: Config, s: S, sources: seq<seq<Tick>>, l3Sources: seq<seq<L3Update>>, l3Symbols: set<int>,
    external: seq<Push>): Engine<S>
  {
    Engine(InitialCore(cfg, s, l3Symbols), Feed(PushAll([], 0, external), |external|, sources, l3Sources))
  }
}
