// The engine as the program runs it: an object that owns its queue, exchanges, books and buffers and
// updates them in place, with a loop for ingestion, one for commands and one for the run. Every
// method is proved to do exactly what the state machine of EngineSpec says.
module Engines {
  import opened Types
  import opened Arith
  import opened RiskGuards
  import opened Ledgers
  import opened Exchanges
  import opened EventQueues
  import opened Feeds
  import opened EngineSpec
  import opened EngineClock
  import opened BatchDeadline
  import opened Termination
  import opened Batching
  import opened BookKeepers
  import opened ExchangeBoards

  datatype StepResult = Handled(event: Event) | Idle | Faulted

  // How a run ended: after n iterations nothing was left, or an iteration failed.
  ghost predicate EndsAfter<S>(env: Env<S>, e: Engine<S>, n: nat, ok: bool, last: Engine<S>) {
    && After(env, e, n).Some?
    && Advance(env, After(env, e, n).value) == if ok then Done(last) else Failed
  }

  lemma {:induction false} RunStarts<S>(env: Env<S>, e: Engine<S>, before: seq<Callback>)
    ensures After(env, e, 0) == Some(e) && before == before + AllCalls(env, e, 0)
  {
  }

  // One more iteration.
  lemma {:induction false} RunGrows<S>(env: Env<S>, start: Engine<S>, n: nat, e: Engine<S>, before: seq<Callback>)
    requires After(env, start, n) == Some(e) && GoesOn(Advance(env, e))
    ensures After(env, start, n + 1) == Some(Advance(env, e).engine)
    ensures before + AllCalls(env, start, n) + Advance(env, e).calls == before + AllCalls(env, start, n + 1)
  {
    hide Advance;
  }

  // What an iteration does when no event is left.
  lemma {:induction false} IdleDrains<S>(env: Env<S>, e: Engine<S>)
    requires PopFeed(env.cfg.feedLatency, e.feed).None?
    ensures
      var f := Ingest(env.cfg.feedLatency, e.feed);
      if env.cfg.mode == TickMode || (e.core.batch.ticks == [] && e.core.batch.reports == []) then
        Advance(env, e) == Done(Engine(e.core, f))
      else
        match Flush(env, e.core, e.core.now)
        case Fault => Advance(env, e) == Failed
        case Effect(c, ps, calls, _, _) => Advance(env, e) == Flushed(Engine(c, Schedule(f, ps)), calls)
  {
    hide Ingest, Flush;
  }

  lemma {:induction false} ScheduleNone(f: Feed)
    ensures Schedule(f, []) == f
  {
  }

  lemma {:induction false} ScheduleTwice(f: Feed, a: seq<Push>, b: seq<Push>)
    ensures Schedule(Schedule(f, a), b) == Schedule(f, a + b)
  {
    PushAllAppend(f.queue, f.nextSeq, a, b);
  }

  class BacktestEngine<S(!new)> {
    const env: Env<S>
    const queue: EventQueue
    const books: BookKeeper
    const board: ExchangeBoard

    var routes: map<int, int>
    var nextOrderId: int
    var strategy: S
    var draws: nat
    var market: map<int, Tick>
    var truth: map<int, Tick>
    var now: int
    var batch: Batch
    var l2Symbols: set<int>
    var l3Symbols: set<int>
    var nextSeq: int
    var sources: seq<seq<Tick>>
    var l3Sources: seq<seq<L3Update>>

    // Every callback made so far.
    ghost var shown: seq<Callback>

    ghost function Repr(): set<object>
      reads books, board
    {
      {this, queue, books, board} + books.objects + board.objects
    }

    ghost predicate Valid()
      reads books, board, books.objects, board.objects
    {
      && books.Valid() && board.Valid() && board.model == env.cfg.model
      && books.objects !! board.objects && {this, queue, books, board} !! books.objects + board.objects
    }

    ghost function CoreState(): Core<S>
      reads this, books, board
    {
      Core(board.view, routes, nextOrderId, strategy, draws, books.view, market, truth, now, batch, l2Symbols,
           l3Symbols)
    }

    ghost function FeedState(): Feed
      reads this, queue
    {
      Feed(queue.heap, nextSeq, sources, l3Sources)
    }

    ghost function State(): Engine<S>
      reads this, books, board, queue
    {
      Engine(CoreState(), FeedState())
    }

    constructor (env: Env<S>, s: S)
      ensures Valid() && fresh(Repr()) && this.env == env && shown == []
      ensures State() == Engine(InitialCore(env.cfg, s, {}), Feed([], 0, [], []))
    {
      this.env, strategy := env, s;
      queue := new EventQueue();
      books := new BookKeeper(env.cfg.logMode, env.cfg.maxOpenOrders, env.cfg.maxPosition, env.cfg.maxLoss);
      board := new ExchangeBoard(env.cfg.model);
      routes, nextOrderId, draws, market, truth, now := map[], 1, 0, map[], map[], 0;
      batch := Batch([], [], None, 1, false);
      l2Symbols, l3Symbols, nextSeq, sources, l3Sources, shown := {}, {}, 0, [], [], [];
    }

    method AddTickSource(source: seq<Tick>)
      modifies this`sources
      ensures sources == old(sources) + [source]
    {
      sources := sources + [source];
    }

    // A per-order source also fixes which kind of book its symbol has.
    method AddL3Source(symbol: int, source: seq<L3Update>)
      modifies this`l3Sources, this`l3Symbols
      ensures l3Sources == old(l3Sources) + [source] && l3Symbols == old(l3Symbols) + {symbol}
    {
      l3Symbols := l3Symbols + {symbol};
      l3Sources := l3Sources + [source];
    }

    method PushEvent(ts: int, kind: EventKind)
      modifies this`nextSeq, queue
      ensures FeedState() == Schedule(old(FeedState()), [Push(ts, kind)])
    {
      PushOne(queue.heap, nextSeq, Push(ts, kind));
      queue.Push(Event(ts, nextSeq, kind));
      nextSeq := nextSeq + 1;
    }

    // Carry out one command, after the risk checks if it is an order.
    method HandleCommand(cmd: Command, ts: int)
      requires books.Valid() && this !in books.objects && queue !in books.objects
      modifies this`routes, this`nextOrderId, this`nextSeq, queue
      ensures
        var (d, p) := OneCommand(env.cfg, books.view, Desk(old(routes), old(nextOrderId)), cmd, ts);
        routes == d.routes && nextOrderId == d.nextOrderId && FeedState() == Schedule(old(FeedState()), [p])
    {
      hide CheckOrder, Schedule, BookKeeper.Valid;
      match cmd {
        case CancelOrder(id) => PushEvent(ts, EvCancel(id));
        case SubmitOrder(o) =>
          var order := o.(tsSubmit := ts, orderId := nextOrderId);
          nextOrderId := nextOrderId + 1;
          var refusal := books.Check(order, |routes|);
          if refusal.Some? {
            PushEvent(ts + env.cfg.reportLatency, EvReport(RiskReport(order, refusal.value)));
          } else {
            routes := routes[order.orderId := order.symbolId];
            PushEvent(ts, EvOrder(order));
          }
      }
    }

    // Carry out what the strategy asked for, in order.
    method HandleCommands(cmds: seq<Command>, ts: int)
      requires books.Valid() && this !in books.objects && queue !in books.objects
      modifies this`routes, this`nextOrderId, this`nextSeq, queue
      ensures
        var (d, ps) := Commands(env.cfg, books.view, Desk(old(routes), old(nextOrderId)), cmds, ts);
        && routes == d.routes && nextOrderId == d.nextOrderId
        && FeedState() == Schedule(old(FeedState()), ps)
    {
      hide OneCommand, Schedule, BookKeeper.Valid;
      ghost var d0, l := Desk(routes, nextOrderId), books.view;
      ghost var done: seq<Push> := [];
      ScheduleNone(FeedState());
      assert cmds[0..] == cmds;
      for i := 0 to |cmds|
        invariant books.Valid()
        invariant Commands(env.cfg, l, d0, cmds, ts).0
                  == Commands(env.cfg, l, Desk(routes, nextOrderId), cmds[i..], ts).0
        invariant Commands(env.cfg, l, d0, cmds, ts).1
                  == done + Commands(env.cfg, l, Desk(routes, nextOrderId), cmds[i..], ts).1
        invariant FeedState() == Schedule(old(FeedState()), done)
      {
        assert cmds[i..][1..] == cmds[i + 1..];
        ghost var p := OneCommand(env.cfg, l, Desk(routes, nextOrderId), cmds[i], ts).1;
        HandleCommand(cmds[i], ts);
        ScheduleTwice(old(FeedState()), done, [p]);
        ghost var rest := Commands(env.cfg, l, Desk(routes, nextOrderId), cmds[i + 1..], ts).1;
        assert done + ([p] + rest) == done + [p] + rest;
        done := done + [p];
      }
      assert cmds[|cmds|..] == [] && done + [] == done;
    }

    lemma {:induction false} Apart()
      requires Valid()
      ensures books.Valid() && board.Valid() && board.model == env.cfg.model && books.objects !! board.objects
      ensures {this, queue, books, board} !! books.objects + board.objects
    {
      hide BookKeeper.Valid, ExchangeBoard.Valid;
    }

    // New simulators do not disturb what was kept apart before.
    twostate lemma StillValid()
      requires old(Valid()) && books.Valid() && board.Valid()
      requires books.objects == old(books.objects) && fresh(board.objects - old(board.objects))
      ensures Valid() && fresh(Repr() - old(Repr()))
    {
      hide BookKeeper.Valid, ExchangeBoard.Valid;
      forall o | o in board.objects ensures o !in books.objects && o !in {this, queue, books, board} {
        assert o in old(board.objects) || fresh(o);
      }
    }

    // The object has done exactly what the state machine calls this effect.
    twostate predicate Did(eff: Effect<S>)
      reads this, queue, Repr()
    {
      && eff.Effect? && Valid() && fresh(Repr() - old(Repr()))
      && CoreState() == eff.core && FeedState() == Schedule(old(FeedState()), eff.pushes)
      && shown == old(shown) + eff.calls
    }

    // Show the strategy one item of news and carry out what it asks.
    method CallStrategy(ts: int, payload: Payload) returns (ok: bool)
      requires Valid()
      modifies this, queue
      ensures ok == Call(env, old(CoreState()), ts, payload).Effect?
      ensures ok ==> Did(Call(env, old(CoreState()), ts, payload))
    {
      hide Commands, Schedule, BookKeeper.Valid, ExchangeBoard.Valid, ExchangeBoard.ValidBut;
      var cb := Callback(ts, market, payload);
      match env.strategy(strategy, cb) {
        case StrategyError => return false;
        case Reply(s, cmds) =>
          strategy, shown := s, shown + [cb];
          HandleCommands(cmds, ts);
          return true;
      }
    }

    method PushReports(ts: int, reports: seq<OrderReport>)
      modifies this`nextSeq, queue
      ensures FeedState() == Schedule(old(FeedState()), ReportPushes(ts, reports))
    {
      hide Schedule;
      ScheduleNone(FeedState());
      assert ReportPushes(ts, reports[..0]) == [];
      for i := 0 to |reports|
        invariant FeedState() == Schedule(old(FeedState()), ReportPushes(ts, reports[..i]))
      {
        ScheduleTwice(old(FeedState()), ReportPushes(ts, reports[..i]), [Push(ts, EvReport(reports[i]))]);
        assert ReportPushes(ts, reports[..i + 1]) == ReportPushes(ts, reports[..i]) + [Push(ts, EvReport(reports[i]))];
        PushEvent(ts, EvReport(reports[i]));
      }
      assert reports[..|reports|] == reports;
    }

    method FillsOf(ex: ExchangeSimulator, reports: seq<OrderReport>, ts: int) returns (jobs: seq<FillJob>)
      ensures jobs == JobsOf(ex.State(), reports, ts, env.cfg.makerBps)
    {
      hide JobOf;
      jobs := [];
      for i := 0 to |reports|
        invariant jobs + JobsOf(ex.State(), reports[i..], ts, env.cfg.makerBps)
                  == JobsOf(ex.State(), reports, ts, env.cfg.makerBps)
      {
        var r := reports[i];
        assert reports[i..][1..] == reports[i + 1..];
        if r.lastFillQty > 0 && r.orderId in ex.orders {
          jobs := jobs + [JobOf(ex.orders[r.orderId].order, r, ts, env.cfg.makerBps, false)];
        }
      }
    }

    // The market trades: resting orders fill, the books record it, and reports are sent out.
    method TradeTick(tick: Tick)
      requires Valid()
      modifies Repr()
      ensures Did(HandleTick(env, old(CoreState()), tick))
    {
      hide OnTrade, VenueAt, JobsOf, Record, Schedule, ReportPushes, BookKeeper.Valid, ExchangeBoard.Valid;
      Apart();
      hide BacktestEngine.Valid;
      truth := truth[tick.symbolId := tick];
      var ex, reports := board.Trade(tick, tick.symbolId in l3Symbols);
      var jobs := FillsOf(ex, reports, tick.tsExchange);
      books.RecordFills(jobs);
      PushReports(tick.tsExchange + env.cfg.reportLatency, reports);
      StillValid();
    }

    // The strategy's view follows the delivered tick. In Tick mode the strategy is told at once; in
    // Batch mode the tick waits for its batch, and the first one sets the timer.
    method DeliverTick(tick: Tick) returns (ok: bool)
      requires Valid()
      modifies this, queue
      ensures ok == HandleDelivery(env, old(CoreState()), tick).Effect?
      ensures ok ==> Did(HandleDelivery(env, old(CoreState()), tick))
    {
      hide Call, Schedule, BookKeeper.Valid, ExchangeBoard.Valid;
      Apart();
      hide BacktestEngine.Valid;
      market := market[tick.symbolId := tick];
      if env.cfg.mode == TickMode {
        ok := CallStrategy(tick.tsLocal, OnTick(tick));
        return;
      }
      ok := true;
      batch := batch.(ticks := batch.ticks + [tick]);
      if batch.timer.None? && env.cfg.maxBatch > 0 {
        var id := batch.nextTimer;
        batch := batch.(timer := Some(id), nextTimer := id + 1);
        PushEvent(tick.tsLocal + env.cfg.maxBatch, EvTimer(id));
      } else {
        ScheduleNone(FeedState());
      }
    }

    method ApplyL2(u: L2Update) returns (ok: bool)
      requires Valid()
      modifies Repr()
      ensures ok == HandleL2(old(CoreState()), u).Effect?
      ensures ok ==> Did(HandleL2(old(CoreState()), u))
    {
      hide UpdateL2, Schedule, BookKeeper.Valid, ExchangeBoard.Valid;
      Apart();
      hide BacktestEngine.Valid;
      if u.symbolId in l3Symbols {
        return false;
      }
      l2Symbols := l2Symbols + {u.symbolId};
      board.ApplyL2Update(u, u.symbolId in l3Symbols);
      ScheduleNone(FeedState());
      StillValid();
      return true;
    }

    method ApplyL3(u: L3Update) returns (ok: bool)
      requires Valid()
      modifies Repr()
      ensures ok == HandleL3(old(CoreState()), u).Effect?
      ensures ok ==> Did(HandleL3(old(CoreState()), u))
    {
      hide UpdateL3, Schedule, BookKeeper.Valid, ExchangeBoard.Valid;
      Apart();
      hide BacktestEngine.Valid;
      if u.symbolId in l2Symbols {
        return false;
      }
      l3Symbols := l3Symbols + {u.symbolId};
      ok := board.ApplyL3Update(u, u.symbolId in l3Symbols);
      ScheduleNone(FeedState());
      StillValid();
    }

    // An order reaches its exchange; the acknowledgement takes a freshly drawn latency.
    method PlaceOrder(order: Order)
      requires Valid()
      modifies Repr()
      ensures Did(HandleOrder(env, old(CoreState()), order))
    {
      hide Submit, Schedule, BookKeeper.Valid, ExchangeBoard.Valid;
      Apart();
      hide BacktestEngine.Valid;
      board.SubmitOrder(order, order.symbolId in l3Symbols);
      var delay := Max(env.latency(now, draws), 0);
      draws := draws + 1;
      PushEvent(now + delay, EvAck(order.orderId));
      StillValid();
    }

    method RequestCancel(id: int)
      requires Valid()
      modifies Repr()
      ensures Did(HandleCancel(env, old(CoreState()), id))
    {
      hide Cancel, Schedule, BookKeeper.Valid, ExchangeBoard.Valid;
      Apart();
      hide BacktestEngine.Valid;
      ScheduleNone(FeedState());
      if id in routes {
        var accepted := board.CancelOrder(routes[id], id, routes[id] in l3Symbols);
        if accepted {
          var delay := Max(env.latency(now, draws), 0);
          draws := draws + 1;
          PushEvent(now + delay, EvCancelAck(id));
        }
      }
      StillValid();
    }

    method ConfirmCancel(id: int)
      requires Valid()
      modifies Repr()
      ensures Did(HandleCancelAck(env, old(CoreState()), id))
    {
      hide AckCancel, Schedule, BookKeeper.Valid, ExchangeBoard.Valid;
      Apart();
      hide BacktestEngine.Valid;
      ScheduleNone(FeedState());
      if id in routes {
        var report := board.AcknowledgeCancel(routes[id], id, routes[id] in l3Symbols);
        if report.Some? {
          PushEvent(now + env.cfg.reportLatency, EvReport(report.value));
        }
      }
      StillValid();
    }

    method HandTimer(id: int)
      requires Valid()
      modifies this`batch
      ensures Did(HandleTimer(env, old(CoreState()), id))
    {
      hide Schedule, BookKeeper.Valid, ExchangeBoard.Valid;
      ScheduleNone(FeedState());
      if env.cfg.mode == BatchMode && batch.timer == Some(id) {
        batch := batch.(timer := None);
      }
    }

    // The one fill of a market order, booked with the taker fee.
    method TakeLiquidity(symbol: int, id: int) returns (report: OrderReport)
      requires Valid() && id in ExchangeAt(CoreState(), symbol).orders
      modifies board, board.objects, books`view, books.objects
      ensures Valid() && fresh(Repr() - old(Repr()))
      ensures
        var (c, fallback) := (old(CoreState()), if symbol in truth then Some(truth[symbol].price) else None);
        var ex := ExchangeAt(c, symbol);
        && (FillMarket(ex, id, fallback).Some? && report == FillMarket(ex, id, fallback).value.1)
        && board.view == c.exchanges[symbol := FillMarket(ex, id, fallback).value.0]
        && books.view == if report.lastFillQty > 0
                         then Record(c.ledger, [JobOf(ex.orders[id].order, report, now, env.cfg.takerBps, true)])
                         else c.ledger
    {
      hide FillMarket, JobOf, Record, BookKeeper.Valid, ExchangeBoard.Valid;
      Apart();
      hide BacktestEngine.Valid;
      MarketAnswers(CoreState(), symbol, id);
      ghost var before := board.view;
      var fallback := if symbol in truth then Some(truth[symbol].price) else None;
      var l3 := symbol in l3Symbols;
      var order := board.OrderAt(symbol, id, l3);
      var filled := board.FillMarketOrder(symbol, id, fallback, l3);
      assert board.view == before[symbol := board.view[symbol]];
      report := filled.value;
      if report.lastFillQty > 0 {
        books.RecordFills([JobOf(order.value, report, now, env.cfg.takerBps, true)]);
      }
      StillValid();
    }

    // A market order fills at once, and what its one fill leaves over is cancelled at once.
    method FillAtMarket(symbol: int, id: int)
      requires Valid() && id in ExchangeAt(CoreState(), symbol).orders
      modifies Repr()
      ensures Did(MarketAck(env, old(CoreState()), symbol, id))
    {
      hide FillMarket, ForceCancel, JobOf, Record, Schedule, BookKeeper.Valid, ExchangeBoard.Valid;
      Apart();
      hide BacktestEngine.Valid;
      ghost var c, f := CoreState(), FeedState();
      MarketAnswers(c, symbol, id);
      var report := TakeLiquidity(symbol, id);
      Apart();
      var ts := now + env.cfg.reportLatency;
      PushEvent(ts, EvReport(report));
      if report.status == PartiallyFilled {
        var cancelled := board.CancelRemainder(symbol, id, symbol in l3Symbols);
        assert board.view == c.exchanges[symbol := board.view[symbol]];
        PushEvent(ts, EvReport(cancelled.value));
        ScheduleTwice(f, [Push(ts, EvReport(report))], [Push(ts, EvReport(cancelled.value))]);
        assert [Push(ts, EvReport(report))] + [Push(ts, EvReport(cancelled.value))]
               == [Push(ts, EvReport(report)), Push(ts, EvReport(cancelled.value))];
      }
      StillValid();
    }

    // A market order that is there is always answered, and so is the cancel of its rest.
    lemma {:induction false} MarketAnswers(c: Core<S>, symbol: int, id: int)
      requires id in ExchangeAt(c, symbol).orders
      ensures
        var ex := ExchangeAt(c, symbol);
        var fallback := if symbol in c.truth then Some(c.truth[symbol].price) else None;
        FillMarket(ex, id, fallback).Some? && ForceCancel(FillMarket(ex, id, fallback).value.0, id).Some?
    {
      hide MarketQuote;
    }

    // A limit order that is still new becomes open.
    method OpenOrder(symbol: int, id: int)
      requires Valid()
      modifies Repr()
      ensures
        var c := old(CoreState());
        Did(match AckNew(ExchangeAt(c, symbol), id)
            case Some((ex, r)) =>
              Effect(SetExchange(c, symbol, ex), [Push(c.now + env.cfg.reportLatency, EvReport(r))], [], false, false)
            case None => Effect(SetExchange(c, symbol, ExchangeAt(c, symbol)), [], [], false, false))
    {
      hide AckNew, Schedule, BookKeeper.Valid, ExchangeBoard.Valid;
      Apart();
      hide BacktestEngine.Valid;
      ScheduleNone(FeedState());
      var report := board.AcknowledgeNew(symbol, id, symbol in l3Symbols);
      if report.Some? {
        PushEvent(now + env.cfg.reportLatency, EvReport(report.value));
      }
      StillValid();
    }

    method AckOrder(id: int)
      requires Valid()
      modifies Repr()
      ensures Did(HandleAck(env, old(CoreState()), id))
    {
      hide AckNew, MarketAck, Schedule, BookKeeper.Valid, ExchangeBoard.Valid;
      if id !in routes {
        ScheduleNone(FeedState());
        return;
      }
      var symbol := routes[id];
      var isMarket := IsMarket(symbol, id);
      if isMarket {
        FillAtMarket(symbol, id);
      } else {
        OpenOrder(symbol, id);
      }
    }

    method IsMarket(symbol: int, id: int) returns (market: bool)
      requires Valid()
      ensures
        var ex := ExchangeAt(CoreState(), symbol);
        market == (id in ex.orders && ex.orders[id].order.orderType == Market)
    {
      market := board.IsMarket(symbol, id);
    }

    // A terminal report retires its order before the strategy hears of it.
    method RetireOrder(r: OrderReport)
      requires Valid()
      modifies this`routes, board, board.objects
      ensures Valid() && fresh(Repr() - old(Repr())) && CoreState() == Retire(old(CoreState()), r)
    {
      hide Remove, BookKeeper.Valid, ExchangeBoard.Valid;
      Apart();
      hide BacktestEngine.Valid;
      if IsTerminal(r.status) {
        if r.orderId in routes {
          board.RemoveOrder(routes[r.orderId], r.orderId, routes[r.orderId] in l3Symbols);
        }
        routes := routes - {r.orderId};
      }
      StillValid();
    }

    method DeliverReport(r: OrderReport) returns (ok: bool)
      requires Valid()
      modifies Repr()
      ensures ok == HandleReport(env, old(CoreState()), r).Effect?
      ensures ok ==> Did(HandleReport(env, old(CoreState()), r))
    {
      hide Call, Retire, Schedule, BookKeeper.Valid, ExchangeBoard.Valid;
      ScheduleNone(FeedState());
      RetireOrder(r);
      if env.cfg.mode == TickMode {
        ok := CallStrategy(now, OnReport(r));
      } else {
        batch := batch.(reports := batch.reports + [r]);
        ok := true;
      }
    }

    method ApplyFunding(event: FundingEvent) returns (ok: bool)
      requires Valid()
      modifies Repr()
      ensures ok == HandleFunding(env, old(CoreState()), event).Effect?
      ensures ok ==> Did(HandleFunding(env, old(CoreState()), event))
    {
      hide Call, MarkPrice, Fund, Schedule, BookKeeper.Valid, ExchangeBoard.Valid;
      Apart();
      hide BacktestEngine.Valid;
      var mark: Option<int>;
      if event.symbolId in truth {
        mark := Some(truth[event.symbolId].price);
      } else {
        mark := board.MarkPriceOf(event.symbolId);
      }
      assert mark == FundingMark(CoreState(), event.symbolId);
      if mark.Some? {
        books.BookFunding(event, mark.value);
      }
      StillValid();
      ok := CallStrategy(now, OnFunding(event));
    }

    // Show the buffered ticks, then the buffered reports, collecting the commands of both.
    method ShowBatch(ts: int) returns (ok: bool, cmds: seq<Command>)
      modifies this`strategy, this`shown, this`batch
      ensures ok == HandOver(env, old(strategy), market, old(batch), ts).Handover?
      ensures ok ==>
                var h := HandOver(env, old(strategy), market, old(batch), ts);
                strategy == h.state && cmds == h.commands && shown == old(shown) + h.calls
                    && batch == Emptied(old(batch))
    {
      batch, cmds := batch.(timer := None), [];
      if batch.ticks != [] {
        var cb := Callback(ts, market, OnTicks(batch.ticks));
        match env.strategy(strategy, cb) {
          case StrategyError => return false, [];
          case Reply(s, more) => strategy, shown, cmds := s, shown + [cb], more;
        }
        batch := batch.(ticks := []);
      }
      if batch.reports != [] {
        var cb := Callback(ts, market, OnReports(batch.reports));
        match env.strategy(strategy, cb) {
          case StrategyError => return false, [];
          case Reply(s, more) => strategy, shown, cmds := s, shown + [cb], cmds + more;
        }
        batch := batch.(reports := []);
      }
      return true, cmds;
    }

    // Hand over whatever is buffered, under one set of commands, and forget the wakeup timer.
    method FlushStrategy(ts: int) returns (ok: bool)
      requires Valid()
      modifies this, queue
      ensures ok == Flush(env, old(CoreState()), ts).Effect?
      ensures ok ==> Did(Flush(env, old(CoreState()), ts))
    {
      hide HandOver, Commands, Schedule, BookKeeper.Valid, ExchangeBoard.Valid;
      if batch.ticks == [] && batch.reports == [] {
        ScheduleNone(FeedState());
        return true;
      }
      var shownAll, cmds := ShowBatch(ts);
      if shownAll {
        HandleCommands(cmds, ts);
      }
      return shownAll;
    }

    // ---- Ingestion --------------------------------------------------------------------------------------

    // Is the queue empty, or its head no earlier than the given time?
    predicate DueNow(ts: int)
      reads queue
    {
      queue.heap == [] || ts <= queue.heap[0].ts
    }

    method TakeTick(j: nat)
      requires j < |sources| && sources[j] != []
      modifies this`sources, this`nextSeq, queue
      ensures FeedState() == Schedule(old(FeedState()).(sources := Take(old(sources), j)),
                                      TickPushes(env.cfg.feedLatency, old(sources)[j][0]))
    {
      hide Schedule;
      var tick := sources[j][0];
      sources := Take(sources, j);
      ghost var f := FeedState();
      PushEvent(tick.tsExchange, EvTick(tick));
      var ts := if tick.tsLocal == 0 then tick.tsExchange + env.cfg.feedLatency else tick.tsLocal;
      PushEvent(ts, EvDelivery(tick.(tsLocal := ts)));
      ScheduleTwice(f, [Push(tick.tsExchange, EvTick(tick))], [Push(ts, EvDelivery(tick.(tsLocal := ts)))]);
      assert [Push(tick.tsExchange, EvTick(tick))] + [Push(ts, EvDelivery(tick.(tsLocal := ts)))]
             == TickPushes(env.cfg.feedLatency, tick);
    }

    method TakeL3(i: nat)
      requires i < |l3Sources| && l3Sources[i] != []
      modifies this`l3Sources, this`nextSeq, queue
      ensures FeedState()
              == Schedule(old(FeedState()).(l3Sources := Take(old(l3Sources), i)), L3Pushes(old(l3Sources)[i][0]))
    {
      hide Schedule;
      var update := l3Sources[i][0];
      l3Sources := Take(l3Sources, i);
      PushEvent(update.tsExchange, EvL3(update));
    }

    // Move the next source item into the queue, if it is due.
    method IngestNext() returns (more: bool)
      modifies this`sources, this`l3Sources, this`nextSeq, queue
      ensures more == CanIngest(old(FeedState()))
      ensures FeedState() == if more then IngestOne(env.cfg.feedLatency, old(FeedState())) else old(FeedState())
    {
      hide Earliest, PushAll;
      var l3, tick := Earliest(L3Heads(l3Sources)), Earliest(TickHeads(sources));
      if l3.Some? {
        assert L3Heads(l3Sources)[l3.value].Some?;
        var update := l3Sources[l3.value][0];
        var isNext := true;
        if tick.Some? {
          assert TickHeads(sources)[tick.value].Some?;
          isNext := !Less(TickStamp(sources[tick.value][0]), L3Stamp(update));
        }
        if DueNow(update.tsExchange) && isNext {
          TakeL3(l3.value);
          return true;
        }
      }
      if tick.Some? {
        assert TickHeads(sources)[tick.value].Some?;
        if DueNow(sources[tick.value][0].tsExchange) {
          TakeTick(tick.value);
          return true;
        }
      }
      return false;
    }

    // Ingest whatever stands no later than the head of the queue.
    method IngestSources()
      modifies this`sources, this`l3Sources, this`nextSeq, queue
      ensures FeedState() == Ingest(env.cfg.feedLatency, old(FeedState()))
    {
      hide CanIngest, IngestOne;
      var more := true;
      while more
        invariant Ingest(env.cfg.feedLatency, FeedState()) == Ingest(env.cfg.feedLatency, old(FeedState()))
        invariant !more ==> !CanIngest(FeedState())
        decreases more, Remaining(FeedState())
      {
        ghost var f := FeedState();
        more := IngestNext();
        if more {
          IngestOneRemaining(env.cfg.feedLatency, f);
        }
      }
    }

    // ---- One step -----------------------------------------------------------------------------------------

    // Handle one event; tell whether it asks for a batch wakeup and whether it returned early.
    method Dispatch(kind: EventKind) returns (ok: bool, wake: bool, early: bool)
      requires Valid()
      modifies Repr()
      ensures ok == Handle(env, old(CoreState()), kind).Effect?
      ensures ok ==> Did(Handle(env, old(CoreState()), kind))
      ensures ok && env.cfg.mode == BatchMode ==>
                wake == Handle(env, old(CoreState()), kind).wake && early == Handle(env, old(CoreState()), kind).early
    {
      hide HandleTick, HandleDelivery, HandleL2, HandleL3, HandleOrder, HandleAck, HandleCancel, HandleCancelAck,
        HandleReport, HandleFunding, HandleTimer, Schedule, BookKeeper.Valid, ExchangeBoard.Valid, BacktestEngine.Valid;
      if env.cfg.mode == BatchMode {
        HandleBatch(env, CoreState(), kind);
      }
      ok, wake, early := true, false, false;
      match kind {
        case EvTick(tick) => TradeTick(tick);
        case EvDelivery(tick) => ok := DeliverTick(tick);
        case EvL2(u) => ok := ApplyL2(u);
        case EvL3(u) => ok := ApplyL3(u);
        case EvOrder(order) => PlaceOrder(order);
        case EvAck(id) =>
          early := id !in routes;
          AckOrder(id);
        case EvCancel(id) =>
          early := id !in routes;
          RequestCancel(id);
        case EvCancelAck(id) => ConfirmCancel(id);
        case EvReport(r) =>
          wake := true;
          ok := DeliverReport(r);
        case EvFunding(event) =>
          wake := true;
          ok := ApplyFunding(event);
        case EvTimer(id) =>
          wake := batch.timer == Some(id);
          HandTimer(id);
      }
    }

    // After the handler: hand the batch over if it is due, unless something else stands at this
    // instant; then the wakeup waits.
    method Conclude(
      wake: bool, early: bool, ghost before: seq<Callback>, ghost eff: Effect<S>, ghost f: Feed, ghost event: Event)
      returns (ok: bool)
      requires Valid() && eff.Effect? && CoreState() == eff.core && FeedState() == Schedule(f, eff.pushes)
      requires env.cfg.mode == BatchMode ==> wake == eff.wake && early == eff.early
      requires shown == before + eff.calls
      modifies this, queue
      ensures ok == Finish(env, eff, f, event).Stepped?
      ensures ok ==>
                && Valid() && fresh(Repr() - old(Repr())) && State() == Finish(env, eff, f, event).engine
                && shown == before + Finish(env, eff, f, event).calls
    {
      hide Flush, Schedule, BookKeeper.Valid, ExchangeBoard.Valid;
      Apart();
      hide BacktestEngine.Valid;
      ok := true;
      if env.cfg.mode == BatchMode && !early && (wake || batch.pendingWakeup) {
        if queue.heap == [] || queue.heap[0].ts != now {
          ghost var fl := Flush(env, eff.core, now);
          ok := FlushStrategy(now);
          if ok {
            batch := batch.(pendingWakeup := false);
            assert before + eff.calls + fl.calls == before + (eff.calls + fl.calls);
          }
        } else {
          batch := batch.(pendingWakeup := true);
        }
      }
    }

    // Handle an event that has just left the queue.
    method HandleEvent(event: Event) returns (ok: bool)
      requires Valid()
      modifies Repr()
      ensures ok == Process(env, old(CoreState()), old(FeedState()), event).Stepped?
      ensures ok ==>
                var o := Process(env, old(CoreState()), old(FeedState()), event);
                Valid() && fresh(Repr() - old(Repr())) && State() == o.engine && shown == old(shown) + o.calls
    {
      hide Handle, Finish, Schedule, BookKeeper.Valid, ExchangeBoard.Valid;
      Apart();
      hide BacktestEngine.Valid;
      ghost var f, c := FeedState(), CoreState();
      now := event.ts;
      StillValid();
      var wake, early;
      ok, wake, early := Dispatch(event.kind);
      if ok {
        ghost var eff := Handle(env, c.(now := event.ts), event.kind);
        ok := Conclude(wake, early, old(shown), eff, f, event);
      }
    }

    // Ingest what is due, and take the next event.
    method TakeEvent() returns (event: Option<Event>)
      modifies this`sources, this`l3Sources, this`nextSeq, queue
      ensures
        match PopFeed(env.cfg.feedLatency, old(FeedState()))
        case None => event == None && FeedState() == Ingest(env.cfg.feedLatency, old(FeedState()))
        case Some((next, f)) => event == Some(next) && FeedState() == f
    {
      hide Ingest;
      IngestSources();
      event := queue.Pop();
    }

    // Ingest, take the next event, handle it, and wake the strategy if its batch is due.
    method Step() returns (r: StepResult)
      requires Valid()
      modifies Repr()
      ensures r != Faulted ==> Valid() && fresh(Repr() - old(Repr()))
      ensures
        var (e, o) := (old(State()), Advance(env, old(State())));
        match r
        case Handled(event) => o.Stepped? && o.event == event && State() == o.engine && shown == old(shown) + o.calls
        case Idle =>
          && PopFeed(env.cfg.feedLatency, e.feed).None? && shown == old(shown)
          && State() == Engine(e.core, Ingest(env.cfg.feedLatency, e.feed))
        case Faulted => o.Failed?
    {
      hide Ingest, PopFeed, Process, Drain, BookKeeper.Valid, ExchangeBoard.Valid;
      Apart();
      hide BacktestEngine.Valid;
      var popped := TakeEvent();
      StillValid();
      if popped.None? {
        return Idle;
      }
      ProcessSteps(env, CoreState(), FeedState(), popped.value);
      var ok := HandleEvent(popped.value);
      r := if ok then Handled(popped.value) else Faulted;
    }

    // Step until no event is left.
    method StepUntilIdle(ghost start: Engine<S>, ghost before: seq<Callback>, ghost done: nat, ghost end: nat)
      returns (idle: bool, ghost n: nat)
      requires Valid() && StopsAt(env, start, end)
      requires After(env, start, done) == Some(State()) && shown == before + AllCalls(env, start, done)
      modifies Repr()
      ensures done <= n && After(env, start, n).Some?
      ensures !idle ==> Advance(env, After(env, start, n).value) == Failed
      ensures idle ==>
                var e := After(env, start, n).value;
                && Valid() && fresh(Repr() - old(Repr())) && shown == before + AllCalls(env, start, n)
                && PopFeed(env.cfg.feedLatency, e.feed).None?
                && State() == Engine(e.core, Ingest(env.cfg.feedLatency, e.feed))
    {
      hide Advance, After, AllCalls, Ingest, PopFeed, BookKeeper.Valid, ExchangeBoard.Valid, BacktestEngine.Valid,
        BacktestEngine.State, StopsAt;
      n := done;
      ghost var e := State();
      BeforeTheEnd(env, start, n, end);
      var r := Step();
      while r.Handled?
        invariant done <= n <= end && After(env, start, n) == Some(e)
        invariant !r.Faulted? ==> Valid() && fresh(Repr() - old(Repr()))
        invariant
          match r
          case Handled(_) =>
            var o := Advance(env, e);
            o.Stepped? && State() == o.engine && shown == before + AllCalls(env, start, n) + o.calls
          case Idle =>
            && PopFeed(env.cfg.feedLatency, e.feed).None? && shown == before + AllCalls(env, start, n)
            && State() == Engine(e.core, Ingest(env.cfg.feedLatency, e.feed))
          case Faulted => Advance(env, e).Failed?
        decreases end - n
      {
        RunGrows(env, start, n, e, before);
        e, n := State(), n + 1;
        BeforeTheEnd(env, start, n, end);
        r := Step();
      }
      return r.Idle?, n;
    }

    // Step until nothing is left; hand over what is still buffered, and go on if that gave rise to
    // more. A run that has no end would go on for ever here too.
    method Run() returns (ok: bool, ghost n: nat)
      requires Valid() && RunEnds(env, State())
      modifies Repr()
      ensures EndsAfter(env, old(State()), n, ok, State())
      ensures ok ==> Valid() && shown == old(shown) + AllCalls(env, old(State()), n)
    {
      hide Advance, After, AllCalls, Ingest, PopFeed, BookKeeper.Valid, ExchangeBoard.Valid, BacktestEngine.Valid,
        StopsAt;
      ghost var start := State();
      ghost var end: nat :| StopsAt(env, start, end);
      n := 0;
      RunStarts(env, start, shown);
      BeforeTheEnd(env, start, n, end);
      while true
        invariant n <= end && Valid() && fresh(Repr() - old(Repr()))
        invariant After(env, start, n) == Some(State()) && shown == old(shown) + AllCalls(env, start, n)
        decreases end - n
      {
        var idle;
        idle, n := StepUntilIdle(start, old(shown), n, end);
        if !idle {
          return false, n;
        }
        ghost var e := After(env, start, n).value;
        IdleDrains(env, e);
        if env.cfg.mode == TickMode || (batch.ticks == [] && batch.reports == []) {
          return true, n;
        }
        var flushed := FlushStrategy(now);
        if !flushed {
          return false, n;
        }
        RunGrows(env, start, n, e, old(shown));
        n := n + 1;
        BeforeTheEnd(env, start, n, end);
      }
    }
  }
}
