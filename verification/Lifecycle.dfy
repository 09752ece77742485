// Who owns an order: in every reachable state each tracked order is either on its way to its
// exchange or lives in exactly that exchange, with exactly the acknowledgements and reports queued
// that its state calls for.
module Lifecycle {
  import opened Types
  import opened Ledgers
  import opened Exchanges
  import opened ExchangeProps
  import opened EventQueues
  import opened EngineSpec
  import opened EngineClock
  import opened QueueViews

  function OrdersAt(xs: Venues, symbol: int): OrderMap {
    if symbol in xs then xs[symbol].orders else map[]
  }

  function LiveIn(xs: Venues, symbol: int, id: int): Option<LiveOrder> {
    if id in OrdersAt(xs, symbol) then Some(OrdersAt(xs, symbol)[id]) else None
  }

  // All that the system holds about one order id.
  datatype Trail = Trail(
    routed: bool,
    live: Option<LiveOrder>,
    arriving: bool,
    acks: nat,
    cancelAcks: nat,
    pending: seq<OrderReport>,
    issued: bool)

  ghost predicate Arriving(q: Queue, id: int) {
    exists i :: 0 <= i < |OrdersIn(q)| && OrdersIn(q)[i].orderId == id
  }

  ghost function TrailOf(xs: Venues, d: Desk, q: Queue, id: int): Trail {
    Trail(id in d.routes, if id in d.routes then LiveIn(xs, d.routes[id], id) else None, Arriving(q, id),
          Tally(q, EvAck(id)), Tally(q, EvCancelAck(id)), ReportsFor(q, id), 0 < id < d.nextOrderId)
  }

  // A terminal report is queued exactly when expected, and then it is the last one.
  ghost predicate EndsWhen(rs: seq<OrderReport>, terminal: bool) {
    && (forall i :: 0 <= i < |rs| - 1 ==> !IsTerminal(rs[i].status))
    && (terminal <==> rs != [] && IsTerminal(rs[|rs| - 1].status))
  }

  ghost predicate TrailOk(t: Trail) {
    if t.routed then
      && t.issued
      && match t.live
         case Some(o) =>
           && !t.arriving
           && t.acks == (if o.state == PendingNew then 1 else 0)
           && (o.state == PendingCancel ==> t.cancelAcks >= 1)
           && EndsWhen(t.pending, IsTerminal(o.state))
         case None => t.arriving && t.acks == 0 && t.pending == []
    else
      && !t.arriving && t.acks == 0
      && (t.pending == [] || (t.issued && |t.pending| == 1 && IsTerminal(t.pending[0].status)))
  }

  // Every exchange is good and holds only orders of its own symbol that are routed to it.
  ghost predicate World(xs: Venues, d: Desk) {
    forall s :: s in xs ==> GoodExchange(xs[s]) && OwnOrders(xs[s].orders, d, s)
  }

  ghost predicate OwnOrders(orders: OrderMap, d: Desk, s: int) {
    forall id :: id in orders ==> id in d.routes && d.routes[id] == s && orders[id].order.symbolId == s
  }

  ghost predicate AscendingIds(os: seq<Order>) {
    forall i, j :: 0 <= i < j < |os| ==> os[i].orderId < os[j].orderId
  }

  ghost predicate Announced(d: Desk, o: Order) {
    o.qty > 0 && 0 < o.orderId < d.nextOrderId && o.orderId in d.routes && d.routes[o.orderId] == o.symbolId
  }

  ghost predicate AllBelow(orders: OrderMap, os: seq<Order>) {
    forall i, id :: 0 <= i < |os| && id in orders ==> id < os[i].orderId
  }

  ghost predicate ArrivalsOf(xs: Venues, d: Desk, os: seq<Order>) {
    && AscendingIds(os)
    && (forall i :: 0 <= i < |os| ==> Announced(d, os[i]))
    && (forall s :: s in xs ==> AllBelow(xs[s].orders, os))
  }

  // Orders arrive in the order of their ids, which no exchange has reached yet.
  ghost predicate Arrivals(xs: Venues, d: Desk, q: Queue) {
    ArrivalsOf(xs, d, OrdersIn(q))
  }

  ghost predicate Trails(xs: Venues, d: Desk, q: Queue) {
    forall id :: TrailOk(TrailOf(xs, d, q, id))
  }

  ghost predicate LifeOk(xs: Venues, d: Desk, q: Queue) {
    World(xs, d) && Arrivals(xs, d, q) && Trails(xs, d, q) && d.nextOrderId > 0
  }

  // ---- Events that do not concern an order ----------------------------------------------------

  predicate Concerns(kind: EventKind, id: int) {
    match kind
    case EvReport(r) => r.orderId == id
    case EvOrder(o) => o.orderId == id
    case EvAck(i) => i == id
    case EvCancelAck(i) => i == id
    case _ => false
  }

  lemma {:induction false} QuietPop(e: Event, q: Queue, id: int)
    requires !Concerns(e.kind, id)
    ensures
      var all := [e] + q;
      && Tally(all, EvAck(id)) == Tally(q, EvAck(id))
      && Tally(all, EvCancelAck(id)) == Tally(q, EvCancelAck(id))
      && ReportsFor(all, id) == ReportsFor(q, id)
      && (Arriving(all, id) <==> Arriving(q, id))
  {
    var all := [e] + q;
    assert all[1..] == q;
    Assoc(ReportsFor(q, id), [], []);
    var os, tail := OrdersIn(all), OrdersIn(q);
    if e.kind.EvOrder? {
      assert os == [e.kind.order] + tail;
      forall i | 0 <= i < |tail| ensures os[i + 1] == tail[i] {}
    } else {
      Assoc(tail, [], []);
      assert os == tail;
    }
  }

  lemma {:induction false} QuietPushed(ps: seq<Push>, id: int)
    requires forall p :: p in ps ==> !Concerns(p.kind, id)
    ensures Pushed(ps, EvAck(id)) == 0 && Pushed(ps, EvCancelAck(id)) == 0
    ensures ReportsPushed(ps, id) == []
    ensures forall i :: 0 <= i < |OrdersPushed(ps)| ==> OrdersPushed(ps)[i].orderId != id
  {
    if ps != [] {
      assert ps[0] in ps;
      QuietPushed(ps[1..], id);
    }
  }

  lemma {:induction false} ArrivingAppend(q: Queue, r: Queue, more: seq<Order>, id: int)
    requires OrdersIn(r) == OrdersIn(q) + more
    ensures Arriving(r, id) <==> Arriving(q, id) || exists i :: 0 <= i < |more| && more[i].orderId == id
  {
    var n := |OrdersIn(q)|;
    if i :| 0 <= i < |more| && more[i].orderId == id {
      assert OrdersIn(r)[n + i].orderId == id;
    }
    if i :| 0 <= i < n && OrdersIn(q)[i].orderId == id {
      assert OrdersIn(r)[i].orderId == id;
    }
    if i :| 0 <= i < |OrdersIn(r)| && OrdersIn(r)[i].orderId == id {
      assert i >= n ==> more[i - n].orderId == id;
    }
  }

  // A good queue with its FIFO bound, to which fresh pushes may be added.
  ghost predicate Room(cfg: Config, q: Queue, next: int, now: int) {
    QueueOk(q, next, now) && Fifo(cfg, q, now)
  }

  lemma {:induction false} RoomViews(cfg: Config, q: Queue, next: int, now: int, ps: seq<Push>, id: int)
    requires Room(cfg, q, next, now) && FreshPushes(cfg, now, ps)
    ensures ReportsFor(PushAll(q, next, ps), id) == ReportsFor(q, id) + ReportsPushed(ps, id)
    ensures OrdersIn(PushAll(q, next, ps)) == OrdersIn(q) + OrdersPushed(ps)
  {
    PushAllViews(cfg, q, next, now, ps, id);
  }

  lemma {:induction false} QuietPush(cfg: Config, q: Queue, next: int, now: int, ps: seq<Push>, id: int)
    requires Room(cfg, q, next, now) && FreshPushes(cfg, now, ps)
    requires forall p :: p in ps ==> !Concerns(p.kind, id)
    ensures
      var q' := PushAll(q, next, ps);
      && Tally(q', EvAck(id)) == Tally(q, EvAck(id))
      && Tally(q', EvCancelAck(id)) == Tally(q, EvCancelAck(id))
      && ReportsFor(q', id) == ReportsFor(q, id)
      && (Arriving(q', id) <==> Arriving(q, id))
  {
    hide PushAll, ReportsFor, OrdersIn, Tally, Arriving, QueueOk, Fifo, FreshPush;
    var q' := PushAll(q, next, ps);
    QuietPushed(ps, id);
    PushAllViews(cfg, q, next, now, ps, id);
    TallyPushAll(q, next, ps, EvAck(id));
    TallyPushAll(q, next, ps, EvCancelAck(id));
    Assoc(ReportsFor(q, id), [], []);
    ArrivingAppend(q, q', OrdersPushed(ps), id);
  }

  lemma {:induction false} RoomAfter(cfg: Config, q: Queue, next: int, now: int, ps: seq<Push>)
    requires Room(cfg, q, next, now) && FreshPushes(cfg, now, ps)
    ensures Room(cfg, PushAll(q, next, ps), next + |ps|, now)
  {
    FreshIsLater(cfg, now, ps);
    hide PushAll, QueueOk, Fifo, FreshPushes, AllFrom;
    PushAllOk(q, next, now, ps);
    PushAllFifo(cfg, q, next, now, ps);
  }

  // ---- Commands ---------------------------------------------------------------------------------

  ghost predicate GoodCommands(cmds: seq<Command>) {
    forall i :: 0 <= i < |cmds| ==> cmds[i].SubmitOrder? ==> cmds[i].order.qty > 0
  }

  // The next id is not in use anywhere.
  lemma {:induction false} NewIdIsFree(xs: Venues, d: Desk, q: Queue)
    requires LifeOk(xs, d, q)
    ensures d.nextOrderId !in d.routes && !Arriving(q, d.nextOrderId)
    ensures forall s :: LiveIn(xs, s, d.nextOrderId).None?
    ensures Tally(q, EvAck(d.nextOrderId)) == 0 && ReportsFor(q, d.nextOrderId) == []
  {
    hide GoodExchange, ReportsFor, Tally;
    assert TrailOk(TrailOf(xs, d, q, d.nextOrderId));
  }

  // A trail that no change touched is still good.
  lemma {:induction false} KeptTrail(xs: Venues, d: Desk, q: Queue, xs': Venues, d': Desk, q': Queue, id: int)
    requires TrailOk(TrailOf(xs, d, q, id)) && d.nextOrderId <= d'.nextOrderId
    requires id in d.routes <==> id in d'.routes
    requires id in d.routes
             ==> d'.routes[id] == d.routes[id] && LiveIn(xs', d.routes[id], id) == LiveIn(xs, d.routes[id], id)
    requires Tally(q', EvAck(id)) == Tally(q, EvAck(id)) && Tally(q', EvCancelAck(id)) == Tally(q, EvCancelAck(id))
    requires ReportsFor(q', id) == ReportsFor(q, id) && (Arriving(q', id) <==> Arriving(q, id))
    ensures TrailOk(TrailOf(xs', d', q', id))
  {
    hide Tally, ReportsFor, Arriving, LiveIn;
  }

  lemma {:induction false} OnePushed(p: Push, id: int)
    ensures OrdersPushed([p]) == QueuedOrder(p.kind) && ReportsPushed([p], id) == QueuedReport(p.kind, id)
    ensures forall kind :: Pushed([p], kind) == if p.kind == kind then 1 else 0
  {
    assert [p][1..] == [];
    Assoc(QueuedOrder(p.kind), [], []);
    Assoc(QueuedReport(p.kind, id), [], []);
    assert OrdersPushed([]) == [] && ReportsPushed([], id) == [] && forall kind :: Pushed([], kind) == 0;
  }

  // The trail of the id that a submitted order has just been given.
  lemma {:induction false} NewOrderTrail(
    cfg: Config, l: Ledger, xs: Venues, d: Desk, q: Queue, next: int, now: int, order: Order)
    requires GoodConfig(cfg) && Room(cfg, q, next, now) && LifeOk(xs, d, q)
    ensures
      var (d', p) := OneCommand(cfg, l, d, SubmitOrder(order), now);
      TrailOk(TrailOf(xs, d', PushAll(q, next, [p]), d.nextOrderId))
  {
    var id := d.nextOrderId;
    var (d', p) := OneCommand(cfg, l, d, SubmitOrder(order), now);
    var q' := PushAll(q, next, [p]);
    assert FreshPush(cfg, now, p);
    NewIdIsFree(xs, d, q);
    OnePushed(p, id);
    hide PushAll, ReportsFor, OrdersIn, Tally, Arriving, QueueOk, Fifo, FreshPush, LifeOk, OrdersPushed,
      ReportsPushed, Pushed;
    PushAllViews(cfg, q, next, now, [p], id);
    TallyPushAll(q, next, [p], EvAck(id));
    ArrivingAppend(q, q', OrdersPushed([p]), id);
    Assoc(QueuedReport(p.kind, id), [], []);
    var t := TrailOf(xs, d', q', id);
    assert t.acks == 0 && t.pending == QueuedReport(p.kind, id) && t.issued;
    if p.kind.EvOrder? {
      assert QueuedOrder(p.kind)[0].orderId == id;
      assert t.routed && t.live.None? && t.arriving;
    } else {
      assert !t.routed && !t.arriving;
    }
  }

  // The new desk and push of one command, seen from one order id.
  lemma {:induction false} CommandTrail(
    cfg: Config, l: Ledger, xs: Venues, d: Desk, q: Queue, next: int, now: int, cmd: Command, id: int)
    requires GoodConfig(cfg) && Room(cfg, q, next, now) && LifeOk(xs, d, q)
    ensures
      var (d', p) := OneCommand(cfg, l, d, cmd, now);
      TrailOk(TrailOf(xs, d', PushAll(q, next, [p]), id))
  {
    var (d', p) := OneCommand(cfg, l, d, cmd, now);
    assert TrailOk(TrailOf(xs, d, q, id));
    if Concerns(p.kind, id) {
      NewOrderTrail(cfg, l, xs, d, q, next, now, cmd.order);
    } else {
      assert FreshPush(cfg, now, p);
      hide PushAll, ReportsFor, OrdersIn, Tally, Arriving, Room, LifeOk, TrailOk, TrailOf;
      QuietPush(cfg, q, next, now, [p], id);
      KeptTrail(xs, d, q, xs, d', PushAll(q, next, [p]), id);
    }
  }

  // All that is live has an id below the next one.
  lemma {:induction false} LiveIdsIssued(xs: Venues, d: Desk, q: Queue)
    requires LifeOk(xs, d, q)
    ensures forall s, id :: s in xs && id in xs[s].orders ==> 0 < id < d.nextOrderId
  {
    hide GoodExchange, ReportsFor, Tally, Arriving;
    forall s, id | s in xs && id in xs[s].orders ensures 0 < id < d.nextOrderId {
      assert OwnOrders(xs[s].orders, d, s);
      assert TrailOk(TrailOf(xs, d, q, id));
    }
  }

  lemma {:induction false} WorldGrows(xs: Venues, d: Desk, d': Desk)
    requires World(xs, d) && forall id :: id in d.routes ==> id in d'.routes && d'.routes[id] == d.routes[id]
    ensures World(xs, d')
  {
    hide GoodExchange;
    forall s | s in xs ensures OwnOrders(xs[s].orders, d', s) {
      assert OwnOrders(xs[s].orders, d, s);
    }
  }

  lemma {:induction false} ArrivalsKept(xs: Venues, d: Desk, q: Queue, d': Desk, q': Queue)
    requires Arrivals(xs, d, q) && OrdersIn(q') == OrdersIn(q) && d.nextOrderId <= d'.nextOrderId
    requires forall id :: id in d.routes ==> id in d'.routes && d'.routes[id] == d.routes[id]
    ensures Arrivals(xs, d', q')
  {
    hide OrdersIn;
  }

  lemma {:induction false} ArrivalsPlus(xs: Venues, d: Desk, os: seq<Order>, d': Desk, o: Order)
    requires ArrivalsOf(xs, d, os)
    requires o.orderId == d.nextOrderId > 0 && o.qty > 0
    requires d' == Desk(d.routes[o.orderId := o.symbolId], d.nextOrderId + 1) && o.orderId !in d.routes
    requires forall s, id :: s in xs && id in xs[s].orders ==> id < d.nextOrderId
    ensures ArrivalsOf(xs, d', os + [o])
  {
    forall s | s in xs ensures AllBelow(xs[s].orders, os + [o]) {
      assert AllBelow(xs[s].orders, os);
    }
  }

  lemma {:induction false} ArrivalsTail(xs: Venues, d: Desk, os: seq<Order>)
    requires ArrivalsOf(xs, d, os) && os != []
    ensures ArrivalsOf(xs, d, os[1..])
    ensures forall i :: 0 <= i < |os[1..]| ==> os[0].orderId < os[1..][i].orderId
  {
    forall s | s in xs ensures AllBelow(xs[s].orders, os[1..]) {
      assert AllBelow(xs[s].orders, os);
    }
  }

  lemma {:induction false} OneFresh(cfg: Config, l: Ledger, d: Desk, cmd: Command, now: int)
    requires GoodConfig(cfg)
    ensures FreshPushes(cfg, now, [OneCommand(cfg, l, d, cmd, now).1])
  {
  }

  lemma {:induction false} CommandArrivals(
    cfg: Config, l: Ledger, xs: Venues, d: Desk, q: Queue, next: int, now: int, cmd: Command)
    requires GoodConfig(cfg) && Room(cfg, q, next, now) && LifeOk(xs, d, q)
    requires cmd.SubmitOrder? ==> cmd.order.qty > 0
    ensures
      var (d', p) := OneCommand(cfg, l, d, cmd, now);
      && World(xs, d') && Arrivals(xs, d', PushAll(q, next, [p]))
  {
    var (d', p) := OneCommand(cfg, l, d, cmd, now);
    var q' := PushAll(q, next, [p]);
    OneFresh(cfg, l, d, cmd, now);
    NewIdIsFree(xs, d, q);
    LiveIdsIssued(xs, d, q);
    hide PushAll, OrdersIn, QueueOk, Fifo, FreshPush, World, ArrivalsOf, Trails;
    WorldGrows(xs, d, d');
    PushAllViews(cfg, q, next, now, [p], 0);
    OnePushed(p, 0);
    Assoc(OrdersIn(q), [], []);
    if p.kind.EvOrder? {
      ArrivalsPlus(xs, d, OrdersIn(q), d', p.kind.order);
    } else {
      ArrivalsKept(xs, d, q, d', q');
    }
  }

  lemma {:induction false} CommandLife(
    cfg: Config, l: Ledger, xs: Venues, d: Desk, q: Queue, next: int, now: int, cmd: Command)
    requires GoodConfig(cfg) && Room(cfg, q, next, now) && LifeOk(xs, d, q)
    requires cmd.SubmitOrder? ==> cmd.order.qty > 0
    ensures
      var (d', p) := OneCommand(cfg, l, d, cmd, now);
      LifeOk(xs, d', PushAll(q, next, [p]))
  {
    CommandArrivals(cfg, l, xs, d, q, next, now, cmd);
    var (d', p) := OneCommand(cfg, l, d, cmd, now);
    forall id ensures TrailOk(TrailOf(xs, d', PushAll(q, next, [p]), id)) {
      CommandTrail(cfg, l, xs, d, q, next, now, cmd, id);
    }
    hide World, Arrivals, TrailOk, TrailOf;
  }

  // Whatever a strategy asks for, ownership stays intact.
  lemma {:induction false} CommandsLife(
    cfg: Config, l: Ledger, xs: Venues, d: Desk, q: Queue, next: int, now: int, cmds: seq<Command>)
    requires GoodConfig(cfg) && Room(cfg, q, next, now) && LifeOk(xs, d, q) && GoodCommands(cmds)
    ensures
      var (d', ps) := Commands(cfg, l, d, cmds, now);
      LifeOk(xs, d', PushAll(q, next, ps))
    decreases cmds
  {
    hide LifeOk, Room, OneCommand;
    if cmds != [] {
      var (d1, p) := OneCommand(cfg, l, d, cmds[0], now);
      CommandLife(cfg, l, xs, d, q, next, now, cmds[0]);
      OneFresh(cfg, l, d, cmds[0], now);
      RoomAfter(cfg, q, next, now, [p]);
      var (d2, ps) := Commands(cfg, l, d1, cmds[1..], now);
      CommandsLife(cfg, l, xs, d1, PushAll(q, next, [p]), next + 1, now, cmds[1..]);
      PushAllAppend(q, next, [p], ps);
    }
  }
}
