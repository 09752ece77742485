// What the event queue holds for one order: its arrival, its acknowledgements, its reports.
module QueueViews {
  import opened Types
  import opened EventQueues
  import opened EngineSpec
  import opened EngineClock

  function QueuedReport(kind: EventKind, id: int): seq<OrderReport> {
    if kind.EvReport? && kind.report.orderId == id then [kind.report] else []
  }

  function QueuedOrder(kind: EventKind): seq<Order> {
    if kind.EvOrder? then [kind.order] else []
  }

  // The reports queued for one order, in delivery order.
  function ReportsFor(q: Queue, id: int): seq<OrderReport> {
    if q == [] then [] else QueuedReport(q[0].kind, id) + ReportsFor(q[1..], id)
  }

  // The orders on their way to an exchange, in arrival order.
  function OrdersIn(q: Queue): seq<Order> {
    if q == [] then [] else QueuedOrder(q[0].kind) + OrdersIn(q[1..])
  }

  // The number of queued events of exactly this kind.
  function Tally(q: Queue, kind: EventKind): nat {
    if q == [] then 0 else (if q[0].kind == kind then 1 else 0) + Tally(q[1..], kind)
  }

  function ReportsPushed(ps: seq<Push>, id: int): seq<OrderReport> {
    if ps == [] then [] else QueuedReport(ps[0].kind, id) + ReportsPushed(ps[1..], id)
  }

  function OrdersPushed(ps: seq<Push>): seq<Order> {
    if ps == [] then [] else QueuedOrder(ps[0].kind) + OrdersPushed(ps[1..])
  }

  function Pushed(ps: seq<Push>, kind: EventKind): nat {
    if ps == [] then 0 else (if ps[0].kind == kind then 1 else 0) + Pushed(ps[1..], kind)
  }

  lemma {:induction false} Assoc<T>(a: seq<T>, b: seq<T>, c: seq<T>)
    ensures (a + b) + c == a + (b + c)
    ensures [] + a == a && a + [] == a
  {
  }

  // Queued reports and orders are due no later than anything pushed now would be.
  ghost predicate Fifo(cfg: Config, q: Queue, now: int) {
    forall x :: x in q ==>
      && (x.kind.EvReport? ==> x.ts <= now + cfg.reportLatency)
      && (x.kind.EvOrder? ==> x.ts <= now)
  }

  lemma {:induction false} NoneLater(q: Queue, ts: int, id: int)
    requires Sorted(q) && q != [] && q[0].ts > ts
    ensures (forall x :: x in q && x.kind.EvReport? ==> x.ts <= ts) ==> ReportsFor(q, id) == []
    ensures (forall x :: x in q && x.kind.EvOrder? ==> x.ts <= ts) ==> OrdersIn(q) == []
  {
    assert q[0] in q;
    if |q| > 1 {
      assert Before(q[0], q[1]);
      NoneLater(q[1..], ts, id);
    }
  }

  lemma {:induction false} TallyInsert(q: Queue, e: Event, kind: EventKind)
    ensures Tally(Insert(q, e), kind) == Tally(q, kind) + if e.kind == kind then 1 else 0
  {
    if q != [] && !Before(e, q[0]) {
      TallyInsert(q[1..], e, kind);
    }
  }

  lemma {:induction false} TallyPushAll(q: Queue, next: int, ps: seq<Push>, kind: EventKind)
    ensures Tally(PushAll(q, next, ps), kind) == Tally(q, kind) + Pushed(ps, kind)
    decreases ps
  {
    hide Insert, Tally;
    if ps != [] {
      var e := Event(ps[0].ts, next, ps[0].kind);
      TallyInsert(q, e, kind);
      TallyPushAll(Insert(q, e), next + 1, ps[1..], kind);
    }
  }

  // A report goes behind all the reports already queued; any other event leaves them in place.
  lemma {:induction false} ReportsInsert(q: Queue, e: Event, id: int)
    requires Sorted(q) && forall i :: 0 <= i < |q| ==> q[i].seqNo < e.seqNo
    requires e.kind.EvReport? ==> forall x :: x in q && x.kind.EvReport? ==> x.ts <= e.ts
    ensures ReportsFor(Insert(q, e), id) == ReportsFor(q, id) + QueuedReport(e.kind, id)
  {
    Assoc<OrderReport>(QueuedReport(e.kind, id), [], []);
    if q != [] {
      Assoc(QueuedReport(q[0].kind, id), ReportsFor(q[1..], id), QueuedReport(e.kind, id));
      assert q[0] in q;
      if Before(e, q[0]) {
        Assoc(ReportsFor(q, id), [], []);
        assert Insert(q, e)[1..] == q;
        if e.kind.EvReport? {
          NoneLater(q, e.ts, id);
        }
      } else {
        hide QueuedReport;
        ReportsInsert(q[1..], e, id);
        assert Insert(q, e)[1..] == Insert(q[1..], e);
      }
    }
  }

  lemma {:induction false} OrdersInsert(q: Queue, e: Event)
    requires Sorted(q) && forall i :: 0 <= i < |q| ==> q[i].seqNo < e.seqNo
    requires e.kind.EvOrder? ==> forall x :: x in q && x.kind.EvOrder? ==> x.ts <= e.ts
    ensures OrdersIn(Insert(q, e)) == OrdersIn(q) + QueuedOrder(e.kind)
  {
    Assoc<Order>(QueuedOrder(e.kind), [], []);
    if q != [] {
      Assoc(QueuedOrder(q[0].kind), OrdersIn(q[1..]), QueuedOrder(e.kind));
      assert q[0] in q;
      if Before(e, q[0]) {
        Assoc(OrdersIn(q), [], []);
        assert Insert(q, e)[1..] == q;
        if e.kind.EvOrder? {
          NoneLater(q, e.ts, 0);
        }
      } else {
        hide QueuedOrder;
        OrdersInsert(q[1..], e);
        assert Insert(q, e)[1..] == Insert(q[1..], e);
      }
    }
  }

  lemma {:induction false} FifoInsert(cfg: Config, q: Queue, next: int, now: int, p: Push)
    requires Fifo(cfg, q, now) && FreshPush(cfg, now, p)
    ensures Fifo(cfg, Insert(q, Event(p.ts, next, p.kind)), now)
  {
    var e := Event(p.ts, next, p.kind);
    InsertMembers(q, e);
  }

  lemma {:induction false} PushAllFifo(cfg: Config, q: Queue, next: int, now: int, ps: seq<Push>)
    requires Fifo(cfg, q, now) && FreshPushes(cfg, now, ps)
    ensures Fifo(cfg, PushAll(q, next, ps), now)
    decreases ps
  {
    hide Insert, Fifo, FreshPush;
    if ps != [] {
      assert ps[0] in ps;
      FifoInsert(cfg, q, next, now, ps[0]);
      PushAllFifo(cfg, Insert(q, Event(ps[0].ts, next, ps[0].kind)), next + 1, now, ps[1..]);
    }
  }

  lemma {:induction false} OnePushViews(cfg: Config, q: Queue, next: int, now: int, p: Push, id: int)
    requires QueueOk(q, next, now) && Fifo(cfg, q, now) && FreshPush(cfg, now, p)
    ensures
      var q' := Insert(q, Event(p.ts, next, p.kind));
      && QueueOk(q', next + 1, now) && Fifo(cfg, q', now)
      && ReportsFor(q', id) == ReportsFor(q, id) + QueuedReport(p.kind, id)
      && OrdersIn(q') == OrdersIn(q) + QueuedOrder(p.kind)
  {
    var e := Event(p.ts, next, p.kind);
    FifoInsert(cfg, q, next, now, p);
    hide Insert, ReportsFor, OrdersIn;
    InsertOk(q, next, now, p);
    ReportsInsert(q, e, id);
    OrdersInsert(q, e);
  }

  // Fresh pushes append to every view of the queue.
  lemma {:induction false} PushAllViews(cfg: Config, q: Queue, next: int, now: int, ps: seq<Push>, id: int)
    requires QueueOk(q, next, now) && Fifo(cfg, q, now) && FreshPushes(cfg, now, ps)
    ensures ReportsFor(PushAll(q, next, ps), id) == ReportsFor(q, id) + ReportsPushed(ps, id)
    ensures OrdersIn(PushAll(q, next, ps)) == OrdersIn(q) + OrdersPushed(ps)
    decreases ps
  {
    hide Insert, ReportsFor, OrdersIn, QueueOk, Fifo, FreshPush, QueuedReport, QueuedOrder;
    Assoc(ReportsFor(q, id), [], []);
    Assoc(OrdersIn(q), [], []);
    if ps != [] {
      assert ps[0] in ps;
      OnePushViews(cfg, q, next, now, ps[0], id);
      PushAllViews(cfg, Insert(q, Event(ps[0].ts, next, ps[0].kind)), next + 1, now, ps[1..], id);
      Assoc(ReportsFor(q, id), QueuedReport(ps[0].kind, id), ReportsPushed(ps[1..], id));
      Assoc(OrdersIn(q), QueuedOrder(ps[0].kind), OrdersPushed(ps[1..]));
    }
  }

  lemma {:induction false} PushedAppend(a: seq<Push>, b: seq<Push>, kind: EventKind, id: int)
    ensures Pushed(a + b, kind) == Pushed(a, kind) + Pushed(b, kind)
    ensures ReportsPushed(a + b, id) == ReportsPushed(a, id) + ReportsPushed(b, id)
    ensures OrdersPushed(a + b) == OrdersPushed(a) + OrdersPushed(b)
  {
    hide QueuedReport, QueuedOrder;
    Assoc(ReportsPushed(b, id), [], []);
    Assoc(OrdersPushed(b), [], []);
    if a == [] {
      assert a + b == b;
    } else {
      assert (a + b)[1..] == a[1..] + b;
      PushedAppend(a[1..], b, kind, id);
      Assoc(QueuedReport(a[0].kind, id), ReportsPushed(a[1..], id), ReportsPushed(b, id));
      Assoc(QueuedOrder(a[0].kind), OrdersPushed(a[1..]), OrdersPushed(b));
    }
  }
}
