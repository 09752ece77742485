// The global event queue: events leave in (time, push order).
module EventQueues {
  import opened Types

  datatype EventKind =
    | EvTick(tick: Tick)
    | EvDelivery(tick: Tick)
    | EvL2(l2: L2Update)
    | EvL3(l3: L3Update)
    | EvOrder(order: Order)
    | EvAck(id: int)
    | EvCancel(id: int)
    | EvCancelAck(id: int)
    | EvReport(report: OrderReport)
    | EvFunding(funding: FundingEvent)
    | EvTimer(timerId: int)

  datatype Event = Event(ts: int, seqNo: int, kind: EventKind)

  // A request to schedule an event; the queue numbers it.
  datatype Push = Push(ts: int, kind: EventKind)

  type Queue = seq<Event>

  predicate Before(a: Event, b: Event) {
    a.ts < b.ts || (a.ts == b.ts && a.seqNo < b.seqNo)
  }

  function Insert(q: Queue, e: Event): Queue {
    if q == [] then [e]
    else if Before(e, q[0]) then [e] + q
    else [q[0]] + Insert(q[1..], e)
  }

  function PushAll(q: Queue, next: int, ps: seq<Push>): Queue
    decreases ps
  {
    if ps == [] then q else PushAll(Insert(q, Event(ps[0].ts, next, ps[0].kind)), next + 1, ps[1..])
  }

  ghost predicate Sorted(q: Queue) {
    forall i, j :: 0 <= i < j < |q| ==> Before(q[i], q[j])
  }

  // Sorted, numbered below the counter, and nothing scheduled before the given time.
  ghost predicate QueueOk(q: Queue, next: int, now: int) {
    && Sorted(q)
    && forall i :: 0 <= i < |q| ==> q[i].seqNo < next && now <= q[i].ts
  }

  ghost predicate AllFrom(ps: seq<Push>, now: int) {
    forall i :: 0 <= i < |ps| ==> now <= ps[i].ts
  }

  lemma {:induction false} InsertMembers(q: Queue, e: Event)
    ensures |Insert(q, e)| == |q| + 1
    ensures forall x :: x in Insert(q, e) <==> x == e || x in q
    ensures multiset(Insert(q, e)) == multiset(q) + multiset{e}
  {
    if q != [] && !Before(e, q[0]) {
      InsertMembers(q[1..], e);
      assert q == [q[0]] + q[1..];
    }
  }

  lemma {:induction false} InsertSorted(q: Queue, e: Event)
    requires Sorted(q) && forall i :: 0 <= i < |q| ==> q[i].seqNo < e.seqNo
    ensures Sorted(Insert(q, e))
  {
    if q != [] {
      if Before(e, q[0]) {
        forall j | 0 < j < |q| ensures Before(e, q[j]) {
          assert Before(q[0], q[j]);
        }
      } else {
        InsertSorted(q[1..], e);
        InsertMembers(q[1..], e);
        var rest := Insert(q[1..], e);
        forall j | 0 <= j < |rest| ensures Before(q[0], rest[j]) {
          assert rest[j] in rest;
        }
      }
    }
  }

  lemma {:induction false} InsertOk(q: Queue, next: int, now: int, p: Push)
    requires QueueOk(q, next, now) && now <= p.ts
    ensures QueueOk(Insert(q, Event(p.ts, next, p.kind)), next + 1, now)
  {
    var e := Event(p.ts, next, p.kind);
    InsertSorted(q, e);
    InsertMembers(q, e);
    var q' := Insert(q, e);
    forall i | 0 <= i < |q'| ensures q'[i].seqNo < next + 1 && now <= q'[i].ts {
      assert q'[i] in q';
    }
  }

  lemma {:induction false} PushAllOk(q: Queue, next: int, now: int, ps: seq<Push>)
    requires QueueOk(q, next, now) && AllFrom(ps, now)
    ensures QueueOk(PushAll(q, next, ps), next + |ps|, now)
    decreases ps
  {
    hide QueueOk, Insert;
    if ps != [] {
      InsertOk(q, next, now, ps[0]);
      PushAllOk(Insert(q, Event(ps[0].ts, next, ps[0].kind)), next + 1, now, ps[1..]);
    }
  }

  // What stands in the queue after some pushes: what stood there, and one event per push.
  lemma {:induction false} PushAllMembers(q: Queue, next: int, ps: seq<Push>, x: Event)
    ensures |PushAll(q, next, ps)| == |q| + |ps|
    ensures x in PushAll(q, next, ps) <==>
              x in q || exists i :: 0 <= i < |ps| && x == Event(ps[i].ts, next + i, ps[i].kind)
    decreases ps
  {
    hide Insert;
    if ps != [] {
      var e := Event(ps[0].ts, next, ps[0].kind);
      InsertMembers(q, e);
      PushAllMembers(Insert(q, e), next + 1, ps[1..], x);
      if x == e {
        assert x == Event(ps[0].ts, next + 0, ps[0].kind);
      }
      if i :| 0 <= i < |ps[1..]| && x == Event(ps[1..][i].ts, next + 1 + i, ps[1..][i].kind) {
        assert x == Event(ps[i + 1].ts, next + (i + 1), ps[i + 1].kind);
      }
      if i :| 0 < i < |ps| && x == Event(ps[i].ts, next + i, ps[i].kind) {
        assert x == Event(ps[1..][i - 1].ts, next + 1 + (i - 1), ps[1..][i - 1].kind);
      }
    }
  }

  // A property of every queued event and of every push holds of every event afterwards.
  lemma {:induction false} PushAllEach(q: Queue, next: int, ps: seq<Push>, P: (int, EventKind) -> bool)
    requires forall x :: x in q ==> P(x.ts, x.kind)
    requires forall p :: p in ps ==> P(p.ts, p.kind)
    ensures forall x :: x in PushAll(q, next, ps) ==> P(x.ts, x.kind)
    decreases ps
  {
    hide Insert;
    if ps != [] {
      var e := Event(ps[0].ts, next, ps[0].kind);
      assert ps[0] in ps;
      InsertMembers(q, e);
      forall x | x in Insert(q, e) ensures P(x.ts, x.kind) {
        assert x == e || x in q;
      }
      PushAllEach(Insert(q, e), next + 1, ps[1..], P);
    }
  }

  lemma {:induction false} PushOne(q: Queue, next: int, p: Push)
    ensures PushAll(q, next, [p]) == Insert(q, Event(p.ts, next, p.kind))
  {
    assert [p][1..] == [];
  }

  lemma {:induction false} PushAllAppend(q: Queue, next: int, a: seq<Push>, b: seq<Push>)
    ensures PushAll(q, next, a + b) == PushAll(PushAll(q, next, a), next + |a|, b)
    decreases a
  {
    hide Insert;
    if a == [] {
      assert a + b == b;
    } else {
      assert (a + b)[1..] == a[1..] + b;
      PushAllAppend(Insert(q, Event(a[0].ts, next, a[0].kind)), next + 1, a[1..], b);
    }
  }

  // Popping the head leaves a good queue whose clock may move up to the head.
  lemma {:induction false} PopOk(q: Queue, next: int, now: int)
    requires QueueOk(q, next, now) && q != []
    ensures QueueOk(q[1..], next, q[0].ts) && now <= q[0].ts
  {
    forall i | 0 <= i < |q[1..]| ensures q[0].ts <= q[1..][i].ts {
      assert Before(q[0], q[i + 1]);
    }
  }

  // A later push never overtakes the head, so popping and pushing commute.
  lemma {:induction false} PopCommutes(q: Queue, e: Event)
    requires q != [] && Before(q[0], e)
    ensures Insert(q, e) != [] && Insert(q, e)[0] == q[0] && Insert(q, e)[1..] == Insert(q[1..], e)
  {
  }

  lemma {:induction false} PopCommutesAll(q: Queue, next: int, ps: seq<Push>)
    requires q != [] && q[0].seqNo < next && AllFrom(ps, q[0].ts)
    ensures PushAll(q, next, ps) != [] && PushAll(q, next, ps)[0] == q[0]
    ensures PushAll(q, next, ps)[1..] == PushAll(q[1..], next, ps)
    decreases ps
  {
    hide Insert;
    if ps != [] {
      var e := Event(ps[0].ts, next, ps[0].kind);
      PopCommutes(q, e);
      PopCommutesAll(Insert(q, e), next + 1, ps[1..]);
    }
  }

  // No event stands behind a later one.
  ghost predicate InOrder(q: Queue) {
    forall i, j :: 0 <= i < j < |q| ==> !Before(q[j], q[i])
  }

  type OrderedQueue = q: Queue | InOrder(q) witness []

  lemma {:induction false} InsertInOrder(q: Queue, e: Event)
    requires InOrder(q)
    ensures InOrder(Insert(q, e))
  {
    if q != [] && !Before(e, q[0]) {
      InsertInOrder(q[1..], e);
      InsertMembers(q[1..], e);
      var rest := Insert(q[1..], e);
      forall j | 0 <= j < |rest| ensures !Before(rest[j], q[0]) {
        assert rest[j] in rest;
      }
    }
  }

  // The queue as the engine owns it. The heap's layout is abstracted to the order it delivers.
  class EventQueue {
    var heap: OrderedQueue

    constructor ()
      ensures heap == []
    {
      heap := [];
    }

    // The queue stays in order and holds exactly one event more.
    method Push(e: Event)
      modifies this
      ensures heap == Insert(old(heap), e)
      ensures InOrder(heap) && multiset(heap) == multiset(old(heap)) + multiset{e}
    {
      InsertInOrder(heap, e);
      InsertMembers(heap, e);
      heap := Insert(heap, e);
    }

    // An earliest event leaves, if there is any, and nothing else changes.
    method Pop() returns (e: Option<Event>)
      modifies this
      ensures e.None? <==> old(heap) == []
      ensures e.None? ==> heap == []
      ensures e.Some? ==>
                && e.value in old(heap) && forall x :: x in old(heap) ==> !Before(x, e.value)
      ensures e.Some? ==>
                && old(heap) == [e.value] + heap && InOrder(heap)
                && multiset(heap) == multiset(old(heap)) - multiset{e.value}
    {
      if heap == [] {
        return None;
      }
      e := Some(heap[0]);
      assert heap == [heap[0]] + heap[1..];
      heap := heap[1..];
    }
  }
}
