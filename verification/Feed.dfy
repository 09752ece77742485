// Lazy ingestion: tick and L3 sources are merged into the event queue only as far as the head of
// the queue requires, and the proof that this delivers what eager scheduling would.
module Feeds {
  import opened Types
  import opened EventQueues

  datatype Feed = Feed(queue: Queue, nextSeq: int, sources: seq<seq<Tick>>, l3Sources: seq<seq<L3Update>>)

  type Stamp = (int, int)

  predicate Less(a: Stamp, b: Stamp) {
    a.0 < b.0 || (a.0 == b.0 && a.1 < b.1)
  }

  function TickStamp(t: Tick): Stamp {
    (t.tsExchange, t.seqNo)
  }

  function L3Stamp(u: L3Update): Stamp {
    (u.tsExchange, u.seqNo)
  }

  function TickHeads(sources: seq<seq<Tick>>): seq<Option<Stamp>> {
    seq(|sources|, i requires 0 <= i < |sources| =>
      if sources[i] == [] then None else Some(TickStamp(sources[i][0])))
  }

  function L3Heads(sources: seq<seq<L3Update>>): seq<Option<Stamp>> {
    seq(|sources|, i requires 0 <= i < |sources| =>
      if sources[i] == [] then None else Some(L3Stamp(sources[i][0])))
  }

  // The source whose head is earliest by (time, sequence, source index).
  function Earliest(heads: seq<Option<Stamp>>): (best: Option<nat>)
    ensures best.None? <==> forall i :: 0 <= i < |heads| ==> heads[i].None?
    ensures best.Some? ==>
              && best.value < |heads| && heads[best.value].Some?
              && (forall i :: 0 <= i < |heads| && heads[i].Some? ==> !Less(heads[i].value, heads[best.value].value))
              && (forall i :: 0 <= i < best.value && heads[i].Some? ==> Less(heads[best.value].value, heads[i].value))
  {
    if heads == [] then None
    else
      var n := |heads| - 1;
      var before := Earliest(heads[..n]);
      if heads[n].None? then before
      else if before.None? || Less(heads[n].value, heads[before.value].value) then Some(n)
      else before
  }

  // When a tick reaches the strategy: its own local time, or exchange time plus the feed latency.
  function DeliveryTime(latency: int, t: Tick): int {
    if t.tsLocal == 0 then t.tsExchange + latency else t.tsLocal
  }

  // What one ingested item schedules.
  function TickPushes(latency: int, t: Tick): seq<Push> {
    var ts := DeliveryTime(latency, t);
    [Push(t.tsExchange, EvTick(t)), Push(ts, EvDelivery(t.(tsLocal := ts)))]
  }

  function L3Pushes(u: L3Update): seq<Push> {
    [Push(u.tsExchange, EvL3(u))]
  }

  function Take<T>(sources: seq<seq<T>>, i: nat): seq<seq<T>>
    requires i < |sources| && sources[i] != []
  {
    sources[i := sources[i][1..]]
  }

  datatype Choice = FromL3(i: nat) | FromTicks(j: nat) | Neither

  // The next item in merge order: L3 first on equal stamps.
  function NextItem(f: Feed): (c: Choice)
    ensures c.FromL3? ==> c.i < |f.l3Sources| && f.l3Sources[c.i] != []
    ensures c.FromTicks? ==> c.j < |f.sources| && f.sources[c.j] != []
  {
    var l3, tick := Earliest(L3Heads(f.l3Sources)), Earliest(TickHeads(f.sources));
    if l3.Some? &&
       (tick.None? || !Less(TickStamp(f.sources[tick.value][0]), L3Stamp(f.l3Sources[l3.value][0])))
    then FromL3(l3.value)
    else if tick.Some? then FromTicks(tick.value)
    else Neither
  }

  function ItemTime(f: Feed): int
    requires !NextItem(f).Neither?
  {
    match NextItem(f)
    case FromL3(i) => f.l3Sources[i][0].tsExchange
    case FromTicks(j) => f.sources[j][0].tsExchange
  }

  function ItemPushes(latency: int, f: Feed): seq<Push>
    requires !NextItem(f).Neither?
  {
    match NextItem(f)
    case FromL3(i) => L3Pushes(f.l3Sources[i][0])
    case FromTicks(j) => TickPushes(latency, f.sources[j][0])
  }

  // The sources without their next item.
  function DropItem(f: Feed): Feed
    requires !NextItem(f).Neither?
  {
    match NextItem(f)
    case FromL3(i) => f.(l3Sources := Take(f.l3Sources, i))
    case FromTicks(j) => f.(sources := Take(f.sources, j))
  }

  predicate Due(f: Feed, ts: int) {
    f.queue == [] || ts <= f.queue[0].ts
  }

  // Is some source item no later than the head of the queue?
  predicate CanIngest(f: Feed) {
    !NextItem(f).Neither? && Due(f, ItemTime(f))
  }

  function IngestOne(latency: int, f: Feed): Feed
    requires CanIngest(f)
  {
    var ps := ItemPushes(latency, f);
    DropItem(f).(queue := PushAll(f.queue, f.nextSeq, ps), nextSeq := f.nextSeq + |ps|)
  }

  function Count<T>(sources: seq<seq<T>>): nat {
    if sources == [] then 0 else Count(sources[..|sources| - 1]) + |sources[|sources| - 1]|
  }

  lemma {:induction false} TakeCount<T>(sources: seq<seq<T>>, i: nat)
    requires i < |sources| && sources[i] != []
    ensures Count(Take(sources, i)) == Count(sources) - 1
  {
    var n := |sources| - 1;
    if i < n {
      TakeCount(sources[..n], i);
      assert Take(sources, i)[..n] == Take(sources[..n], i);
    } else {
      assert Take(sources, i)[..n] == sources[..n];
    }
  }

  function Remaining(f: Feed): nat {
    Count(f.sources) + Count(f.l3Sources)
  }

  lemma {:induction false} DropShrinks(f: Feed)
    requires !NextItem(f).Neither?
    ensures Remaining(DropItem(f)) == Remaining(f) - 1
  {
    match NextItem(f) {
      case FromL3(i) => TakeCount(f.l3Sources, i);
      case FromTicks(j) => TakeCount(f.sources, j);
    }
  }

  function Ingest(latency: int, f: Feed): Feed
    decreases Remaining(f)
  {
    if CanIngest(f) then
      DropShrinks(f);
      Ingest(latency, IngestOne(latency, f))
    else f
  }

  // ---- Sorted sources ------------------------------------------------------------------------

  ghost predicate TicksSorted(s: seq<Tick>) {
    forall i, j :: 0 <= i < j < |s| ==> !Less(TickStamp(s[j]), TickStamp(s[i]))
  }

  ghost predicate L3Sorted(s: seq<L3Update>) {
    forall i, j :: 0 <= i < j < |s| ==> !Less(L3Stamp(s[j]), L3Stamp(s[i]))
  }

  // Every source is sorted, lies at or after the given time, and never delivers into the past.
  ghost predicate SourcesOk(f: Feed, now: int) {
    && (forall i :: 0 <= i < |f.sources| ==> TicksSorted(f.sources[i]))
    && (forall i :: 0 <= i < |f.l3Sources| ==> L3Sorted(f.l3Sources[i]))
    && (forall i, k :: 0 <= i < |f.sources| && 0 <= k < |f.sources[i]| ==>
          var t := f.sources[i][k]; now <= t.tsExchange && (t.tsLocal == 0 || t.tsExchange <= t.tsLocal))
    && (forall i, k :: 0 <= i < |f.l3Sources| && 0 <= k < |f.l3Sources[i]| ==> now <= f.l3Sources[i][k].tsExchange)
  }

  ghost predicate FeedOk(f: Feed, now: int) {
    QueueOk(f.queue, f.nextSeq, now) && SourcesOk(f, now)
  }

  // The next item is the earliest of all the items still in the sources.
  lemma {:induction false} NextIsEarliest(f: Feed, now: int)
    requires SourcesOk(f, now) && !NextItem(f).Neither?
    ensures SourcesOk(f, ItemTime(f)) && now <= ItemTime(f)
  {
    var l3h, th := L3Heads(f.l3Sources), TickHeads(f.sources);
    var l3, tick := Earliest(l3h), Earliest(th);
    var ts := ItemTime(f);
    forall i, k | 0 <= i < |f.sources| && 0 <= k < |f.sources[i]| ensures ts <= f.sources[i][k].tsExchange {
      assert th[i] == Some(TickStamp(f.sources[i][0]));
      assert k > 0 ==> !Less(TickStamp(f.sources[i][k]), TickStamp(f.sources[i][0]));
    }
    forall i, k | 0 <= i < |f.l3Sources| && 0 <= k < |f.l3Sources[i]| ensures ts <= f.l3Sources[i][k].tsExchange {
      assert l3h[i] == Some(L3Stamp(f.l3Sources[i][0]));
      assert k > 0 ==> !Less(L3Stamp(f.l3Sources[i][k]), L3Stamp(f.l3Sources[i][0]));
    }
  }

  lemma {:induction false} DropKeepsSources(f: Feed, now: int)
    requires SourcesOk(f, now) && !NextItem(f).Neither?
    ensures SourcesOk(DropItem(f), now)
  {
    match NextItem(f) {
      case FromL3(i) =>
        forall k | 0 <= k < |f.l3Sources[i][1..]| ensures f.l3Sources[i][1..][k] == f.l3Sources[i][k + 1] {}
      case FromTicks(j) =>
        forall k | 0 <= k < |f.sources[j][1..]| ensures f.sources[j][1..][k] == f.sources[j][k + 1] {}
    }
  }

  lemma {:induction false} ItemPushesFrom(latency: int, f: Feed, now: int)
    requires SourcesOk(f, now) && !NextItem(f).Neither? && latency >= 0
    ensures AllFrom(ItemPushes(latency, f), ItemTime(f))
  {
  }

  lemma {:induction false} AllFromEarlier(ps: seq<Push>, now: int, ts: int)
    requires AllFrom(ps, ts) && now <= ts
    ensures AllFrom(ps, now)
  {
  }

  lemma {:induction false} ItemPushesNonEmpty(latency: int, f: Feed)
    requires !NextItem(f).Neither?
    ensures ItemPushes(latency, f) != []
  {
  }

  lemma {:induction false} SourcesIgnoreQueue(f: Feed, g: Feed, now: int)
    requires SourcesOk(f, now) && f.sources == g.sources && f.l3Sources == g.l3Sources
    ensures SourcesOk(g, now)
  {
  }

  lemma {:induction false} IngestOneOk(latency: int, f: Feed, now: int)
    requires FeedOk(f, now) && CanIngest(f) && latency >= 0
    ensures FeedOk(IngestOne(latency, f), now) && IngestOne(latency, f).queue != []
  {
    hide QueueOk, SourcesOk, ItemPushes, NextItem, PushAll;
    var ps := ItemPushes(latency, f);
    NextIsEarliest(f, now);
    ItemPushesFrom(latency, f, now);
    AllFromEarlier(ps, now, ItemTime(f));
    PushAllOk(f.queue, f.nextSeq, now, ps);
    DropKeepsSources(f, now);
    SourcesIgnoreQueue(DropItem(f), IngestOne(latency, f), now);
    ItemPushesNonEmpty(latency, f);
    PushAllMembers(f.queue, f.nextSeq, ps, Event(0, 0, EvAck(0)));
  }

  lemma {:induction false} IngestOneRemaining(latency: int, f: Feed)
    requires CanIngest(f)
    ensures Remaining(IngestOne(latency, f)) == Remaining(f) - 1
  {
    DropShrinks(f);
  }

  lemma {:induction false} SourcesLater(f: Feed, from: int, to: int)
    requires SourcesOk(f, from) && to <= from
    ensures SourcesOk(f, to)
  {
  }

  lemma {:induction false} EmptyCount<T>(sources: seq<seq<T>>)
    requires forall i :: 0 <= i < |sources| ==> sources[i] == []
    ensures Count(sources) == 0
  {
    if sources != [] {
      EmptyCount(sources[..|sources| - 1]);
    }
  }

  lemma {:induction false} NothingLeft(f: Feed, now: int)
    requires NextItem(f).Neither? && SourcesOk(f, now)
    ensures Remaining(f) == 0
    ensures forall ts :: SourcesOk(f, ts)
  {
    var l3h, th := L3Heads(f.l3Sources), TickHeads(f.sources);
    forall i | 0 <= i < |f.sources| ensures f.sources[i] == [] {
      assert th[i].None?;
    }
    forall i | 0 <= i < |f.l3Sources| ensures f.l3Sources[i] == [] {
      assert l3h[i].None?;
    }
    EmptyCount(f.sources);
    EmptyCount(f.l3Sources);
  }

  // After ingestion every item left in a source is strictly later than the head of the queue.
  lemma {:induction false} IngestOk(latency: int, f: Feed, now: int)
    requires FeedOk(f, now) && latency >= 0
    ensures
      var g := Ingest(latency, f);
      && FeedOk(g, now)
      && (g.queue == [] ==> Remaining(g) == 0)
      && (g.queue != [] ==> SourcesOk(g, g.queue[0].ts + 1))
    decreases Remaining(f)
  {
    hide QueueOk, IngestOne, SourcesOk;
    if CanIngest(f) {
      DropShrinks(f);
      assert Remaining(IngestOne(latency, f)) == Remaining(f) - 1 by {
        IngestOneRemaining(latency, f);
      }
      IngestOneOk(latency, f, now);
      IngestOk(latency, IngestOne(latency, f), now);
    } else if NextItem(f).Neither? {
      NothingLeft(f, now);
    } else {
      NextIsEarliest(f, now);
      SourcesLater(f, ItemTime(f), f.queue[0].ts + 1);
    }
  }

  // ---- What is ingested, and when ------------------------------------------------------------

  // The item taken next is the first of all source heads by time, then by sequence number; an order
  // message goes before a tick that ties with it, and a source before any later one.
  lemma {:induction false} NextItemIsFirst(f: Feed)
    ensures
      match NextItem(f)
      case FromL3(i) =>
        var u := f.l3Sources[i][0];
        && (forall j :: 0 <= j < |f.sources| && f.sources[j] != [] ==>
              var t := f.sources[j][0];
              u.tsExchange < t.tsExchange || (u.tsExchange == t.tsExchange && u.seqNo <= t.seqNo))
        && (forall j :: 0 <= j < |f.l3Sources| && f.l3Sources[j] != [] ==>
              var v := f.l3Sources[j][0];
              u.tsExchange < v.tsExchange
              || (u.tsExchange == v.tsExchange && (u.seqNo < v.seqNo || (u.seqNo == v.seqNo && i <= j))))
      case FromTicks(i) =>
        var t := f.sources[i][0];
        && (forall j :: 0 <= j < |f.l3Sources| && f.l3Sources[j] != [] ==>
              var u := f.l3Sources[j][0];
              t.tsExchange < u.tsExchange || (t.tsExchange == u.tsExchange && t.seqNo < u.seqNo))
        && (forall j :: 0 <= j < |f.sources| && f.sources[j] != [] ==>
              var v := f.sources[j][0];
              t.tsExchange < v.tsExchange
              || (t.tsExchange == v.tsExchange && (t.seqNo < v.seqNo || (t.seqNo == v.seqNo && i <= j))))
      case Neither =>
        && (forall j :: 0 <= j < |f.sources| ==> f.sources[j] == [])
        && (forall j :: 0 <= j < |f.l3Sources| ==> f.l3Sources[j] == [])
  {
    var l3h, th := L3Heads(f.l3Sources), TickHeads(f.sources);
    var l3, tick := Earliest(l3h), Earliest(th);
    forall j | 0 <= j < |f.sources|
      ensures th[j] == if f.sources[j] == [] then None else Some(TickStamp(f.sources[j][0])) {}
    forall j | 0 <= j < |f.l3Sources|
      ensures l3h[j] == if f.l3Sources[j] == [] then None else Some(L3Stamp(f.l3Sources[j][0])) {}
  }

  // The event that stands for an item itself, rather than for its delivery.
  predicate Happens(kind: EventKind) {
    kind.EvTick? || kind.EvL3?
  }

  lemma {:induction false} IngestOneDue(latency: int, f: Feed, now: int)
    requires FeedOk(f, now) && CanIngest(f) && latency >= 0
    ensures FeedOk(IngestOne(latency, f), ItemTime(f))
    ensures forall x :: x in IngestOne(latency, f).queue && Happens(x.kind) ==> x in f.queue || x.ts == ItemTime(f)
  {
    var g, ps, ts := IngestOne(latency, f), ItemPushes(latency, f), ItemTime(f);
    NextIsEarliest(f, now);
    ItemPushesFrom(latency, f, now);
    assert forall p :: p in ps && Happens(p.kind) ==> p.ts == ts;
    hide SourcesOk, ItemPushes, NextItem, PushAll, ItemTime;
    assert QueueOk(f.queue, f.nextSeq, ts) by {
      forall i | 0 <= i < |f.queue| ensures ts <= f.queue[i].ts {
        assert i > 0 ==> Before(f.queue[0], f.queue[i]);
      }
    }
    PushAllOk(f.queue, f.nextSeq, ts, ps);
    DropKeepsSources(f, ts);
    SourcesIgnoreQueue(DropItem(f), g, ts);
    forall x | x in g.queue && Happens(x.kind) ensures x in f.queue || x.ts == ts {
      PushAllMembers(f.queue, f.nextSeq, ps, x);
      if i :| 0 <= i < |ps| && x == Event(ps[i].ts, f.nextSeq + i, ps[i].kind) {
        assert ps[i] in ps;
      }
    }
  }

  lemma {:induction false} HeadIsFirst(q: Queue, next: int, now: int, x: Event)
    requires QueueOk(q, next, now) && x in q
    ensures q != [] && now <= q[0].ts <= x.ts
  {
    var i :| 0 <= i < |q| && q[i] == x;
    assert i > 0 ==> Before(q[0], q[i]);
  }

  lemma {:induction false} IngestKeepsQueued(latency: int, f: Feed, x: Event)
    requires x in f.queue
    ensures x in Ingest(latency, f).queue
    decreases Remaining(f)
  {
    hide PushAll, ItemPushes, NextItem;
    if CanIngest(f) {
      IngestOneRemaining(latency, f);
      PushAllMembers(f.queue, f.nextSeq, ItemPushes(latency, f), x);
      IngestKeepsQueued(latency, IngestOne(latency, f), x);
    }
  }

  // Nothing is ingested before it is needed: whatever ingestion has queued happens at the very instant of
  // the next event. (`IngestOk` is the other half: whatever it has left happens strictly later.)
  lemma {:induction false} IngestedIsDue(latency: int, f: Feed, now: int, x: Event)
    requires FeedOk(f, now) && latency >= 0
    requires x in Ingest(latency, f).queue && x !in f.queue && Happens(x.kind)
    ensures x.ts == Ingest(latency, f).queue[0].ts
    decreases Remaining(f)
  {
    hide QueueOk, SourcesOk, IngestOne, Happens;
    if CanIngest(f) {
      var g := IngestOne(latency, f);
      IngestOneRemaining(latency, f);
      IngestOneDue(latency, f, now);
      if x in g.queue {
        IngestOk(latency, g, ItemTime(f));
        var h := Ingest(latency, g);
        HeadIsFirst(h.queue, h.nextSeq, ItemTime(f), x);
      } else {
        IngestedIsDue(latency, g, ItemTime(f), x);
      }
    }
  }

  // ---- Lazy ingestion against eager scheduling ----------------------------------------------

  // Every push that the sources stand for, in merge order.
  function AllPushes(latency: int, f: Feed): seq<Push>
    decreases Remaining(f)
  {
    if NextItem(f).Neither? then []
    else
      DropShrinks(f);
      ItemPushes(latency, f) + AllPushes(latency, DropItem(f))
  }

  // The queue that results from scheduling every source item up front.
  function Eager(latency: int, f: Feed): Queue {
    PushAll(f.queue, f.nextSeq, AllPushes(latency, f))
  }

  lemma {:induction false} SameSourcesSamePushes(latency: int, f: Feed, g: Feed)
    requires f.sources == g.sources && f.l3Sources == g.l3Sources
    ensures AllPushes(latency, f) == AllPushes(latency, g)
    decreases Remaining(f)
  {
    if !NextItem(f).Neither? {
      DropShrinks(f);
      SameSourcesSamePushes(latency, DropItem(f), DropItem(g));
    }
  }

  // Ingesting an item does not change the fully scheduled queue.
  lemma {:induction false} IngestOneKeepsEager(latency: int, f: Feed)
    requires CanIngest(f)
    ensures Eager(latency, IngestOne(latency, f)) == Eager(latency, f)
  {
    hide PushAll, ItemPushes, NextItem;
    var ps := ItemPushes(latency, f);
    var g := DropItem(f);
    DropShrinks(f);
    SameSourcesSamePushes(latency, g, IngestOne(latency, f));
    PushAllAppend(f.queue, f.nextSeq, ps, AllPushes(latency, g));
  }

  lemma {:induction false} IngestKeepsEager(latency: int, f: Feed)
    ensures Eager(latency, Ingest(latency, f)) == Eager(latency, f)
    decreases Remaining(f)
  {
    hide Eager, IngestOne;
    if CanIngest(f) {
      IngestOneRemaining(latency, f);
      IngestOneKeepsEager(latency, f);
      IngestKeepsEager(latency, IngestOne(latency, f));
    }
  }

  lemma {:induction false} AllPushesFrom(latency: int, f: Feed, now: int)
    requires SourcesOk(f, now) && latency >= 0
    ensures AllFrom(AllPushes(latency, f), now)
    decreases Remaining(f)
  {
    hide ItemPushes, SourcesOk, NextItem, ItemTime;
    if !NextItem(f).Neither? {
      DropShrinks(f);
      NextIsEarliest(f, now);
      ItemPushesFrom(latency, f, now);
      DropKeepsSources(f, now);
      AllPushesFrom(latency, DropItem(f), now);
    }
  }

  // Pop after lazy ingestion: the event that leaves, and the feed that stays.
  function PopFeed(latency: int, f: Feed): Option<(Event, Feed)> {
    var g := Ingest(latency, f);
    if g.queue == [] then None else Some((g.queue[0], g.(queue := g.queue[1..])))
  }

  lemma {:induction false} HeadNumbered(q: Queue, next: int, now: int)
    requires QueueOk(q, next, now) && q != []
    ensures q[0].seqNo < next
  {
  }

  lemma {:induction false} NoItemsNoPushes(latency: int, f: Feed)
    requires Remaining(f) == 0
    ensures AllPushes(latency, f) == []
  {
    if !NextItem(f).Neither? {
      DropShrinks(f);
    }
  }

  // One lazy pop takes exactly the head of the fully scheduled queue and leaves its tail.
  lemma {:induction false} PopIsEagerHead(latency: int, f: Feed, now: int)
    requires FeedOk(f, now) && latency >= 0
    ensures PopFeed(latency, f).None? <==> Eager(latency, f) == []
    ensures
      PopFeed(latency, f).Some? ==>
        var (e, rest) := PopFeed(latency, f).value;
        && Eager(latency, f)[0] == e
        && Eager(latency, f)[1..] == Eager(latency, rest)
        && FeedOk(rest, e.ts) && now <= e.ts
  {
    hide PushAll, Ingest, NextItem, QueueOk, SourcesOk, AllPushes;
    var g := Ingest(latency, f);
    IngestOk(latency, f, now);
    IngestKeepsEager(latency, f);
    if g.queue == [] {
      NoItemsNoPushes(latency, g);
      PushAllMembers([], g.nextSeq, [], Event(0, 0, EvAck(0)));
    } else {
      var rest := g.(queue := g.queue[1..]);
      AllPushesFrom(latency, g, g.queue[0].ts + 1);
      AllFromEarlier(AllPushes(latency, g), g.queue[0].ts, g.queue[0].ts + 1);
      HeadNumbered(g.queue, g.nextSeq, now);
      PopCommutesAll(g.queue, g.nextSeq, AllPushes(latency, g));
      SameSourcesSamePushes(latency, g, rest);
      PopOk(g.queue, g.nextSeq, now);
      SourcesLater(g, g.queue[0].ts + 1, g.queue[0].ts);
      SourcesIgnoreQueue(g, rest, g.queue[0].ts);
    }
  }

  // The events popped lazily until nothing is left.
  function LazyPops(latency: int, f: Feed, n: nat): seq<Event>
    decreases n
  {
    if n == 0 then []
    else
      match PopFeed(latency, f)
      case None => []
      case Some((e, rest)) => [e] + LazyPops(latency, rest, n - 1)
  }

  lemma {:induction false} EagerSorted(latency: int, f: Feed, now: int)
    requires FeedOk(f, now) && latency >= 0
    ensures Sorted(Eager(latency, f))
  {
    hide PushAll, SourcesOk, AllPushes;
    AllPushesFrom(latency, f, now);
    PushAllOk(f.queue, f.nextSeq, now, AllPushes(latency, f));
  }

  function FirstN(q: Queue, n: nat): Queue {
    if n <= |q| then q[..n] else q
  }

  lemma {:induction false} FirstNCons(q: Queue, n: nat)
    requires q != [] && n > 0
    ensures FirstN(q, n) == [q[0]] + FirstN(q[1..], n - 1)
  {
  }

  lemma {:induction false} FirstNTrivial(q: Queue, n: nat)
    requires n == 0 || q == []
    ensures FirstN(q, n) == []
  {
  }

  // Lazy ingestion refines eager scheduling: the first n pops are the first n events of the queue
  // in which every source item, in merge order, was scheduled before the run began.
  lemma {:induction false} LazyIsEager(latency: int, f: Feed, now: int, n: nat)
    requires FeedOk(f, now) && latency >= 0
    ensures LazyPops(latency, f, n) == FirstN(Eager(latency, f), n)
    ensures Sorted(Eager(latency, f))
    decreases n
  {
    hide Eager, PopFeed, FeedOk, Sorted, FirstN;
    EagerSorted(latency, f, now);
    PopIsEagerHead(latency, f, now);
    if n == 0 || PopFeed(latency, f).None? {
      FirstNTrivial(Eager(latency, f), n);
    } else {
      var (e, rest) := PopFeed(latency, f).value;
      LazyIsEager(latency, rest, e.ts, n - 1);
      FirstNCons(Eager(latency, f), n);
    }
  }
}
