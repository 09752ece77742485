// Per-order book: a FIFO queue of (venue order id, quantity) per price and side, and the proof
// that summing its levels gives the price-level book.
module BookL3 {
  import opened Types
  import opened BookL2

  type Level = seq<(int, int)>
  type Queues = map<int, Level>

  datatype L3 = L3(bids: Queues, asks: Queues)

  const EMPTY_L3 := L3(map[], map[])

  // Drop every entry of one order.
  function Without(level: Level, id: int): Level {
    if level == [] then []
    else if level[0].0 == id then Without(level[1..], id)
    else [level[0]] + Without(level[1..], id)
  }

  // Change the quantity of the first entry of one order.
  function Resize(level: Level, id: int, qty: int): Level {
    if level == [] then []
    else if level[0].0 == id then [(id, qty)] + level[1..]
    else [level[0]] + Resize(level[1..], id, qty)
  }

  function Total(level: Level): int {
    if level == [] then 0 else level[0].1 + Total(level[1..])
  }

  // The entries queued before the first entry of an order; all of them if it has none.
  function Ahead(level: Level, id: int): Level {
    if level == [] || level[0].0 == id then [] else [level[0]] + Ahead(level[1..], id)
  }

  predicate Accepted(u: L3Update) {
    && u.side != NoSide
    && match u.action
       case Add => u.qty > 0
       case Modify => u.qty >= 0
       case Delete => true
       case Unknown => false
  }

  function LevelAt(queues: Queues, price: int): Level {
    if price in queues then queues[price] else []
  }

  function LevelAfter(level: Level, u: L3Update): Level {
    match u.action
    case Add => level + [(u.orderId, u.qty)]
    case Modify => if u.qty == 0 then Without(level, u.orderId) else Resize(level, u.orderId, u.qty)
    case Delete => Without(level, u.orderId)
    case Unknown => level
  }

  // An emptied level is removed.
  function SetQueue(queues: Queues, price: int, level: Level): Queues {
    if level == [] then queues - {price} else queues[price := level]
  }

  function ApplyL3(b: L3, u: L3Update): L3
    requires Accepted(u)
  {
    if u.side == Buy then
      b.(bids := SetQueue(b.bids, u.price, LevelAfter(LevelAt(b.bids, u.price), u)))
    else
      b.(asks := SetQueue(b.asks, u.price, LevelAfter(LevelAt(b.asks, u.price), u)))
  }

  function SideLevel(b: L3, side: Side, price: int): Level {
    match side
    case Buy => LevelAt(b.bids, price)
    case Sell => LevelAt(b.asks, price)
    case NoSide => []
  }

  function BestBid(b: L3): Option<(int, int)> {
    if b.bids == map[] then None
    else
      assert b.bids.Keys != {};
      var p := LastKey(b.bids.Keys);
      Some((p, Total(b.bids[p])))
  }

  function BestAsk(b: L3): Option<(int, int)> {
    if b.asks == map[] then None
    else
      assert b.asks.Keys != {};
      var p := FirstKey(b.asks.Keys);
      Some((p, Total(b.asks[p])))
  }

  // ---- Levels never run empty or non-positive --------------------------------------------

  ghost predicate GoodLevel(level: Level) {
    forall i :: 0 <= i < |level| ==> level[i].1 > 0
  }

  ghost predicate GoodQueues(queues: Queues) {
    forall p :: p in queues ==> queues[p] != [] && GoodLevel(queues[p])
  }

  ghost predicate GoodL3(b: L3) {
    GoodQueues(b.bids) && GoodQueues(b.asks)
  }

  lemma {:induction false} WithoutGood(level: Level, id: int)
    requires GoodLevel(level)
    ensures GoodLevel(Without(level, id))
    ensures forall e :: e in Without(level, id) <==> e in level && e.0 != id
  {
    if level != [] {
      WithoutGood(level[1..], id);
    }
  }

  lemma {:induction false} ResizeGood(level: Level, id: int, qty: int)
    requires GoodLevel(level) && qty > 0
    ensures GoodLevel(Resize(level, id, qty))
    ensures |Resize(level, id, qty)| == |level|
  {
    if level != [] {
      ResizeGood(level[1..], id, qty);
    }
  }

  lemma {:induction false} LevelAfterGood(level: Level, u: L3Update)
    requires GoodLevel(level) && Accepted(u)
    ensures GoodLevel(LevelAfter(level, u))
  {
    WithoutGood(level, u.orderId);
    if u.action == Modify && u.qty != 0 {
      ResizeGood(level, u.orderId, u.qty);
    }
  }

  lemma {:induction false} ApplyL3Good(b: L3, u: L3Update)
    requires GoodL3(b) && Accepted(u)
    ensures GoodL3(ApplyL3(b, u))
  {
    LevelAfterGood(LevelAt(b.bids, u.price), u);
    LevelAfterGood(LevelAt(b.asks, u.price), u);
  }

  lemma {:induction false} TotalPositive(level: Level)
    requires GoodLevel(level)
    ensures Total(level) >= 0 && (level != [] ==> Total(level) > 0)
  {
    if level != [] {
      TotalPositive(level[1..]);
    }
  }

  lemma {:induction false} TotalAppend(a: Level, b: Level)
    ensures Total(a + b) == Total(a) + Total(b)
  {
    if a == [] {
      assert a + b == b;
    } else {
      assert (a + b)[1..] == a[1..] + b;
      TotalAppend(a[1..], b);
    }
  }

  // ---- The per-order book refines the price-level book -----------------------------------

  ghost function SumQueues(queues: Queues): Levels {
    map p | p in queues :: Total(queues[p])
  }

  // The price-level image of a per-order book.
  ghost function Summed(b: L3): L2 {
    L2(SumQueues(b.bids), SumQueues(b.asks))
  }

  // The price-level message that announces the new total of the touched level.
  ghost function LevelMessage(b: L3, u: L3Update): L2Update
    requires Accepted(u)
  {
    L2Update(u.tsExchange, u.price, Total(SideLevel(ApplyL3(b, u), u.side, u.price)), u.symbolId, u.side)
  }

  lemma {:induction false} SumSetQueue(queues: Queues, price: int, level: Level)
    requires GoodLevel(level)
    ensures SumQueues(SetQueue(queues, price, level)) == SetLevel(SumQueues(queues), price, Total(level))
  {
    TotalPositive(level);
  }

  // One accepted update commutes with summing the levels.
  lemma {:induction false} UpdateCommutes(b: L3, u: L3Update)
    requires GoodL3(b) && Accepted(u)
    ensures Summed(ApplyL3(b, u)) == ApplyL2(Summed(b), LevelMessage(b, u))
  {
    if u.side == Buy {
      LevelAfterGood(LevelAt(b.bids, u.price), u);
      SumSetQueue(b.bids, u.price, LevelAfter(LevelAt(b.bids, u.price), u));
    } else {
      LevelAfterGood(LevelAt(b.asks, u.price), u);
      SumSetQueue(b.asks, u.price, LevelAfter(LevelAt(b.asks, u.price), u));
    }
  }

  function RunL3(b: L3, us: seq<L3Update>): L3
    requires forall i :: 0 <= i < |us| ==> Accepted(us[i])
    decreases us
  {
    if us == [] then b else RunL3(ApplyL3(b, us[0]), us[1..])
  }

  // The stream of price-level messages that a per-order stream stands for.
  ghost function Messages(b: L3, us: seq<L3Update>): seq<L2Update>
    requires forall i :: 0 <= i < |us| ==> Accepted(us[i])
    decreases us
  {
    if us == [] then [] else [LevelMessage(b, us[0])] + Messages(ApplyL3(b, us[0]), us[1..])
  }

  function RunL2(b: L2, us: seq<L2Update>): L2
    decreases us
  {
    if us == [] then b else RunL2(ApplyL2(b, us[0]), us[1..])
  }

  // Every query gives the same answer on the per-order book and on its price-level image.
  lemma {:induction false} QueriesAgree(b: L3)
    ensures forall side, price :: LevelQty(Summed(b), side, price) == Total(SideLevel(b, side, price))
    ensures BookL2.BestBid(Summed(b)) == BestBid(b)
    ensures BookL2.BestAsk(Summed(b)) == BestAsk(b)
  {
    assert SumQueues(b.bids).Keys == b.bids.Keys;
    assert SumQueues(b.asks).Keys == b.asks.Keys;
  }

  // Over any accepted stream, the per-order book and the price-level book fed with the level
  // totals stay in step and answer every query alike.
  lemma {:induction false} L3RefinesL2(b: L3, us: seq<L3Update>)
    requires GoodL3(b)
    requires forall i :: 0 <= i < |us| ==> Accepted(us[i])
    ensures GoodL3(RunL3(b, us))
    ensures Summed(RunL3(b, us)) == RunL2(Summed(b), Messages(b, us))
    ensures forall side, price ::
              LevelQty(RunL2(Summed(b), Messages(b, us)), side, price)
              == Total(SideLevel(RunL3(b, us), side, price))
    ensures BookL2.BestBid(RunL2(Summed(b), Messages(b, us))) == BestBid(RunL3(b, us))
    ensures BookL2.BestAsk(RunL2(Summed(b), Messages(b, us))) == BestAsk(RunL3(b, us))
    decreases us
  {
    if us == [] {
      QueriesAgree(b);
    } else {
      ApplyL3Good(b, us[0]);
      UpdateCommutes(b, us[0]);
      L3RefinesL2(ApplyL3(b, us[0]), us[1..]);
      var ms := Messages(b, us);
      assert ms[0] == LevelMessage(b, us[0]) && ms[1..] == Messages(ApplyL3(b, us[0]), us[1..]);
    }
  }

  class OrderBookL3 {
    var bids: Queues
    var asks: Queues

    function State(): L3
      reads this
    {
      L3(bids, asks)
    }

    constructor ()
      ensures State() == EMPTY_L3
    {
      bids, asks := map[], map[];
    }

    method Apply(u: L3Update) returns (ok: bool)
      modifies this
      ensures ok == Accepted(u)
      ensures ok ==> State() == ApplyL3(old(State()), u)
      ensures !ok ==> State() == old(State())
    {
      if u.side == NoSide {
        return false;
      }
      match u.action {
        case Add =>
          if u.qty <= 0 {
            return false;
          }
          Put(u.side, u.price, GetLevel(u.side, u.price) + [(u.orderId, u.qty)]);
        case Modify =>
          if u.qty < 0 {
            return false;
          }
          var level := GetLevel(u.side, u.price);
          if u.qty == 0 {
            level := Retain(level, u.orderId);
          } else {
            level := ResizeFirst(level, u.orderId, u.qty);
          }
          Put(u.side, u.price, level);
        case Delete =>
          var level := Retain(GetLevel(u.side, u.price), u.orderId);
          Put(u.side, u.price, level);
        case Unknown =>
          return false;
      }
      return true;
    }

    function GetLevel(side: Side, price: int): Level
      reads this
    {
      SideLevel(State(), side, price)
    }

    method Put(side: Side, price: int, level: Level)
      requires side != NoSide
      modifies this
      ensures side == Buy ==> bids == SetQueue(old(bids), price, level) && asks == old(asks)
      ensures side == Sell ==> asks == SetQueue(old(asks), price, level) && bids == old(bids)
    {
      if side == Buy {
        bids := if level == [] then bids - {price} else bids[price := level];
      } else {
        asks := if level == [] then asks - {price} else asks[price := level];
      }
    }

    method OrdersAhead(side: Side, price: int, id: int) returns (ahead: Level)
      ensures ahead == Ahead(SideLevel(State(), side, price), id)
    {
      var level := GetLevel(side, price);
      ahead := [];
      for i := 0 to |level|
        invariant ahead + Ahead(level[i..], id) == Ahead(level, id)
      {
        if level[i].0 == id {
          return;
        }
        ahead := ahead + [level[i]];
      }
    }
  }

  method Retain(level: Level, id: int) returns (kept: Level)
    ensures kept == Without(level, id)
  {
    kept := [];
    for i := 0 to |level|
      invariant kept + Without(level[i..], id) == Without(level, id)
    {
      if level[i].0 != id {
        kept := kept + [level[i]];
      }
    }
  }

  method ResizeFirst(level: Level, id: int, qty: int) returns (resized: Level)
    ensures resized == Resize(level, id, qty)
  {
    for i := 0 to |level|
      invariant level[..i] + Resize(level[i..], id, qty) == Resize(level, id, qty)
    {
      if level[i].0 == id {
        resized := level[i := (id, qty)];
        return;
      }
      assert level[..i + 1] == level[..i] + [level[i]];
    }
    return level;
  }
}
