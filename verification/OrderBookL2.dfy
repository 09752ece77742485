// Price-level book: one quantity per price and side.
module BookL2 {
  import opened Types

  type Levels = map<int, int>

  datatype L2 = L2(bids: Levels, asks: Levels)

  const EMPTY_L2 := L2(map[], map[])

  function SetLevel(levels: Levels, price: int, qty: int): Levels {
    if qty == 0 then levels - {price} else levels[price := qty]
  }

  function ApplyL2(b: L2, u: L2Update): L2 {
    match u.side
    case Buy => b.(bids := SetLevel(b.bids, u.price, u.qty))
    case Sell => b.(asks := SetLevel(b.asks, u.price, u.qty))
    case NoSide => b
  }

  function LevelQty(b: L2, side: Side, price: int): int {
    match side
    case Buy => if price in b.bids then b.bids[price] else 0
    case Sell => if price in b.asks then b.asks[price] else 0
    case NoSide => 0
  }

  // ---- First and last key of an ordered map ----------------------------------------------

  ghost predicate IsMax(keys: set<int>, p: int) {
    p in keys && forall q :: q in keys ==> q <= p
  }

  ghost predicate IsMin(keys: set<int>, p: int) {
    p in keys && forall q :: q in keys ==> p <= q
  }

  lemma {:induction false} MaxExists(keys: set<int>)
    requires keys != {}
    ensures exists p :: IsMax(keys, p)
  {
    if forall x :: x !in keys {
      assert false;
    }
    var x :| x in keys;
    if keys == {x} {
      assert IsMax(keys, x);
    } else {
      MaxExists(keys - {x});
      var y :| IsMax(keys - {x}, y);
      var m := if x <= y then y else x;
      assert m in keys;
      forall q | q in keys ensures q <= m {
        assert q == x || q in keys - {x};
      }
      assert IsMax(keys, m);
    }
  }

  lemma {:induction false} MinExists(keys: set<int>)
    requires keys != {}
    ensures exists p :: IsMin(keys, p)
  {
    if forall x :: x !in keys {
      assert false;
    }
    var x :| x in keys;
    if keys == {x} {
      assert IsMin(keys, x);
    } else {
      MinExists(keys - {x});
      var y :| IsMin(keys - {x}, y);
      var m := if y <= x then y else x;
      assert m in keys;
      forall q | q in keys ensures m <= q {
        assert q == x || q in keys - {x};
      }
      assert IsMin(keys, m);
    }
  }

  function LastKey(keys: set<int>): (p: int)
    requires keys != {}
    ensures IsMax(keys, p)
  {
    MaxExists(keys);
    assert forall p, q :: IsMax(keys, p) && IsMax(keys, q) ==> p == q;
    var p :| p in keys && forall q :: q in keys ==> q <= p;
    p
  }

  function FirstKey(keys: set<int>): (p: int)
    requires keys != {}
    ensures IsMin(keys, p)
  {
    MinExists(keys);
    assert forall p, q :: IsMin(keys, p) && IsMin(keys, q) ==> p == q;
    var p :| p in keys && forall q :: q in keys ==> p <= q;
    p
  }

  function BestBid(b: L2): Option<(int, int)> {
    if b.bids == map[] then None
    else
      assert b.bids.Keys != {};
      var p := LastKey(b.bids.Keys);
      Some((p, b.bids[p]))
  }

  function BestAsk(b: L2): Option<(int, int)> {
    if b.asks == map[] then None
    else
      assert b.asks.Keys != {};
      var p := FirstKey(b.asks.Keys);
      Some((p, b.asks[p]))
  }

  // Every stored level is positive.
  ghost predicate PositiveLevels(levels: Levels) {
    forall p :: p in levels ==> levels[p] > 0
  }

  ghost predicate GoodL2(b: L2) {
    PositiveLevels(b.bids) && PositiveLevels(b.asks)
  }

  class OrderBookL2 {
    var bids: Levels
    var asks: Levels

    function State(): L2
      reads this
    {
      L2(bids, asks)
    }

    constructor ()
      ensures State() == EMPTY_L2
    {
      bids, asks := map[], map[];
    }

    method Apply(u: L2Update)
      modifies this
      ensures State() == ApplyL2(old(State()), u)
    {
      match u.side {
        case Buy =>
          if u.qty == 0 {
            bids := bids - {u.price};
          } else {
            bids := bids[u.price := u.qty];
          }
        case Sell =>
          if u.qty == 0 {
            asks := asks - {u.price};
          } else {
            asks := asks[u.price := u.qty];
          }
        case NoSide =>
      }
    }
  }
}
