// Passive fills: where a resting order stands in its price level, and how much of a trade
// reaches it under each queue model.
module QueueModels {
  import opened Types
  import opened Arith
  import opened BookL2
  import opened BookL3

  datatype QueueModel = Noop | Conservative | VolumeClock | L3Exact

  datatype QState =
    | QNone
    | QConservative(qtyAhead: int)
    | QVolume(queuePos: int, cumVolume: int, claimed: int)
    | QExact(qtyAhead: int, ahead: Level)

  // What a queue model may ask of either book.
  datatype Depth = DepthL2(l2: L2) | DepthL3(l3: L3)

  function DepthQty(d: Depth, side: Side, price: int): int {
    match d
    case DepthL2(b) => LevelQty(b, side, price)
    case DepthL3(b) => Total(SideLevel(b, side, price))
  }

  function DepthAhead(d: Depth, side: Side, price: int, id: int): Level {
    match d
    case DepthL2(_) => []
    case DepthL3(b) => Ahead(SideLevel(b, side, price), id)
  }

  function Register(m: QueueModel, order: Order, d: Depth): QState {
    match m
    case Noop => QNone
    case Conservative => QConservative(DepthQty(d, order.side, order.price))
    case VolumeClock => QVolume(DepthQty(d, order.side, order.price), 0, 0)
    case L3Exact =>
      var ahead := DepthAhead(d, order.side, order.price, order.orderId);
      QExact(Total(ahead), ahead)
  }

  predicate Against(side: Side, aggressor: Side) {
    (side == Buy && aggressor == Sell) || (side == Sell && aggressor == Buy)
  }

  // Does the trade reach the price level where the order rests?
  predicate Hits(order: Order, trade: Tick) {
    && trade.symbolId == order.symbolId
    && trade.price == order.price
    && trade.qty > 0
    && Against(order.side, trade.side)
  }

  // Take a traded quantity off the front of the orders ahead.
  function Consume(ahead: Level, qty: int): Level {
    if qty <= 0 || ahead == [] then ahead
    else if ahead[0].1 <= qty then Consume(ahead[1..], qty - ahead[0].1)
    else [(ahead[0].0, ahead[0].1 - qty)] + ahead[1..]
  }

  // The part of a trade that the queue in front absorbs.
  function Absorbed(qtyAhead: int, volume: int): int {
    if qtyAhead > 0 then Min(qtyAhead, volume) else 0
  }

  function FillFrom(st: QState, remaining: int, volume: int): (QState, int) {
    match st
    case QNone => (st, 0)
    case QConservative(a) =>
      var d := Absorbed(a, volume);
      (QConservative(a - d), Min(volume - d, remaining))
    case QVolume(pos, cum, claimed) =>
      var past := cum + volume - pos;
      if past <= claimed then (QVolume(pos, cum + volume, claimed), 0)
      else
        var fill := Max(Min(past - claimed, remaining), 0);
        (QVolume(pos, cum + volume, claimed + fill), fill)
    case QExact(a, ahead) =>
      var d := Absorbed(a, volume);
      (QExact(a - d, Consume(ahead, d)), Min(volume - d, remaining))
  }

  // The queue state after a trade, and the quantity of the order it fills.
  function CheckFill(order: Order, remaining: int, trade: Tick, st: QState): (QState, int) {
    if remaining > 0 && Hits(order, trade) then FillFrom(st, remaining, trade.qty) else (st, 0)
  }

  function RemoveFirst(level: Level, id: int): Level {
    if level == [] then []
    else if level[0].0 == id then level[1..]
    else [level[0]] + RemoveFirst(level[1..], id)
  }

  function FirstQty(level: Level, id: int): Option<int> {
    if level == [] then None
    else if level[0].0 == id then Some(level[0].1)
    else FirstQty(level[1..], id)
  }

  function Positive(level: Level): Level {
    if level == [] then []
    else if level[0].1 > 0 then [level[0]] + Positive(level[1..])
    else Positive(level[1..])
  }

  function ForgetAhead(st: QState, id: int): QState
    requires st.QExact?
  {
    match FirstQty(st.ahead, id)
    case None => st
    case Some(q) => QExact(st.qtyAhead - q, RemoveFirst(st.ahead, id))
  }

  function ResizeAhead(st: QState, id: int, qty: int): QState
    requires st.QExact?
  {
    match FirstQty(st.ahead, id)
    case None => st
    case Some(q) =>
      var resized := Resize(st.ahead, id, qty);
      QExact(st.qtyAhead - q + qty, if qty == 0 then Positive(resized) else resized)
  }

  predicate SameLevel(order: Order, u: L3Update) {
    u.symbolId == order.symbolId && u.side == order.side && u.price == order.price
  }

  // Only the exact model follows the venue's per-order messages.
  function OnL3(order: Order, st: QState, u: L3Update): QState {
    if !st.QExact? || !SameLevel(order, u) then st
    else
      match u.action
      case Delete => ForgetAhead(st, u.orderId)
      case Modify => ResizeAhead(st, u.orderId, Max(u.qty, 0))
      case _ => st
  }

  // ---- The in-place forms -----------------------------------------------------------------

  method ConsumeAheadOrders(ahead: Level, qty: int) returns (rest: Level)
    ensures rest == Consume(ahead, qty)
  {
    rest := ahead;
    var left := qty;
    while left > 0 && rest != []
      invariant Consume(rest, left) == Consume(ahead, qty)
      decreases |rest|, left
    {
      var consumed := Min(rest[0].1, left);
      var resting := rest[0].1;
      left := left - consumed;
      if resting - consumed == 0 {
        rest := rest[1..];
      } else {
        rest := [(rest[0].0, resting - consumed)] + rest[1..];
      }
    }
  }

  method CheckFillInPlace(order: Order, remaining: int, trade: Tick, st: QState)
    returns (next: QState, fill: int)
    ensures (next, fill) == CheckFill(order, remaining, trade, st)
  {
    next, fill := st, 0;
    if remaining <= 0 || trade.symbolId != order.symbolId || trade.price != order.price || trade.qty <= 0 {
      return;
    }
    if !((order.side == Buy && trade.side == Sell) || (order.side == Sell && trade.side == Buy)) {
      return;
    }
    match st {
      case QNone =>
      case QConservative(qtyAhead) =>
        var ahead, available := qtyAhead, trade.qty;
        if ahead > 0 {
          var d := Min(ahead, available);
          ahead, available := ahead - d, available - d;
        }
        next, fill := QConservative(ahead), Min(available, remaining);
      case QVolume(pos, cum, claimed) =>
        var volume := cum + trade.qty;
        var past := volume - pos;
        if past <= claimed {
          next := QVolume(pos, volume, claimed);
          return;
        }
        fill := Max(Min(past - claimed, remaining), 0);
        next := QVolume(pos, volume, claimed + fill);
      case QExact(qtyAhead, orders) =>
        var ahead, available, queue := qtyAhead, trade.qty, orders;
        if ahead > 0 {
          var consumed := Min(ahead, available);
          ahead := ahead - consumed;
          queue := ConsumeAheadOrders(queue, consumed);
          available := available - consumed;
        }
        next, fill := QExact(ahead, queue), Min(available, remaining);
    }
  }

  // ---- Fills are bounded ------------------------------------------------------------------

  lemma {:induction false} FillBounds(order: Order, remaining: int, trade: Tick, st: QState)
    requires remaining >= 0
    ensures 0 <= CheckFill(order, remaining, trade, st).1 <= remaining
  {
  }

  // ---- Whole trade sequences ----------------------------------------------------------------

  // The fills an order receives from a run of trades, one entry per trade.
  function Fills(order: Order, st: QState, remaining: int, trades: seq<Tick>): seq<int>
    decreases trades
  {
    if trades == [] then []
    else
      var (st', fill) := CheckFill(order, remaining, trades[0], st);
      [fill] + Fills(order, st', remaining - fill, trades[1..])
  }

  // Traded volume that reached the order's level from the other side.
  function Volume(order: Order, trades: seq<Tick>): nat {
    if trades == [] then 0
    else (if Hits(order, trades[0]) then trades[0].qty else 0) + Volume(order, trades[1..])
  }

  // The two models describe the same place in the queue.
  ghost predicate SamePlace(c: QState, v: QState) {
    && c.QConservative? && v.QVolume?
    && v.queuePos >= 0
    && c.qtyAhead == Max(0, v.queuePos - v.cumVolume)
    && v.claimed == Max(0, v.cumVolume - v.queuePos)
  }

  // One trade: the same fill, and still the same place unless the order is done.
  lemma {:induction false} SamePlaceStep(order: Order, remaining: int, trade: Tick, c: QState, v: QState)
    requires remaining > 0 ==> SamePlace(c, v)
    ensures CheckFill(order, remaining, trade, c).1 == CheckFill(order, remaining, trade, v).1
    ensures remaining - CheckFill(order, remaining, trade, c).1 > 0 ==>
              SamePlace(CheckFill(order, remaining, trade, c).0, CheckFill(order, remaining, trade, v).0)
  {
  }

  lemma {:induction false} SameFillsFrom(order: Order, remaining: int, trades: seq<Tick>, c: QState, v: QState)
    requires remaining > 0 ==> SamePlace(c, v)
    ensures Fills(order, c, remaining, trades) == Fills(order, v, remaining, trades)
    decreases trades
  {
    if trades != [] {
      SamePlaceStep(order, remaining, trades[0], c, v);
      var (c', fill) := CheckFill(order, remaining, trades[0], c);
      SameFillsFrom(order, remaining - fill, trades[1..], c', CheckFill(order, remaining, trades[0], v).0);
    }
  }

  lemma {:induction false} ConservativeTotal(order: Order, remaining: int, trades: seq<Tick>, ahead: int)
    requires remaining >= 0 && ahead >= 0
    ensures Sum(Fills(order, QConservative(ahead), remaining, trades))
            == Min(remaining, Max(0, Volume(order, trades) - ahead))
    decreases trades
  {
    if trades != [] {
      var (c, fill) := CheckFill(order, remaining, trades[0], QConservative(ahead));
      ConservativeTotal(order, remaining - fill, trades[1..], c.qtyAhead);
      var fs := Fills(order, QConservative(ahead), remaining, trades);
      assert fs == [fill] + Fills(order, c, remaining - fill, trades[1..]);
      SumAppend([fill], Fills(order, c, remaining - fill, trades[1..]));
      SumOne(fill);
    }
  }

  // From one snapshot of the book, the two models give the same fill on every trade of every
  // trade sequence, and together min(qty, max(0, volume - quantity ahead at entry)).
  lemma {:induction false} ConservativeIsVolumeClock(order: Order, d: Depth, trades: seq<Tick>)
    requires order.qty >= 0 && DepthQty(d, order.side, order.price) >= 0
    ensures
      var c := Fills(order, Register(Conservative, order, d), order.qty, trades);
      && c == Fills(order, Register(VolumeClock, order, d), order.qty, trades)
      && Sum(c) == Min(order.qty, Max(0, Volume(order, trades) - DepthQty(d, order.side, order.price)))
  {
    SameFillsFrom(order, order.qty, trades, Register(Conservative, order, d), Register(VolumeClock, order, d));
    ConservativeTotal(order, order.qty, trades, DepthQty(d, order.side, order.price));
  }

  lemma {:induction false} FinishedOrdersGetNothing(
    order: Order, c: QState, v: QState, remaining: int, trades: seq<Tick>)
    requires remaining <= 0
    ensures Fills(order, c, remaining, trades) == Fills(order, v, remaining, trades)
    decreases trades
  {
    if trades != [] {
      FinishedOrdersGetNothing(order, c, v, remaining, trades[1..]);
    }
  }

  // Behind a negative level an order of one unit is filled whole by the first trade that reaches it.
  lemma {:induction false} OneUnitAgrees(order: Order, ahead: int, remaining: int, trades: seq<Tick>)
    requires ahead < 0 && remaining <= 1
    ensures Fills(order, QConservative(ahead), remaining, trades)
            == Fills(order, QVolume(ahead, 0, 0), remaining, trades)
    decreases trades
  {
    if trades != [] {
      var (c, fill) := CheckFill(order, remaining, trades[0], QConservative(ahead));
      var (v, _) := CheckFill(order, remaining, trades[0], QVolume(ahead, 0, 0));
      if remaining > 0 && !Hits(order, trades[0]) {
        OneUnitAgrees(order, ahead, remaining, trades[1..]);
      } else {
        FinishedOrdersGetNothing(order, c, v, remaining - fill, trades[1..]);
      }
    }
  }

  // The least trade that reaches the order.
  function SmallTrade(order: Order): Tick {
    Tick(0, 0, 0, order.price, 1, order.symbolId, if order.side == Buy then Sell else Buy)
  }

  // Behind a negative level the volume clock gives a larger order more than was traded.
  lemma {:induction false} SmallTradeSeparates(order: Order, ahead: int)
    requires ahead < 0 && order.qty >= 2 && order.side != NoSide
    ensures
      var ts := [SmallTrade(order)];
      Fills(order, QConservative(ahead), order.qty, ts) != Fills(order, QVolume(ahead, 0, 0), order.qty, ts)
  {
    var ts := [SmallTrade(order)];
    assert Fills(order, QConservative(ahead), order.qty, ts)[0] == 1;
    assert Fills(order, QVolume(ahead, 0, 0), order.qty, ts)[0] == Min(1 - ahead, order.qty);
  }

  lemma {:induction false} NoSideNoFills(order: Order, c: QState, v: QState, remaining: int, trades: seq<Tick>)
    requires order.side == NoSide
    ensures Fills(order, c, remaining, trades) == Fills(order, v, remaining, trades)
    decreases trades
  {
    if trades != [] {
      NoSideNoFills(order, c, v, remaining, trades[1..]);
    }
  }

  // Whatever quantity the level shows when the order joins it, the two models give the same fill on
  // every trade of every sequence exactly unless that quantity is negative and the order, on one side
  // of the book, is for at least two units.
  lemma {:induction false} ModelsAgreeExactly(order: Order, ahead: int)
    ensures
      (forall trades :: Fills(order, QConservative(ahead), order.qty, trades)
                        == Fills(order, QVolume(ahead, 0, 0), order.qty, trades))
      <==> ahead >= 0 || order.qty <= 1 || order.side == NoSide
  {
    if ahead < 0 && order.qty >= 2 && order.side != NoSide {
      SmallTradeSeparates(order, ahead);
    } else {
      forall trades
        ensures Fills(order, QConservative(ahead), order.qty, trades)
                == Fills(order, QVolume(ahead, 0, 0), order.qty, trades)
      {
        if ahead >= 0 {
          SameFillsFrom(order, order.qty, trades, QConservative(ahead), QVolume(ahead, 0, 0));
        } else if order.qty <= 1 {
          OneUnitAgrees(order, ahead, order.qty, trades);
        } else {
          NoSideNoFills(order, QConservative(ahead), QVolume(ahead, 0, 0), order.qty, trades);
        }
      }
    }
  }

  // ---- The exact model's cached queue ------------------------------------------------------

  // The cached total is the sum of the cached orders, all positive.
  ghost predicate GoodQ(st: QState) {
    match st
    case QNone => true
    case QConservative(a) => a >= 0
    case QVolume(pos, cum, claimed) => pos >= 0 && cum >= 0 && claimed >= 0
    case QExact(a, ahead) => GoodLevel(ahead) && a == Total(ahead)
  }

  // An order that still wants volume has claimed all that has traded past its place.
  ghost predicate ClaimOk(remaining: int, st: QState) {
    remaining > 0 && st.QVolume? ==> st.claimed == Max(0, st.cumVolume - st.queuePos)
  }

  lemma {:induction false} ConsumeGood(ahead: Level, qty: int)
    requires GoodLevel(ahead) && 0 <= qty <= Total(ahead)
    ensures GoodLevel(Consume(ahead, qty))
    ensures Total(Consume(ahead, qty)) == Total(ahead) - qty
  {
    if qty > 0 && ahead != [] {
      TotalPositive(ahead[1..]);
      if ahead[0].1 <= qty {
        ConsumeGood(ahead[1..], qty - ahead[0].1);
      }
    }
  }

  lemma {:induction false} FirstQtyFacts(level: Level, id: int)
    requires GoodLevel(level)
    ensures FirstQty(level, id).None? <==> forall i :: 0 <= i < |level| ==> level[i].0 != id
    ensures FirstQty(level, id).Some? ==>
              && FirstQty(level, id).value > 0
              && Total(RemoveFirst(level, id)) == Total(level) - FirstQty(level, id).value
              && GoodLevel(RemoveFirst(level, id))
              && forall q :: Total(Resize(level, id, q)) == Total(level) - FirstQty(level, id).value + q
  {
    if level != [] && level[0].0 != id {
      FirstQtyFacts(level[1..], id);
    }
  }

  lemma {:induction false} PositiveFacts(level: Level)
    requires forall i :: 0 <= i < |level| ==> level[i].1 >= 0
    ensures GoodLevel(Positive(level)) && Total(Positive(level)) == Total(level)
  {
    if level != [] {
      PositiveFacts(level[1..]);
    }
  }

  lemma {:induction false} ResizeNonNegative(level: Level, id: int, qty: int)
    requires GoodLevel(level) && qty >= 0
    ensures forall i :: 0 <= i < |Resize(level, id, qty)| ==> Resize(level, id, qty)[i].1 >= 0
  {
    if level != [] {
      ResizeNonNegative(level[1..], id, qty);
    }
  }

  lemma {:induction false} AheadIsPrefix(level: Level, id: int)
    ensures Ahead(level, id) <= level
    ensures (forall i :: 0 <= i < |level| ==> level[i].0 != id) ==> Ahead(level, id) == level
  {
    if level != [] && level[0].0 != id {
      AheadIsPrefix(level[1..], id);
    }
  }

  lemma {:induction false} RegisterGood(m: QueueModel, order: Order, d: Depth)
    requires d.DepthL2? ==> GoodL2(d.l2)
    requires d.DepthL3? ==> GoodL3(d.l3)
    ensures GoodQ(Register(m, order, d)) && ClaimOk(order.qty, Register(m, order, d))
  {
    match d {
      case DepthL2(_) =>
      case DepthL3(b) =>
        var level := SideLevel(b, order.side, order.price);
        TotalPositive(level);
        AheadIsPrefix(level, order.orderId);
    }
  }

  // In every run, trades included, the cached total equals the sum of the cached orders.
  lemma {:induction false} CheckFillGood(order: Order, remaining: int, trade: Tick, st: QState)
    requires GoodQ(st)
    ensures GoodQ(CheckFill(order, remaining, trade, st).0)
  {
    if st.QExact? && remaining > 0 && Hits(order, trade) {
      TotalPositive(st.ahead);
      ConsumeGood(st.ahead, Absorbed(st.qtyAhead, trade.qty));
    }
  }

  lemma {:induction false} ClaimKept(order: Order, remaining: int, trade: Tick, st: QState)
    requires GoodQ(st) && ClaimOk(remaining, st)
    ensures
      var (next, fill) := CheckFill(order, remaining, trade, st);
      ClaimOk(remaining - fill, next)
  {
  }

  // The quantity still in front of an order.
  function AheadOf(st: QState): int {
    match st
    case QNone => 0
    case QConservative(a) => a
    case QVolume(pos, cum, _) => Max(0, pos - cum)
    case QExact(a, _) => a
  }

  // A new order stands behind all that rests at its own price on its own side; behind an order of its own id
  // the exact model puts only what rests ahead of that one.
  lemma {:induction false} RegistersBehindLevel(m: QueueModel, order: Order, d: Depth)
    requires d.DepthL2? ==> GoodL2(d.l2)
    requires d.DepthL3? ==> GoodL3(d.l3)
    ensures
      d.DepthL2? && (m == Conservative || m == VolumeClock) ==>
        AheadOf(Register(m, order, d))
        == if order.side == Buy && order.price in d.l2.bids then d.l2.bids[order.price]
           else if order.side == Sell && order.price in d.l2.asks then d.l2.asks[order.price]
           else 0
    ensures
      d.DepthL3? && m != Noop ==>
        AheadOf(Register(m, order, d))
        == Total(if order.side == Buy && order.price in d.l3.bids then
                   if m == L3Exact then Ahead(d.l3.bids[order.price], order.orderId) else d.l3.bids[order.price]
                 else if order.side == Sell && order.price in d.l3.asks then
                   if m == L3Exact then Ahead(d.l3.asks[order.price], order.orderId) else d.l3.asks[order.price]
                 else [])
  {
    if d.DepthL3? {
      TotalPositive(SideLevel(d.l3, order.side, order.price));
    }
  }

  // One law for the three models that fill: a trade that reaches the level fills the order with what
  // is left of it behind the quantity in front, as far as the order goes.
  lemma {:induction false} FillsBehindQueue(order: Order, remaining: int, trade: Tick, st: QState)
    requires remaining > 0 && Hits(order, trade) && GoodQ(st) && ClaimOk(remaining, st)
    ensures
      var (next, fill) := CheckFill(order, remaining, trade, st);
      && fill == (if st.QNone? then 0 else Min(remaining, Max(0, trade.qty - AheadOf(st))))
      && AheadOf(next) == Max(0, AheadOf(st) - trade.qty)
  {
    if st.QExact? {
      TotalPositive(st.ahead);
    }
  }

  lemma {:induction false} OnL3Good(order: Order, st: QState, u: L3Update)
    requires GoodQ(st)
    ensures GoodQ(OnL3(order, st, u))
    ensures st.QVolume? || OnL3(order, st, u).QVolume? ==> OnL3(order, st, u) == st
  {
    if st.QExact? {
      FirstQtyFacts(st.ahead, u.orderId);
      if u.action == Modify && FirstQty(st.ahead, u.orderId).Some? {
        var q := Max(u.qty, 0);
        ResizeNonNegative(st.ahead, u.orderId, q);
        PositiveFacts(Resize(st.ahead, u.orderId, q));
        if q != 0 {
          ResizeGood(st.ahead, u.orderId, q);
        }
      }
    }
  }

  ghost predicate DistinctIds(level: Level) {
    forall i, j :: 0 <= i < j < |level| ==> level[i].0 != level[j].0
  }

  // The cache is a prefix of the queue that the book now shows.
  ghost predicate CacheMatches(st: QState, level: Level) {
    st.QExact? ==> st.ahead <= level && GoodLevel(st.ahead) && DistinctIds(st.ahead)
  }

  lemma {:induction false} WithoutPrefix(ahead: Level, rest: Level, id: int)
    ensures Without(ahead + rest, id) == Without(ahead, id) + Without(rest, id)
  {
    if ahead == [] {
      assert ahead + rest == rest;
    } else {
      assert (ahead + rest)[1..] == ahead[1..] + rest;
      WithoutPrefix(ahead[1..], rest, id);
    }
  }

  lemma {:induction false} ResizePrefix(ahead: Level, rest: Level, id: int, qty: int)
    ensures Resize(ahead + rest, id, qty)
            == if FirstQty(ahead, id).Some? then Resize(ahead, id, qty) + rest else ahead + Resize(rest, id, qty)
  {
    if ahead == [] {
      assert ahead + rest == rest;
    } else {
      assert (ahead + rest)[1..] == ahead[1..] + rest;
      if ahead[0].0 != id {
        ResizePrefix(ahead[1..], rest, id, qty);
      }
    }
  }

  lemma {:induction false} WithoutAbsent(level: Level, id: int)
    requires forall i :: 0 <= i < |level| ==> level[i].0 != id
    ensures Without(level, id) == level && RemoveFirst(level, id) == level
  {
    if level != [] {
      WithoutAbsent(level[1..], id);
    }
  }

  lemma {:induction false} PositiveKeepsGood(level: Level)
    requires GoodLevel(level)
    ensures Positive(level) == level
  {
    if level != [] {
      PositiveKeepsGood(level[1..]);
    }
  }

  // With distinct ids, dropping the first entry of an order drops them all, and so does setting
  // it to zero and filtering.
  lemma {:induction false} DropForms(level: Level, id: int)
    requires DistinctIds(level) && GoodLevel(level)
    ensures RemoveFirst(level, id) == Without(level, id)
    ensures FirstQty(level, id).Some? ==> Positive(Resize(level, id, 0)) == Without(level, id)
    ensures DistinctIds(Without(level, id))
    ensures forall e :: e in Without(level, id) ==> e in level
  {
    if level != [] {
      if level[0].0 == id {
        WithoutAbsent(level[1..], id);
        PositiveKeepsGood(level[1..]);
      } else {
        DropForms(level[1..], id);
        var tail := Without(level[1..], id);
        forall i | 0 <= i < |tail| ensures tail[i].0 != level[0].0 {
          assert tail[i] in level[1..];
        }
      }
    }
  }

  lemma {:induction false} ResizeIds(level: Level, id: int, qty: int)
    ensures |Resize(level, id, qty)| == |level|
    ensures forall i :: 0 <= i < |level| ==> Resize(level, id, qty)[i].0 == level[i].0
  {
    if level != [] && level[0].0 != id {
      ResizeIds(level[1..], id, qty);
    }
  }

  lemma {:induction false} CacheStep(order: Order, st: QState, rest: Level, u: L3Update)
    requires st.QExact? && GoodLevel(st.ahead) && DistinctIds(st.ahead) && SameLevel(order, u) && Accepted(u)
    ensures CacheMatches(OnL3(order, st, u), LevelAfter(st.ahead + rest, u))
  {
    FirstQtyFacts(st.ahead, u.orderId);
    if FirstQty(st.ahead, u.orderId).None? {
      WithoutAbsent(st.ahead, u.orderId);
    }
    if u.action == Delete || (u.action == Modify && u.qty == 0) {
      WithoutPrefix(st.ahead, rest, u.orderId);
      DropForms(st.ahead, u.orderId);
      WithoutGood(st.ahead, u.orderId);
    } else if u.action == Modify {
      ResizePrefix(st.ahead, rest, u.orderId, u.qty);
      ResizeIds(st.ahead, u.orderId, u.qty);
      ResizeGood(st.ahead, u.orderId, u.qty);
    }
  }

  // One accepted message, given to both the book and the cache, keeps the cache a prefix.
  lemma {:induction false} CacheFollowsBook(order: Order, st: QState, b: L3, u: L3Update)
    requires CacheMatches(st, SideLevel(b, order.side, order.price))
    requires GoodL3(b) && Accepted(u) && u.symbolId == order.symbolId
    ensures CacheMatches(OnL3(order, st, u), SideLevel(ApplyL3(b, u), order.side, order.price))
  {
    if st.QExact? && SameLevel(order, u) {
      var level := SideLevel(b, order.side, order.price);
      var rest := level[|st.ahead|..];
      assert level == st.ahead + rest;
      assert SideLevel(ApplyL3(b, u), order.side, order.price) == LevelAfter(level, u);
      CacheStep(order, st, rest, u);
    }
  }

  // Does the message take away, or resize, an order that is cached as ahead?
  predicate Touches(ahead: Level, u: L3Update) {
    && (u.action == Delete || u.action == Modify)
    && FirstQty(ahead, u.orderId).Some?
    && !(u.action == Modify && FirstQty(ahead, u.orderId) == Some(u.qty))
  }

  lemma {:induction false} ResizeSame(level: Level, id: int, qty: int)
    requires FirstQty(level, id).Some?
    ensures |Resize(level, id, qty)| == |level|
    ensures Resize(level, id, qty) == level <==> FirstQty(level, id) == Some(qty)
  {
    if level[0].0 != id {
      ResizeSame(level[1..], id, qty);
      assert level == [level[0]] + level[1..];
      assert Resize(level, id, qty)[1..] == Resize(level[1..], id, qty);
    }
  }

  lemma {:induction false} FirstIsMember(level: Level, id: int)
    requires FirstQty(level, id).Some?
    ensures (id, FirstQty(level, id).value) in level
  {
    if level[0].0 != id {
      FirstIsMember(level[1..], id);
      assert level == [level[0]] + level[1..];
    }
  }

  lemma {:induction false} GoneIsNoPrefix(ahead: Level, level: Level, e: (int, int))
    requires e in ahead && e !in level
    ensures !(ahead <= level)
  {
    var i :| 0 <= i < |ahead| && ahead[i] == e;
    if ahead <= level {
      assert false;
    }
  }

  // A cache that is not told of a message stays a prefix of the level exactly if the message touches
  // none of the cached orders.
  lemma {:induction false} UntoldCache(ahead: Level, rest: Level, u: L3Update)
    requires GoodLevel(ahead + rest) && Accepted(u)
    ensures ahead <= LevelAfter(ahead + rest, u) <==> !Touches(ahead, u)
  {
    assert GoodLevel(ahead) by {
      forall i | 0 <= i < |ahead| ensures ahead[i].1 > 0 {
        assert (ahead + rest)[i] == ahead[i];
      }
    }
    FirstQtyFacts(ahead, u.orderId);
    if u.action == Delete || (u.action == Modify && u.qty == 0) {
      WithoutPrefix(ahead, rest, u.orderId);
      if FirstQty(ahead, u.orderId).None? {
        WithoutAbsent(ahead, u.orderId);
      } else {
        FirstIsMember(ahead, u.orderId);
        WithoutGood(ahead + rest, u.orderId);
        GoneIsNoPrefix(ahead, Without(ahead + rest, u.orderId), (u.orderId, FirstQty(ahead, u.orderId).value));
      }
    } else if u.action == Modify {
      ResizePrefix(ahead, rest, u.orderId, u.qty);
      if FirstQty(ahead, u.orderId).Some? {
        ResizeSame(ahead, u.orderId, u.qty);
        assert LevelAfter(ahead + rest, u)[..|ahead|] == Resize(ahead, u.orderId, u.qty);
      }
    }
  }

  function RunCache(order: Order, st: QState, us: seq<L3Update>): QState
    decreases us
  {
    if us == [] then st else RunCache(order, OnL3(order, st, us[0]), us[1..])
  }

  // In any trade-free run of accepted messages, from a level with distinct ids, the orders the
  // exact model believes to be ahead are a prefix of the queue the book shows.
  lemma {:induction false} CacheAgreesWithBook(order: Order, st: QState, b: L3, us: seq<L3Update>)
    requires CacheMatches(st, SideLevel(b, order.side, order.price)) && GoodL3(b)
    requires forall i :: 0 <= i < |us| ==> Accepted(us[i]) && us[i].symbolId == order.symbolId
    ensures CacheMatches(RunCache(order, st, us), SideLevel(RunL3(b, us), order.side, order.price))
    decreases us
  {
    if us != [] {
      CacheFollowsBook(order, st, b, us[0]);
      ApplyL3Good(b, us[0]);
      CacheAgreesWithBook(order, OnL3(order, st, us[0]), ApplyL3(b, us[0]), us[1..]);
    }
  }

  // The copy stops exactly where the order's own id first stands in the venue's queue, if it does.
  lemma {:induction false} AheadStops(level: Level, id: int)
    ensures
      var n := |Ahead(level, id)|;
      && n <= |level| && Ahead(level, id) == level[..n] && (n < |level| ==> level[n].0 == id)
      && forall i :: 0 <= i < n ==> level[i].0 != id
  {
    if level != [] && level[0].0 != id {
      AheadStops(level[1..], id);
      var n := |Ahead(level[1..], id)|;
      assert level[..n + 1] == [level[0]] + level[1..][..n];
      forall i | 0 < i < n + 1 ensures level[i].0 != id {
        assert level[i] == level[1..][i - 1];
      }
    }
  }

  // Registration starts the cache as such a prefix: it stops before the first entry with the order's own
  // id, and is the whole level if and only if the venue's queue has no such entry.
  lemma {:induction false} RegisterMatches(order: Order, b: L3)
    ensures
      var (level, st) := (SideLevel(b, order.side, order.price), Register(L3Exact, order, DepthL3(b)));
      && st.QExact? && st.ahead <= level && st.qtyAhead == Total(st.ahead)
      && (|st.ahead| < |level| ==> level[|st.ahead|].0 == order.orderId)
      && (forall i :: 0 <= i < |st.ahead| ==> level[i].0 != order.orderId)
      && (st.ahead == level <==> forall i :: 0 <= i < |level| ==> level[i].0 != order.orderId)
      && (GoodL3(b) && DistinctIds(level) ==> CacheMatches(st, level))
  {
    AheadStops(SideLevel(b, order.side, order.price), order.orderId);
  }

  // ---- The exact model never lags the conservative one -------------------------------------

  datatype QueueEvent = Traded(trade: Tick) | Venue(update: L3Update)

  // Any message but a modify that enlarges an order ahead at the order's own level.
  predicate Shrinks(order: Order, st: QState, u: L3Update) {
    SameLevel(order, u) && u.action == Modify && st.QExact? && FirstQty(st.ahead, u.orderId).Some? ==>
      Max(u.qty, 0) <= FirstQty(st.ahead, u.orderId).value
  }

  function FilledAfter(order: Order, st: QState, filled: int, es: seq<QueueEvent>): int
    decreases es
  {
    if es == [] then filled
    else
      match es[0]
      case Traded(t) =>
        var (st', fill) := CheckFill(order, order.qty - filled, t, st);
        FilledAfter(order, st', filled + fill, es[1..])
      case Venue(u) => FilledAfter(order, OnL3(order, st, u), filled, es[1..])
  }

  ghost predicate OnlyShrinks(order: Order, st: QState, filled: int, es: seq<QueueEvent>)
    decreases es
  {
    es == [] ||
    match es[0]
    case Traded(t) =>
      var (st', fill) := CheckFill(order, order.qty - filled, t, st);
      OnlyShrinks(order, st', filled + fill, es[1..])
    case Venue(u) => Shrinks(order, st, u) && OnlyShrinks(order, OnL3(order, st, u), filled, es[1..])
  }

  // The exact position is no worse than the conservative one.
  ghost predicate NoWorse(order: Order, x: QState, xFilled: int, c: QState, cFilled: int) {
    && x.QExact? && c.QConservative? && GoodQ(x) && GoodQ(c)
    && cFilled <= xFilled <= order.qty
    && (xFilled < order.qty ==> x.qtyAhead <= c.qtyAhead)
  }

  lemma {:induction false} ShrinkKeepsNoWorse(order: Order, x: QState, u: L3Update)
    requires x.QExact? && GoodQ(x) && Shrinks(order, x, u)
    ensures OnL3(order, x, u).QExact? && OnL3(order, x, u).qtyAhead <= x.qtyAhead
  {
    FirstQtyFacts(x.ahead, u.orderId);
  }

  lemma {:induction false} ExactNeverLagsFrom(
    order: Order, x: QState, xFilled: int, c: QState, cFilled: int, es: seq<QueueEvent>)
    requires NoWorse(order, x, xFilled, c, cFilled) && OnlyShrinks(order, x, xFilled, es)
    ensures FilledAfter(order, c, cFilled, es) <= FilledAfter(order, x, xFilled, es)
    decreases es
  {
    if es != [] {
      match es[0] {
        case Traded(t) =>
          CheckFillGood(order, order.qty - xFilled, t, x);
          CheckFillGood(order, order.qty - cFilled, t, c);
          var (x', fx) := CheckFill(order, order.qty - xFilled, t, x);
          var (c', fc) := CheckFill(order, order.qty - cFilled, t, c);
          ExactNeverLagsFrom(order, x', xFilled + fx, c', cFilled + fc, es[1..]);
        case Venue(u) =>
          OnL3Good(order, x, u);
          ShrinkKeepsNoWorse(order, x, u);
          ExactNeverLagsFrom(order, OnL3(order, x, u), xFilled, OnL3(order, c, u), cFilled, es[1..]);
      }
    }
  }

  // From the same book, and whatever the prefix of trades, deletes and shrinking modifies, the
  // exact model has filled at least as much as the conservative one.
  lemma {:induction false} ExactNeverLags(order: Order, b: L3, es: seq<QueueEvent>)
    requires GoodL3(b) && order.qty >= 0
    requires OnlyShrinks(order, Register(L3Exact, order, DepthL3(b)), 0, es)
    ensures FilledAfter(order, Register(Conservative, order, DepthL3(b)), 0, es)
            <= FilledAfter(order, Register(L3Exact, order, DepthL3(b)), 0, es)
  {
    RegisterGood(L3Exact, order, DepthL3(b));
    RegisterGood(Conservative, order, DepthL3(b));
    var level := SideLevel(b, order.side, order.price);
    AheadIsPrefix(level, order.orderId);
    var ahead := Ahead(level, order.orderId);
    assert level == ahead + level[|ahead|..];
    TotalAppend(ahead, level[|ahead|..]);
    TotalPositive(level[|ahead|..]);
    ExactNeverLagsFrom(order, Register(L3Exact, order, DepthL3(b)), 0,
                       Register(Conservative, order, DepthL3(b)), 0, es);
  }
}
