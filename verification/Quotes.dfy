// What the books quote: at which price and for how much a market order fills, and the mark price. Stated
// over the prices and quantities that stand in the books.
module Quotes {
  import opened Types
  import opened Arith
  import opened BookL2
  import opened BookL3
  import opened Exchanges

  // ---- Market fills --------------------------------------------------------------------------------

  // The price a buyer or a seller would choose first.
  ghost predicate FirstChoice(prices: set<int>, p: int, buys: bool) {
    p in prices && forall q :: q in prices ==> if buys then p <= q else q <= p
  }

  // The report of a market order: one fill at the first choice of the per-order queues, or else of the
  // levels, for no more than stands there; or else at the fallback price; or else a rejection.
  ghost predicate FilledFrom(
    queues: Queues, levels: Levels, buys: bool, fallback: Option<int>, order: Order, r: OrderReport)
  {
    && r.filledQty == r.lastFillQty && r.remainingQty == order.qty - r.lastFillQty
    && if queues != map[] then
         && FirstChoice(queues.Keys, r.lastFillPrice, buys)
         && r.lastFillQty == Min(order.qty, Total(queues[r.lastFillPrice]))
         && FillStatus(r)
       else if levels != map[] then
         && FirstChoice(levels.Keys, r.lastFillPrice, buys)
         && r.lastFillQty == Min(order.qty, levels[r.lastFillPrice])
         && FillStatus(r)
       else if fallback.Some? then
         && r.lastFillPrice == fallback.value && r.lastFillQty == Min(order.qty, I64_MAX)
         && FillStatus(r)
       else
         r.status == Rejected && r.lastFillQty == 0 && r.reason == Some(BookEmpty)
  }

  predicate FillStatus(r: OrderReport) {
    r.reason.None? && if r.remainingQty == 0 then r.status == Filled else r.status == PartiallyFilled
  }

  function AskQueues(ex: Exchange): Queues {
    if ex.bookL3.Some? then ex.bookL3.value.asks else map[]
  }

  function BidQueues(ex: Exchange): Queues {
    if ex.bookL3.Some? then ex.bookL3.value.bids else map[]
  }

  // Buys fill from the asks, sells from the bids, and an order without a side from neither.
  ghost predicate FillsFromBook(ex: Exchange, fallback: Option<int>, order: Order, r: OrderReport) {
    match order.side
    case Buy => FilledFrom(AskQueues(ex), ex.book.asks, true, fallback, order, r)
    case Sell => FilledFrom(BidQueues(ex), ex.book.bids, false, fallback, order, r)
    case NoSide => FilledFrom(map[], map[], true, fallback, order, r)
  }

  lemma {:induction false} MarketFillsFromBook(ex: Exchange, id: int, fallback: Option<int>)
    requires id in ex.orders
    ensures FillMarket(ex, id, fallback).Some?
    ensures
      var (ex', r) := FillMarket(ex, id, fallback).value;
      var order := ex.orders[id].order;
      && FillsFromBook(ex, fallback, order, r) && r.orderId == order.orderId && r.symbolId == order.symbolId
      && ex'.orders.Keys == ex.orders.Keys && ex'.orders[id].state == r.status && ex'.orders[id].order == order
      && (r.status != Rejected ==> ex'.orders[id].filled == r.filledQty && ex'.orders[id].remaining == r.remainingQty)
      && (forall other :: other in ex.orders && other != id ==> ex'.orders[other] == ex.orders[other])
  {
    hide Total;
  }

  // ---- The mark price ------------------------------------------------------------------------------

  // The prices on the two sides of the book that is in use.
  function BidPrices(ex: Exchange): set<int> {
    if ex.bookL3.Some? then ex.bookL3.value.bids.Keys else ex.book.bids.Keys
  }

  function AskPrices(ex: Exchange): set<int> {
    if ex.bookL3.Some? then ex.bookL3.value.asks.Keys else ex.book.asks.Keys
  }

  lemma {:induction false} HalfSum(bid: int, ask: int)
    ensures Midway(bid, ask, TruncDiv(SatAdd(bid, ask), 2))
  {
  }

  // The mark lies midway between the highest bid and the lowest ask, rounded toward zero; with one side
  // empty it is the best of the other, and an empty book has none.
  lemma {:induction false} MarkIsMidway(ex: Exchange)
    ensures MarkPrice(ex).None? <==> BidPrices(ex) == {} && AskPrices(ex) == {}
    ensures BidPrices(ex) != {} && AskPrices(ex) == {} ==> FirstChoice(BidPrices(ex), MarkPrice(ex).value, false)
    ensures BidPrices(ex) == {} && AskPrices(ex) != {} ==> FirstChoice(AskPrices(ex), MarkPrice(ex).value, true)
    ensures
      BidPrices(ex) != {} && AskPrices(ex) != {} ==>
        exists bid, ask ::
          && FirstChoice(BidPrices(ex), bid, false) && FirstChoice(AskPrices(ex), ask, true)
          && Midway(bid, ask, MarkPrice(ex).value)
  {
    hide TruncDiv, SatAdd, Total;
    var bid := if ex.bookL3.Some? then BookL3.BestBid(ex.bookL3.value) else BookL2.BestBid(ex.book);
    var ask := if ex.bookL3.Some? then BookL3.BestAsk(ex.bookL3.value) else BookL2.BestAsk(ex.book);
    assert bid.Some? ==> FirstChoice(BidPrices(ex), bid.value.0, false);
    assert ask.Some? ==> FirstChoice(AskPrices(ex), ask.value.0, true);
    assert bid.None? <==> BidPrices(ex) == {};
    assert ask.None? <==> AskPrices(ex) == {};
    if bid.Some? && ask.Some? {
      HalfSum(bid.value.0, ask.value.0);
    }
  }

  // Twice the mark misses the sum of the two prices by at most one, on the side of zero.
  ghost predicate Midway(bid: int, ask: int, mark: int) {
    var sum := if bid + ask > I64_MAX then I64_MAX else if bid + ask < I64_MIN then I64_MIN else bid + ask;
    if sum >= 0 then 2 * mark <= sum <= 2 * mark + 1 else 2 * mark - 1 <= sum <= 2 * mark
  }
}
