// The exchanges of an engine: one simulator for each symbol, created when it is first needed.
module ExchangeBoards {
  import opened Types
  import opened QueueModels
  import opened Exchanges

  class ExchangeBoard {
    const model: QueueModel
    var simulators: map<int, ExchangeSimulator>

    ghost var objects: set<object>
    ghost var view: Venues

    // The simulators share no objects, and the view shows them all but, possibly, one.
    ghost predicate ValidBut(symbol: Option<int>)
      reads this, objects
    {
      && this !in objects
      && view.Keys == simulators.Keys
      && (forall s :: s in simulators ==> simulators[s].Repr() <= objects && simulators[s].model == model)
      && (forall s, t :: s in simulators && t in simulators && s != t ==> simulators[s].Repr() !! simulators[t].Repr())
      && (forall s :: s in simulators && symbol != Some(s) ==> view[s] == simulators[s].State())
    }

    ghost predicate Valid()
      reads this, objects
    {
      ValidBut(None)
    }

    constructor (model: QueueModel)
      ensures Valid() && objects == {} && view == map[] && this.model == model
    {
      this.model := model;
      simulators, objects, view := map[], {}, map[];
    }

    method At(symbol: int, l3: bool) returns (ex: ExchangeSimulator)
      requires Valid()
      modifies this
      ensures Valid() && fresh(objects - old(objects))
      ensures symbol in simulators && ex == simulators[symbol] && ex.State() == VenueAt(old(view), symbol, l3)
      ensures view == old(view)[symbol := VenueAt(old(view), symbol, l3)]
    {
      if symbol in simulators {
        assert view == view[symbol := view[symbol]];
        return simulators[symbol];
      }
      ex := new ExchangeSimulator(l3, model);
      simulators := simulators[symbol := ex];
      objects := objects + ex.Repr();
      view := view[symbol := ex.State()];
    }

    // After one simulator has changed, all the others are as the view shows them.
    twostate lemma Others(symbol: int)
      requires old(Valid()) && symbol in simulators && unchanged(this)
      requires forall o :: o in objects && o !in simulators[symbol].Repr() ==> unchanged(o)
      ensures ValidBut(Some(symbol))
    {
      forall s | s in simulators && s != symbol ensures view[s] == simulators[s].State() {
        forall o | o in simulators[s].Repr() ensures unchanged(o) {}
      }
    }

    ghost method Show(symbol: int)
      requires symbol in simulators && ValidBut(Some(symbol))
      modifies this`view
      ensures Valid() && view == old(view)[symbol := simulators[symbol].State()]
    {
      view := view[symbol := simulators[symbol].State()];
    }

    method Trade(tick: Tick, l3: bool) returns (ex: ExchangeSimulator, reports: seq<OrderReport>)
      requires Valid()
      modifies this, objects
      ensures Valid() && fresh(objects - old(objects))
      ensures view == old(view)[tick.symbolId := ex.State()]
      ensures (ex.State(), reports) == OnTrade(VenueAt(old(view), tick.symbolId, l3), tick)
    {
      hide OnTrade;
      ex := At(tick.symbolId, l3);
      label Before:
      reports := ex.ProcessTrade(tick);
      Others@Before(tick.symbolId);
      Show(tick.symbolId);
    }

    // The order lifecycle, passed on to the simulator of the symbol.
    method AcknowledgeNew(symbol: int, id: int, l3: bool) returns (report: Option<OrderReport>)
      requires Valid()
      modifies this, objects
      ensures Valid() && fresh(objects - old(objects))
      ensures
        var before := VenueAt(old(view), symbol, l3);
        match AckNew(before, id)
        case Some((after, r)) => report == Some(r) && view == old(view)[symbol := after]
        case None => report == None && view == old(view)[symbol := before]
    {
      hide AckNew;
      ghost var v := view;
      var ex := At(symbol, l3);
      label Before:
      report := ex.AcknowledgeNew(id);
      Others@Before(symbol);
      Show(symbol);
      assert view == v[symbol := ex.State()];
    }

    // A cancel takes effect.
    method AcknowledgeCancel(symbol: int, id: int, l3: bool) returns (report: Option<OrderReport>)
      requires Valid()
      modifies this, objects
      ensures Valid() && fresh(objects - old(objects))
      ensures
        var before := VenueAt(old(view), symbol, l3);
        match AckCancel(before, id)
        case Some((after, r)) => report == Some(r) && view == old(view)[symbol := after]
        case None => report == None && view == old(view)[symbol := before]
    {
      hide AckCancel;
      ghost var v := view;
      var ex := At(symbol, l3);
      label Before:
      report := ex.AcknowledgeCancel(id);
      Others@Before(symbol);
      Show(symbol);
      assert view == v[symbol := ex.State()];
    }

    // A market order fills against the visible book.
    method FillMarketOrder(symbol: int, id: int, fallback: Option<int>, l3: bool) returns (report: Option<OrderReport>)
      requires Valid()
      modifies this, objects
      ensures Valid() && fresh(objects - old(objects))
      ensures
        var before := VenueAt(old(view), symbol, l3);
        match FillMarket(before, id, fallback)
        case Some((after, r)) => report == Some(r) && view == old(view)[symbol := after]
        case None => report == None && view == old(view)[symbol := before]
    {
      hide FillMarket;
      ghost var v := view;
      var ex := At(symbol, l3);
      label Before:
      report := ex.FillMarketImmediately(id, fallback);
      Others@Before(symbol);
      Show(symbol);
      assert view == v[symbol := ex.State()];
    }

    // What a market order could not fill is cancelled.
    method CancelRemainder(symbol: int, id: int, l3: bool) returns (report: Option<OrderReport>)
      requires Valid()
      modifies this, objects
      ensures Valid() && fresh(objects - old(objects))
      ensures
        var before := VenueAt(old(view), symbol, l3);
        match ForceCancel(before, id)
        case Some((after, r)) => report == Some(r) && view == old(view)[symbol := after]
        case None => report == None && view == old(view)[symbol := before]
    {
      hide ForceCancel;
      ghost var v := view;
      var ex := At(symbol, l3);
      label Before:
      report := ex.ForceCancelPartialFill(id);
      Others@Before(symbol);
      Show(symbol);
      assert view == v[symbol := ex.State()];
    }

    method SubmitOrder(order: Order, l3: bool)
      requires Valid()
      modifies this, objects
      ensures Valid() && fresh(objects - old(objects))
      ensures view == old(view)[order.symbolId := Submit(model, VenueAt(old(view), order.symbolId, l3), order)]
    {
      hide Submit;
      ghost var v := view;
      var ex := At(order.symbolId, l3);
      label Before:
      ex.SubmitOrder(order);
      Others@Before(order.symbolId);
      Show(order.symbolId);
      assert view == v[order.symbolId := ex.State()];
    }

    method CancelOrder(symbol: int, id: int, l3: bool) returns (ok: bool)
      requires Valid()
      modifies this, objects
      ensures Valid() && fresh(objects - old(objects))
      ensures
        var before := VenueAt(old(view), symbol, l3);
        match Cancel(before, id)
        case Some(after) => ok && view == old(view)[symbol := after]
        case None => !ok && view == old(view)[symbol := before]
    {
      hide Cancel;
      ghost var v := view;
      var ex := At(symbol, l3);
      label Before:
      ok := ex.CancelOrder(id);
      Others@Before(symbol);
      Show(symbol);
      assert view == v[symbol := ex.State()];
    }

    method RemoveOrder(symbol: int, id: int, l3: bool)
      requires Valid()
      modifies this, objects
      ensures Valid() && fresh(objects - old(objects))
      ensures view == old(view)[symbol := Remove(VenueAt(old(view), symbol, l3), id)]
    {
      hide Remove;
      ghost var v := view;
      var ex := At(symbol, l3);
      label Before:
      ex.RemoveOrder(id);
      Others@Before(symbol);
      Show(symbol);
      assert view == v[symbol := ex.State()];
    }

    method ApplyL2Update(u: L2Update, l3: bool)
      requires Valid()
      modifies this, objects
      ensures Valid() && fresh(objects - old(objects))
      ensures view == old(view)[u.symbolId := UpdateL2(VenueAt(old(view), u.symbolId, l3), u)]
    {
      hide UpdateL2;
      ghost var v := view;
      var ex := At(u.symbolId, l3);
      label Before:
      ex.ApplyL2Update(u);
      Others@Before(u.symbolId);
      Show(u.symbolId);
      assert view == v[u.symbolId := ex.State()];
    }

    method ApplyL3Update(u: L3Update, l3: bool) returns (ok: bool)
      requires Valid()
      modifies this, objects
      ensures Valid() && fresh(objects - old(objects))
      ensures ok == UpdateL3(VenueAt(old(view), u.symbolId, l3), u).Some?
      ensures ok ==> view == old(view)[u.symbolId := UpdateL3(VenueAt(old(view), u.symbolId, l3), u).value]
    {
      hide UpdateL3;
      ghost var v := view;
      var ex := At(u.symbolId, l3);
      label Before:
      ok := ex.ApplyL3Update(u);
      Others@Before(u.symbolId);
      Show(u.symbolId);
      assert view == v[u.symbolId := ex.State()];
    }

    // Is this a live market order?
    method IsMarket(symbol: int, id: int) returns (market: bool)
      requires Valid()
      ensures market
              == (symbol in view && id in view[symbol].orders && view[symbol].orders[id].order.orderType == Market)
    {
      market := symbol in simulators && id in simulators[symbol].orders
                && simulators[symbol].orders[id].order.orderType == Market;
    }

    // The terms of a live order.
    method OrderAt(symbol: int, id: int, l3: bool) returns (order: Option<Order>)
      requires Valid()
      modifies this
      ensures Valid() && fresh(objects - old(objects))
      ensures
        var before := VenueAt(old(view), symbol, l3);
        && view == old(view)[symbol := before]
        && order == if id in before.orders then Some(before.orders[id].order) else None
    {
      var ex := At(symbol, l3);
      order := if id in ex.orders then Some(ex.orders[id].order) else None;
    }

    // The mid price of an exchange that already exists.
    method MarkPriceOf(symbol: int) returns (price: Option<int>)
      requires Valid()
      ensures price == if symbol in view then MarkPrice(view[symbol]) else None
    {
      hide MarkPrice;
      if symbol in simulators {
        price := MarkPrice(simulators[symbol].State());
      } else {
        price := None;
      }
    }
  }
}
