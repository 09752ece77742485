// One kind of depth per symbol: no run mixes level updates and order messages of one symbol, and each
// exchange keeps the book that its symbol's depth is for.
module DepthKinds {
  import opened Types
  import opened Ledgers
  import opened QueueModels
  import opened Exchanges
  import opened ExchangeProps
  import opened EventQueues
  import opened Feeds
  import opened EngineSpec
  import opened OrderHistories

  // ---- One operation -------------------------------------------------------------------------------------

  // The level book, and whether there is a per-order book.
  ghost predicate SameDepth(ex: Exchange, ex': Exchange) {
    ex'.book == ex.book && ex'.bookL3.Some? == ex.bookL3.Some?
  }

  lemma {:induction false} OpKeepsDepth(m: QueueModel, ex: Exchange, op: ExOp)
    requires !op.OpL2?
    ensures SameDepth(ex, Apply(m, ex, op).0)
  {
    hide FillIds, MarketQuote, Register, OnL3;
  }

  lemma {:induction false} OpsKeepDepth(m: QueueModel, ex: Exchange, ops: seq<ExOp>)
    requires forall i :: 0 <= i < |ops| ==> !ops[i].OpL2?
    ensures SameDepth(ex, RunOps(m, ex, ops).0)
    decreases ops
  {
    hide Apply;
    if ops != [] {
      OpKeepsDepth(m, ex, ops[0]);
      OpsKeepDepth(m, Apply(m, ex, ops[0]).0, ops[1..]);
    }
  }

  // ---- One event -----------------------------------------------------------------------------------------

  // The two kinds of depth exclude each other, and each exchange has the book for its own.
  ghost predicate DepthOk<S>(c: Core<S>) {
    && c.l2Symbols !! c.l3Symbols
    && forall s :: s in c.exchanges ==> KindOk(c.exchanges[s], s in c.l3Symbols)
  }

  ghost predicate KindOk(ex: Exchange, l3: bool) {
    if l3 then ex.bookL3.Some? && ex.book == BookL2.EMPTY_L2 else ex.bookL3.None?
  }

  ghost predicate SameKinds<S>(c: Core<S>, c': Core<S>) {
    c'.l2Symbols == c.l2Symbols && c'.l3Symbols == c.l3Symbols
  }

  lemma {:induction false} CallKinds<S>(env: Env<S>, c: Core<S>, ts: int, payload: Payload)
    ensures Call(env, c, ts, payload).Effect? ==> SameKinds(c, Call(env, c, ts, payload).core)
  {
    hide Commands;
  }

  lemma {:induction false} FlushKinds<S>(env: Env<S>, c: Core<S>, ts: int)
    ensures Flush(env, c, ts).Effect? ==>
              SameKinds(c, Flush(env, c, ts).core) && Flush(env, c, ts).core.exchanges == c.exchanges
  {
    hide Commands;
  }

  lemma {:induction false} NewsKinds<S>(env: Env<S>, c: Core<S>, kind: EventKind)
    requires kind.EvDelivery? || kind.EvReport? || kind.EvFunding? || kind.EvTimer?
    ensures Handle(env, c, kind).Effect? ==> SameKinds(c, Handle(env, c, kind).core)
  {
    hide Call, ExchangeAt, Remove, Fund, FundingMark;
    match kind {
      case EvDelivery(tick) =>
        CallKinds(env, c.(market := c.market[tick.symbolId := tick]), tick.tsLocal, OnTick(tick));
      case EvReport(r) => CallKinds(env, Retire(c, r), c.now, OnReport(r));
      case EvFunding(event) =>
        var mark := FundingMark(c, event.symbolId);
        CallKinds(env, if mark.Some? then c.(ledger := Fund(c.ledger, event, mark.value)) else c, c.now,
                  OnFunding(event));
      case _ =>
    }
  }

  lemma {:induction false} MarketAckKinds<S>(env: Env<S>, c: Core<S>, s: int, id: int)
    requires id in ExchangeAt(c, s).orders
    ensures MarketAck(env, c, s, id).Effect? && SameKinds(c, MarketAck(env, c, s, id).core)
  {
    hide Record, ExchangeAt, MarketQuote, ForceCancel, JobOf;
  }

  lemma {:induction false} OrderKinds<S>(env: Env<S>, c: Core<S>, kind: EventKind)
    requires kind.EvTick? || kind.EvOrder? || kind.EvAck? || kind.EvCancel? || kind.EvCancelAck?
    ensures Handle(env, c, kind).Effect? ==> SameKinds(c, Handle(env, c, kind).core)
  {
    hide OnTrade, Record, JobsOf, Submit, MarketAck, AckNew, Cancel, AckCancel, ExchangeAt, Delay, ReportPushes;
    if kind.EvAck? && kind.id in c.routes && kind.id in ExchangeAt(c, c.routes[kind.id]).orders {
      MarketAckKinds(env, c, c.routes[kind.id], kind.id);
    }
  }

  // Level updates fail exactly on symbols with order messages; order messages fail exactly on symbols with
  // level updates, where there is no per-order book, and if they are malformed.
  lemma {:induction false} DepthFailsExactly<S>(env: Env<S>, c: Core<S>, kind: EventKind)
    ensures kind.EvL2? ==> (Handle(env, c, kind).Fault? <==> kind.l2.symbolId in c.l3Symbols)
    ensures kind.EvL3? ==>
              var s := kind.l3.symbolId;
              Handle(env, c, kind).Fault? <==>
              || s in c.l2Symbols || (s in c.exchanges && c.exchanges[s].bookL3.None?)
              || kind.l3.side == NoSide || kind.l3.action == Unknown
              || (kind.l3.action == Add && kind.l3.qty <= 0) || (kind.l3.action == Modify && kind.l3.qty < 0)
  {
    hide Notify, UpdateL2, BookL3.ApplyL3;
  }

  lemma {:induction false} KindAt<S>(c: Core<S>, s: int)
    requires DepthOk(c)
    ensures s in c.exchanges ==> KindOk(c.exchanges[s], s in c.l3Symbols)
  {
  }

  lemma {:induction false} WorkKeepsDepth<S>(m: QueueModel, c: Core<S>, kind: EventKind)
    requires DepthOk(c) && !kind.EvL2? && WorkOf(c, kind).Work?
    ensures
      var w := WorkOf(c, kind);
      var l3 := w.symbol in c.l3Symbols || (kind.EvL3? && w.symbol !in c.exchanges);
      KindOk(RunOps(m, w.start, w.ops).0, l3)
  {
    var w := WorkOf(c, kind);
    assert forall i :: 0 <= i < |w.ops| ==> !w.ops[i].OpL2? by {
      hide FillMarket, ExchangeAt;
    }
    OpsKeepDepth(m, w.start, w.ops);
    hide RunOps, MarketOps, DepthOk;
    assert w.symbol in c.exchanges ==> KindOk(c.exchanges[w.symbol], w.symbol in c.l3Symbols) by {
      KindAt(c, w.symbol);
    }
  }

  lemma {:induction false} DataDepth<S>(env: Env<S>, c: Core<S>, kind: EventKind)
    requires DepthOk(c) && (kind.EvL2? || kind.EvL3?)
    ensures Handle(env, c, kind).Effect? ==> DepthOk(Handle(env, c, kind).core)
  {
    hide Notify, BookL3.ApplyL3, BookL3.Accepted, BookL2.ApplyL2;
    KindAt(c, if kind.EvL2? then kind.l2.symbolId else kind.l3.symbolId);
  }

  lemma {:induction false} HandleDepth<S>(env: Env<S>, c: Core<S>, kind: EventKind)
    requires DepthOk(c)
    ensures Handle(env, c, kind).Effect? ==> DepthOk(Handle(env, c, kind).core)
  {
    if kind.EvL2? || kind.EvL3? {
      hide Handle, DepthOk;
      DataDepth(env, c, kind);
    } else {
      hide Handle, WorkOf, RunOps, KindOk;
      HandleWork(env, c, kind);
      if WorkOf(c, kind).Work? {
        WorkKeepsDepth(env.cfg.model, c, kind);
      }
      if kind.EvDelivery? || kind.EvReport? || kind.EvFunding? || kind.EvTimer? {
        NewsKinds(env, c, kind);
      } else {
        OrderKinds(env, c, kind);
      }
    }
  }

  lemma {:induction false} StepDepth<S>(env: Env<S>, e: Engine<S>)
    requires DepthOk(e.core)
    ensures
      var o := Advance(env, e);
      o.Stepped? || o.Flushed? ==> DepthOk(o.engine.core)
  {
    hide Handle, Flush, Ingest, PopFeed, Schedule, KindOk;
    match PopFeed(env.cfg.feedLatency, e.feed) {
      case Some((event, f)) =>
        var c := e.core.(now := event.ts);
        HandleDepth(env, c, event.kind);
        var eff := Handle(env, c, event.kind);
        if eff.Effect? {
          FlushKinds(env, eff.core, eff.core.now);
        }
      case None => FlushKinds(env, e.core, e.core.now);
    }
  }

  // In every reachable state no symbol has had both kinds of depth, and an exchange has a per-order book
  // exactly if its symbol's depth comes as order messages; its level book is then empty.
  lemma {:induction false} DepthIsNeverMixed<S>(env: Env<S>, e: Engine<S>, n: nat)
    requires DepthOk(e.core) && After(env, e, n).Some?
    ensures DepthOk(After(env, e, n).value.core)
    decreases n
  {
    hide Advance, DepthOk;
    if n > 0 {
      DepthIsNeverMixed(env, e, n - 1);
      StepDepth(env, After(env, e, n - 1).value);
    }
  }

  lemma {:induction false} StartDepth<S>(
    cfg: Config, s: S, sources: seq<seq<Tick>>, l3Sources: seq<seq<L3Update>>, l3Symbols: set<int>, external: seq<Push>)
    ensures DepthOk(Start(cfg, s, sources, l3Sources, l3Symbols, external).core)
  {
  }
}
