// The PnL history of a whole run: with every fill kept it is the profits recomputed from the stored
// fills, each less its fee, in order, with only the funding payments in between.
module PnlHistory {
  import opened Types
  import opened Arith
  import opened Accounts
  import opened Stats
  import opened Ledgers
  import opened EventQueues
  import opened Feeds
  import opened EngineSpec
  import opened EngineClock
  import opened Lifecycle
  import opened LifecycleSteps
  import opened LifecycleRun
  import opened ReportStreams
  import opened EngineMoney
  import opened EngineInvariant
  import opened EngineGuarantees
  import opened SymbolLedger

  // ---- The parts of the history ------------------------------------------------------------------------

  // For each stored fill its recomputed profit, less its fee.
  function TradeEntries(fills: seq<TradeFill>): History {
    PnlDeltasLength(fills);
    var deltas := PnlDeltas(fills);
    seq(|fills|, i requires 0 <= i < |fills| => (fills[i].tsExchange, Clamp(deltas[i].pnl - fills[i].fee)))
  }

  // The history takes from both sequences, each in its order, and from nothing else.
  ghost predicate Merged(h: History, a: History, b: History)
    decreases |h|
  {
    if h == [] then a == [] && b == []
    else
      || (a != [] && a[|a| - 1] == h[|h| - 1] && Merged(h[..|h| - 1], a[..|a| - 1], b))
      || (b != [] && b[|b| - 1] == h[|h| - 1] && Merged(h[..|h| - 1], a, b[..|b| - 1]))
  }

  function Closings(deltas: seq<PnlDelta>): nat {
    if deltas == [] then 0
    else Closings(deltas[..|deltas| - 1]) + if deltas[|deltas| - 1].pnl != 0 then 1 else 0
  }

  // The history is made of the stored fills and of what was paid, and the summary has counted the
  // fills that realised a profit or a loss.
  ghost predicate HistoryOk(l: Ledger, paid: History) {
    && l.log.mode == All
    && Merged(l.log.history, TradeEntries(l.log.fills), paid)
    && l.log.summary.closedTrades == Closings(PnlDeltas(l.log.fills))
  }

  // ---- Ledger steps ----------------------------------------------------------------------------------------

  lemma {:induction false} MergeMore(h: History, a: History, b: History, more: History)
    requires Merged(h, a, b)
    ensures Merged(h + more, a + more, b)
    decreases |more|
  {
    if more == [] {
      assert h + more == h && a + more == a;
    } else {
      var init := more[..|more| - 1];
      MergeMore(h, a, b, init);
      assert (h + more)[..|h + more| - 1] == h + init && (a + more)[..|a + more| - 1] == a + init;
    }
  }

  lemma {:induction false} MergePaid(h: History, a: History, b: History, p: (int, int))
    requires Merged(h, a, b)
    ensures Merged(h + [p], a, b + [p])
  {
    assert (h + [p])[..|h + [p]| - 1] == h && (b + [p])[..|b + [p]| - 1] == b;
  }

  // Later fills do not change what earlier ones are worth.
  lemma {:induction false} EntriesGrow(fills: seq<TradeFill>, more: seq<TradeFill>)
    ensures TradeEntries(fills + more)[..|fills|] == TradeEntries(fills)
  {
    PnlDeltasLength(fills);
    PnlDeltasLength(fills + more);
    forall i | 0 <= i < |fills| ensures PnlDeltas(fills + more)[i] == PnlDeltas(fills)[i] {
      PnlDeltasAt(fills + more, i);
      PnlDeltasAt(fills, i);
      assert (fills + more)[..i] == fills[..i];
    }
    hide PnlDeltas;
  }

  lemma {:induction false} ClosingsCounted(log: LogState, jobs: seq<FillJob>)
    requires log.mode == All && log.summary.lots == LotsAfter(log.fills)
    requires log.summary.closedTrades == Closings(PnlDeltas(log.fills))
    ensures LogFills(log, jobs).summary.closedTrades == Closings(PnlDeltas(LogFills(log, jobs).fills))
  {
    hide LotsAfter, FillGain, HoldingPeriod, BookFill;
    LogFillsReplay(log, jobs);
    if jobs != [] {
      var init, f := jobs[..|jobs| - 1], jobs[|jobs| - 1].fill;
      ClosingsCounted(log, init);
      LogFillsReplay(log, init);
      var before, after := LogFills(log, init), LogFills(log, jobs);
      assert after.fills == before.fills + [f];
      assert after.fills[..|after.fills| - 1] == before.fills;
      var deltas := PnlDeltas(after.fills);
      assert deltas[..|deltas| - 1] == PnlDeltas(before.fills);
    }
  }

  lemma {:induction false} RecordCounts(l: Ledger, jobs: seq<FillJob>)
    requires l.log.mode == All && BooksAgree(l)
    requires l.log.summary.closedTrades == Closings(PnlDeltas(l.log.fills))
    ensures
      var l' := Record(l, jobs);
      && l'.log.mode == All && l'.log.fills == l.log.fills + FillsOf(jobs)
      && l'.log.summary.closedTrades == Closings(PnlDeltas(l'.log.fills))
  {
    LogFillsReplay(l.log, jobs);
    ClosingsCounted(l.log, jobs);
    SettleFrame(l.(log := LogFills(l.log, jobs)), jobs);
    hide LogFills, SettleAll, PnlDeltas, LotsAfter, Closings;
  }

  lemma {:induction false} EntryAt(fills: seq<TradeFill>, i: nat)
    requires i < |fills|
    ensures |PnlDeltas(fills)| == |TradeEntries(fills)| == |fills|
    ensures TradeEntries(fills)[i] == (fills[i].tsExchange, Clamp(PnlDeltas(fills)[i].pnl - fills[i].fee))
  {
    PnlDeltasLength(fills);
    hide PnlDeltas, Clamp;
  }

  lemma {:induction false} EntriesLength(fills: seq<TradeFill>)
    ensures |TradeEntries(fills)| == |fills|
  {
    hide PnlDeltas;
  }

  lemma {:induction false} Longer(h: History, h': History, entries: History, n: nat)
    requires n <= |entries| && |h'| == |h| + (|entries| - n) && h <= h'
    requires forall k :: |h| <= k < |h'| ==> h'[k] == entries[n + k - |h|]
    ensures h' == h + entries[n..] && entries == entries[..n] + entries[n..]
  {
  }

  // The i-th entry that recording adds to the history is that of the i-th new fill.
  lemma {:induction false} RecordEntry(l: Ledger, jobs: seq<FillJob>, i: nat)
    requires l.log.mode == All && BooksAgree(l) && GoodJobs(jobs) && i < |jobs|
    requires Record(l, jobs).log.fills == l.log.fills + FillsOf(jobs)
    ensures
      var (h, h', entries) := (l.log.history, Record(l, jobs).log.history, TradeEntries(Record(l, jobs).log.fills));
      && |h'| == |h| + |jobs| && h <= h' && |entries| == |l.log.fills| + |jobs|
      && h'[|h| + i] == entries[|l.log.fills| + i]
  {
    hide Record, PnlDeltas, BooksAgree, GoodJobs, TradeEntries, Clamp, FillsOf;
    SettledHistory(l, jobs);
    var fills' := Record(l, jobs).log.fills;
    EntryAt(fills', |l.log.fills| + i);
    assert fills'[|l.log.fills| + i] == FillsOf(jobs)[i] == jobs[i].fill;
  }

  // What recording adds to the history are the entries of the new fills.
  lemma {:induction false} RecordEntries(l: Ledger, jobs: seq<FillJob>)
    requires l.log.mode == All && BooksAgree(l) && GoodJobs(jobs)
    requires Record(l, jobs).log.fills == l.log.fills + FillsOf(jobs)
    ensures
      var l' := Record(l, jobs);
      var entries := TradeEntries(l'.log.fills);
      && |entries| == |l.log.fills| + |jobs| && l'.log.history == l.log.history + entries[|l.log.fills|..]
      && entries == entries[..|l.log.fills|] + entries[|l.log.fills|..]
  {
    hide Record, BooksAgree, GoodJobs, TradeEntries, FillsOf;
    var h, h', entries := l.log.history, Record(l, jobs).log.history, TradeEntries(Record(l, jobs).log.fills);
    EntriesLength(Record(l, jobs).log.fills);
    if jobs == [] {
      RecordNothing(l);
    } else {
      RecordEntry(l, jobs, 0);
    }
    forall k | |h| <= k < |h'| ensures h'[k] == entries[|l.log.fills| + k - |h|] {
      RecordEntry(l, jobs, k - |h|);
    }
    Longer(h, h', entries, |l.log.fills|);
  }

  lemma {:induction false} RecordHistory(l: Ledger, jobs: seq<FillJob>, paid: History)
    requires HistoryOk(l, paid) && BooksAgree(l) && GoodJobs(jobs)
    ensures HistoryOk(Record(l, jobs), paid)
  {
    RecordCounts(l, jobs);
    RecordEntries(l, jobs);
    hide Record, PnlDeltas, Closings, Merged, BooksAgree, GoodJobs, TradeEntries;
    var fills := l.log.fills;
    EntriesGrow(fills, FillsOf(jobs));
    var entries := TradeEntries(fills + FillsOf(jobs));
    MergeMore(l.log.history, TradeEntries(fills), paid, entries[|fills|..]);
  }

  lemma {:induction false} FundHistory(l: Ledger, event: FundingEvent, mark: int, paid: History)
    requires HistoryOk(l, paid)
    ensures HistoryOk(Fund(l, event, mark), paid + [(event.tsExchange, FundingPnl(l.account, event, mark))])
  {
    hide TradeEntries, PnlDeltas, Closings, Merged, FundingPnl, SatAdd;
    MergePaid(l.log.history, TradeEntries(l.log.fills), paid, (event.tsExchange, FundingPnl(l.account, event, mark)));
  }

  // ---- Iterations -----------------------------------------------------------------------------------------

  // The payment an event books: one if it is funding and a mark price is known.
  function PaymentBy<S>(c: Core<S>, kind: EventKind): History {
    if !kind.EvFunding? then []
    else
      match FundingMark(c, kind.funding.symbolId)
      case None => []
      case Some(mark) => [(kind.funding.tsExchange, FundingPnl(c.ledger.account, kind.funding, mark))]
  }

  // Everything paid in the first n iterations.
  function Payments<S>(env: Env<S>, e: Engine<S>, n: nat): History {
    if n == 0 then []
    else
      match After(env, e, n - 1)
      case None => []
      case Some(last) =>
        Payments(env, e, n - 1)
        + match Advance(env, last)
          case Stepped(_, event, _) => PaymentBy(last.core, event.kind)
          case _ => []
  }

  lemma {:induction false} EventHistory<S>(env: Env<S>, c: Core<S>, e: Event, q: Queue, paid: History)
    requires LifeAt(c, [e] + q) && MoneyOk(c.ledger) && HistoryOk(c.ledger, paid) && Handle(env, c, e.kind).Effect?
    ensures HistoryOk(Handle(env, c, e.kind).core.ledger, paid + PaymentBy(c, e.kind))
  {
    EventLedger(env, c, e.kind);
    EventJobsGood(env, c, e, q);
    assert BooksAgree(c.ledger);
    hide Handle, Record, Fund, FundingMark, EventJobs, LifeAt, HistoryOk, BooksAgree;
    assert paid + [] == paid;
    if e.kind.EvFunding? {
      var mark := FundingMark(c, e.kind.funding.symbolId);
      if mark.Some? {
        FundHistory(c.ledger, e.kind.funding, mark.value, paid);
      }
    } else {
      RecordHistory(c.ledger, EventJobs(env, c, e.kind), paid);
    }
  }

  lemma {:induction false} FinishLedger<S>(env: Env<S>, eff: Effect<S>, f: Feed, event: Event)
    requires eff.Effect?
    ensures Finish(env, eff, f, event).Stepped? ==> Finish(env, eff, f, event).engine.core.ledger == eff.core.ledger
  {
    FlushLedger(env, eff.core, eff.core.now);
    hide Flush;
  }

  lemma {:induction false} SamePayment<S>(c: Core<S>, c': Core<S>, kind: EventKind)
    requires c'.ledger == c.ledger && c'.truth == c.truth && c'.exchanges == c.exchanges
    ensures PaymentBy(c', kind) == PaymentBy(c, kind)
  {
  }

  lemma {:induction false} StepHistory<S>(env: Env<S>, history: seq<OrderReport>, e: Engine<S>, paid: History)
    requires GoodConfig(env.cfg) && Sound(env.cfg, history, e) && HistoryOk(e.core.ledger, paid)
    ensures
      match Advance(env, e)
      case Stepped(next, event, _) => HistoryOk(next.core.ledger, paid + PaymentBy(e.core, event.kind))
      case Flushed(next, _) => HistoryOk(next.core.ledger, paid)
      case _ => true
  {
    hide Handle, Finish, Flush, Sound, HistoryOk, PopFeed, Ingest, FundingMark;
    match PopFeed(env.cfg.feedLatency, e.feed) {
      case Some((event, f)) =>
        var c := e.core.(now := event.ts);
        PopSound(env, history, e);
        ProcessSteps(env, e.core, f, event);
        SamePayment(e.core, c, event.kind);
        hide PaymentBy, Room, LifeOk, Streams, LevelOk;
        var eff := Handle(env, c, event.kind);
        if eff.Effect? {
          EventHistory(env, c, event, f.queue, paid);
          FinishLedger(env, eff, f, event);
        }
      case None => FlushLedger(env, e.core, e.core.now);
    }
  }

  // ---- Whole runs -----------------------------------------------------------------------------------------

  // In every reachable state the PnL history is the recomputed profit of every stored fill less its
  // fee, in order, and the funding payments booked so far, in order; and the closed trades are the
  // fills whose recomputed profit is not zero.
  lemma {:induction false} HistoryIsRecomputed<S(!new)>(env: Env<S>, e: Engine<S>, n: nat)
    requires Reaches(env, e, n) && HistoryOk(e.core.ledger, [])
    ensures HistoryOk(After(env, e, n).value.core.ledger, Payments(env, e, n))
    decreases n
  {
    hide Advance, Sound, GoodStrategy, HistoryOk, ReportsDelivered, PaymentBy;
    if n > 0 {
      HistoryIsRecomputed(env, e, n - 1);
      RunKeepsSound(env, e, n - 1);
      StepHistory(env, ReportsDelivered(env, e, n - 1), After(env, e, n - 1).value, Payments(env, e, n - 1));
      assert Payments(env, e, n - 1) + [] == Payments(env, e, n - 1);
    }
  }

  lemma {:induction false} StartHistory<S>(
    cfg: Config, s: S, sources: seq<seq<Tick>>, l3Sources: seq<seq<L3Update>>, l3Symbols: set<int>,
    external: seq<Push>)
    requires cfg.logMode == All
    ensures HistoryOk(Start(cfg, s, sources, l3Sources, l3Symbols, external).core.ledger, [])
  {
  }

  // In every reachable state, for every symbol whose fills clamp no register: the account's
  // position is the sum of the fills, and the profit recomputed from the log differs from cash flow
  // plus the position's book value by no more than the remainders that truncation dropped.
  lemma {:induction false} AccountMatchesCash<S(!new)>(env: Env<S>, e: Engine<S>, n: nat, symbol: int)
    requires Reaches(env, e, n) && HistoryOk(e.core.ledger, [])
    requires AvgCost.Unclamped(SymbolFills(After(env, e, n).value.core.ledger.log.fills, symbol))
    ensures
      var l := After(env, e, n).value.core.ledger;
      CashAgrees(l.account, l.log.fills, symbol)
  {
    RunKeepsSound(env, e, n);
    HistoryIsRecomputed(env, e, n);
    var l := After(env, e, n).value.core.ledger;
    assert MoneyOk(l);
    hide After, ReportsDelivered, Payments, Sound, Merged, CashAgrees;
    BooksAgreeWithCash(l, symbol);
  }
}
