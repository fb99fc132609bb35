/** Which episode ids the engine's ticks report as active (runtime/engine.py), and what that means for the call budget.
    A symbol's market state keeps the episodes of the symbol's last call of the composer; a tick reports those of every
    watched symbol. */
module EngineTicks {
  import opened Common
  import opened Domain
  import opened ComposerModel
  import opened ComposerInvariant
  import opened ComposerBatch
  import opened ComposerSymbol
  import opened ComposerTheorems
  import opened ComposerRuns
  import opened ComposerHistory
  import opened SidecarBudget
  import SidecarModel
  import SidecarRuns
  import Router

  /** The ids of a symbol's active episodes. */
  function SymbolIds(st: State, symbol: string): set<nat> {
    set k | k in st.active && k.symbol == symbol :: st.active[k].id
  }

  /** How many calls there were when the symbol's last one was over. */
  function LastCall(ops: seq<Op>, symbol: string): (n: nat)
    ensures n <= |ops|
  {
    if ops == [] then 0
    else if Last(ops).symbol == symbol then |ops|
    else LastCall(ops[..|ops| - 1], symbol)
  }

  /** The composer after the first n calls. */
  function At(ops: seq<Op>, lookback: real, n: nat): State
    requires ValidOps(ops) && n <= |ops|
  {
    Run(EMPTY, ops[..n], lookback)
  }

  /** When a tick reports: after so many calls, with this watchlist. */
  datatype Report = Report(calls: nat, watched: set<string>)

  ghost predicate InOrder(ops: seq<Op>, reports: seq<Report>) {
    && ValidOps(ops)
    && (forall i :: 0 <= i < |reports| ==> reports[i].calls <= |ops|)
    && forall i, j :: 0 <= i < j < |reports| ==> reports[i].calls <= reports[j].calls
  }

  /** The episodes a symbol's market state shows at a report. */
  function Shown(ops: seq<Op>, lookback: real, calls: nat, symbol: string): set<nat>
    requires ValidOps(ops) && calls <= |ops|
  {
    SymbolIds(At(ops, lookback, LastCall(ops[..calls], symbol)), symbol)
  }

  function Reported(ops: seq<Op>, lookback: real, r: Report): (ids: set<nat>)
    requires ValidOps(ops) && r.calls <= |ops|
    ensures forall id :: id in ids <==> exists s :: s in r.watched && id in Shown(ops, lookback, r.calls, s)
  {
    set s, id | s in r.watched && id in Shown(ops, lookback, r.calls, s) :: id
  }

  function ActiveSets(ops: seq<Op>, lookback: real, reports: seq<Report>): seq<set<nat>>
    requires InOrder(ops, reports)
  {
    seq(|reports|, i requires 0 <= i < |reports| => Reported(ops, lookback, reports[i]))
  }

  // ---- A symbol's view over time ----

  lemma {:induction false} LastCallGrows(ops: seq<Op>, symbol: string, m: nat, n: nat)
    requires m <= n <= |ops|
    ensures LastCall(ops[..m], symbol) <= LastCall(ops[..n], symbol)
    decreases n
  {
    if m < n {
      assert ops[..n][..n - 1] == ops[..n - 1];
      LastCallGrows(ops, symbol, m, n - 1);
    }
  }

  lemma FromTo(ops: seq<Op>, lookback: real, m: nat, n: nat)
    requires ValidOps(ops) && m <= n <= |ops|
    ensures ValidOps(ops[m..n]) && At(ops, lookback, n) == Run(At(ops, lookback, m), ops[m..n], lookback)
    ensures Inv(At(ops, lookback, m))
  {
    assert ops[..m] + ops[m..n] == ops[..n];
    RunSplit(EMPTY, ops[..m], ops[m..n], lookback);
    ReachableIsFine(ops[..m], lookback);
  }

  /** An id belongs to one symbol. */
  lemma IdHasOneSymbol(ops: seq<Op>, lookback: real, m: nat, n: nat, s: string, t: string, id: nat)
    requires ValidOps(ops) && m <= n <= |ops|
    requires id in SymbolIds(At(ops, lookback, m), s) && id in SymbolIds(At(ops, lookback, n), t)
    ensures s == t
  {
    FromTo(ops, lookback, m, n);
    var k :| k in At(ops, lookback, m).active && k.symbol == s && At(ops, lookback, m).active[k].id == id;
    var k' :| k' in At(ops, lookback, n).active && k'.symbol == t && At(ops, lookback, n).active[k'].id == id;
    IdMovesOnlyFromNone(At(ops, lookback, m), ops[m..n], lookback, k, k');
  }

  /** What a symbol stopped showing it never shows again. */
  lemma NeverShownAgain(ops: seq<Op>, lookback: real, m: nat, n: nat, p: nat, s: string, id: nat)
    requires ValidOps(ops) && m <= n <= p <= |ops|
    requires id in SymbolIds(At(ops, lookback, m), s) && id !in SymbolIds(At(ops, lookback, n), s)
    ensures id !in SymbolIds(At(ops, lookback, p), s)
  {
    FromTo(ops, lookback, m, n);
    FromTo(ops, lookback, n, p);
    var k :| k in At(ops, lookback, m).active && k.symbol == s && At(ops, lookback, m).active[k].id == id;
    if k' :| k' in At(ops, lookback, n).active && At(ops, lookback, n).active[k'].id == id {
      assert id in SymbolIds(At(ops, lookback, n), k'.symbol);
      IdHasOneSymbol(ops, lookback, m, n, s, k'.symbol, id);
    }
    RunKeeps(At(ops, lookback, m), ops[m..n], lookback);
    IdNeverReturns(At(ops, lookback, n), ops[n..p], lookback, id);
  }

  lemma ShownOnce(ops: seq<Op>, lookback: real, m: nat, n: nat, p: nat, s: string, t: string, id: nat)
    requires ValidOps(ops) && m <= n <= p <= |ops|
    requires id in Shown(ops, lookback, m, s) && id in Shown(ops, lookback, p, t)
    ensures s == t && id in Shown(ops, lookback, n, s)
  {
    LastCallGrows(ops, s, m, n);
    LastCallGrows(ops, s, n, p);
    var from, to := LastCall(ops[..m], s), LastCall(ops[..p], t);
    if from <= to {
      IdHasOneSymbol(ops, lookback, from, to, s, t, id);
    } else {
      IdHasOneSymbol(ops, lookback, to, from, t, s, id);
    }
    if id !in Shown(ops, lookback, n, s) {
      NeverShownAgain(ops, lookback, from, LastCall(ops[..n], s), to, s, id);
    }
  }

  // ---- When a tick takes an id back ----

  /** A symbol leaves the watchlist and comes back while its market state still shows the episode. */
  ghost predicate Rewatched(ops: seq<Op>, lookback: real, reports: seq<Report>, id: nat, i: nat, j: nat, k: nat,
                            s: string)
    requires InOrder(ops, reports) && i < j < k < |reports|
  {
    && s in reports[i].watched && s !in reports[j].watched && s in reports[k].watched
    && id in Shown(ops, lookback, reports[i].calls, s) && id in Shown(ops, lookback, reports[k].calls, s)
  }

  ghost predicate NeverRewatched(ops: seq<Op>, lookback: real, reports: seq<Report>, id: nat)
    requires InOrder(ops, reports)
  {
    forall i: nat, j: nat, k: nat, s :: i < j < k < |reports| ==> !Rewatched(ops, lookback, reports, id, i, j, k, s)
  }

  lemma TakenBackExactly(ops: seq<Op>, lookback: real, reports: seq<Report>, id: nat, i: nat, j: nat, k: nat)
    requires InOrder(ops, reports) && i < j < k < |reports|
    ensures TakenBack(ActiveSets(ops, lookback, reports), id, i, j, k)
            <==> exists s :: Rewatched(ops, lookback, reports, id, i, j, k, s)
  {
    var sets := ActiveSets(ops, lookback, reports);
    var m, n, p := reports[i].calls, reports[j].calls, reports[k].calls;
    if TakenBack(sets, id, i, j, k) {
      var s :| s in reports[i].watched && id in Shown(ops, lookback, m, s);
      var t :| t in reports[k].watched && id in Shown(ops, lookback, p, t);
      ShownOnce(ops, lookback, m, n, p, s, t, id);
      assert Rewatched(ops, lookback, reports, id, i, j, k, s);
    }
    if s :| Rewatched(ops, lookback, reports, id, i, j, k, s) {
      if id in sets[j] {
        var t :| t in reports[j].watched && id in Shown(ops, lookback, n, t);
        ShownOnce(ops, lookback, m, m, n, s, t, id);
      }
    }
  }

  lemma NeverReadmittedExactly(ops: seq<Op>, lookback: real, reports: seq<Report>, id: nat)
    requires InOrder(ops, reports)
    ensures NeverReadmitted(ActiveSets(ops, lookback, reports), id) <==> NeverRewatched(ops, lookback, reports, id)
  {
    var sets := ActiveSets(ops, lookback, reports);
    if NeverReadmitted(sets, id) {
      forall i: nat, j: nat, k: nat, s | i < j < k < |reports|
        ensures !Rewatched(ops, lookback, reports, id, i, j, k, s)
      {
        assert !TakenBack(sets, id, i, j, k);
        TakenBackExactly(ops, lookback, reports, id, i, j, k);
      }
    }
    if NeverRewatched(ops, lookback, reports, id) {
      forall i: nat, j: nat, k: nat | i < j < k < |reports|
        ensures !TakenBack(sets, id, i, j, k)
      {
        TakenBackExactly(ops, lookback, reports, id, i, j, k);
      }
    }
  }

  /** With the composer's ids the call budget holds per id, in every run of the sidecar with these ticks,
      exactly when no symbol leaves the watchlist and comes back while its market state still shows the id (or
      nothing is granted). */
  lemma ComposedIdsKeepPromiseExactly(cfg: SidecarModel.Config, ops: seq<Op>, lookback: real, reports: seq<Report>,
                                      id: nat)
    requires cfg.Valid() && InOrder(ops, reports)
    ensures (forall steps :: WithinBudget(cfg, steps, ActiveSets(ops, lookback, reports), id))
            <==> NeverRewatched(ops, lookback, reports, id) || cfg.budget.maxCalls <= 0
  {
    PromiseKeptExactly(cfg, ActiveSets(ops, lookback, reports), id);
    NeverReadmittedExactly(ops, lookback, reports, id);
  }

  /** No symbol leaves the watchlist and comes back. */
  ghost predicate NoneRejoins(reports: seq<Report>) {
    forall i, j, k, s :: 0 <= i < j < k < |reports| && s in reports[i].watched && s in reports[k].watched ==>
      s in reports[j].watched
  }

  /** So as long as no symbol rejoins the watchlist every id stays within its budget, one call by default. */
  lemma OneCallPerId(cfg: SidecarModel.Config, ops: seq<Op>, lookback: real, reports: seq<Report>, id: nat,
                     steps: seq<SidecarModel.Step>)
    requires cfg.Valid() && InOrder(ops, reports) && NoneRejoins(reports)
    requires SidecarModel.IsRun(cfg, SidecarModel.EMPTY, steps) && Ticks(steps) == ActiveSets(ops, lookback, reports)
    ensures SidecarRuns.Submissions(cfg, SidecarModel.EMPTY, steps, id) <= Router.Cap(cfg.budget)
    ensures cfg.budget == Router.DEFAULT_BUDGET ==>
              SidecarRuns.Submissions(cfg, SidecarModel.EMPTY, steps, id) <= 1
  {
    ComposedIdsKeepPromiseExactly(cfg, ops, lookback, reports, id);
    assert WithinBudget(cfg, steps, ActiveSets(ops, lookback, reports), id);
  }

  /** Off the watchlist for one tick. */
  ghost predicate OffForOne(reports: seq<Report>, calls: nat, s: string) {
    && |reports| == 3 && (forall i :: 0 <= i < 3 ==> reports[i].calls == calls)
    && s in reports[0].watched && s !in reports[1].watched && s in reports[2].watched
  }

  lemma OffForOneRewatches(ops: seq<Op>, lookback: real, reports: seq<Report>, calls: nat, s: string, id: nat)
    requires OffForOne(reports, calls, s) && ValidOps(ops) && calls <= |ops| && id in Shown(ops, lookback, calls, s)
    ensures InOrder(ops, reports) && !NeverRewatched(ops, lookback, reports, id)
  {
    assert reports[0].calls == calls && reports[2].calls == calls;
    assert Rewatched(ops, lookback, reports, id, 0, 1, 2, s);
  }

  /** And else it fails: whatever a symbol shows after any calls, taking it off the watchlist for one tick lets some run
      submit it more often than the budget allows. */
  lemma RewatchedIsCalledAgain(cfg: SidecarModel.Config, ops: seq<Op>, lookback: real, reports: seq<Report>, calls: nat,
                               s: string, id: nat)
    requires cfg.Valid() && cfg.budget.maxCalls >= 1
    requires OffForOne(reports, calls, s) && ValidOps(ops) && calls <= |ops| && id in Shown(ops, lookback, calls, s)
    ensures InOrder(ops, reports) && exists steps :: !WithinBudget(cfg, steps, ActiveSets(ops, lookback, reports), id)
  {
    OffForOneRewatches(ops, lookback, reports, calls, s, id);
    ComposedIdsKeepPromiseExactly(cfg, ops, lookback, reports, id);
  }

  lemma OneGroup(e: MarketEvent)
    ensures OfSymbol([e], e.symbol) == [e] && Symbols([e]) == [e.symbol]
  {
    FilterOne(e, (x: MarketEvent) => x.symbol == e.symbol);
    assert [e][..0] == [] && Symbols([e][..0]) == [] && [e][0] == e;
  }

  lemma OneOp(e: MarketEvent, wall: WallClock)
    ensures OpsOf([e], [e.symbol], wall) == [Consume(e.symbol, [e], wall)]
  {
    OneGroup(e);
  }

  lemma OneEventRun(e: MarketEvent, lookback: real, wall: WallClock)
    ensures ValidOps([Consume(e.symbol, [e], wall)])
    ensures ConsumeBatch(EMPTY, [e], lookback, wall).st == Run(EMPTY, [Consume(e.symbol, [e], wall)], lookback)
  {
    OneGroup(e);
    OneOp(e, wall);
    SymbolsHaveEvents([e]);
    OneBatchRun([e], Symbols([e]), OpsOf([e], [e.symbol], wall), lookback, wall);
  }

  lemma OneBatchRun(events: seq<MarketEvent>, symbols: seq<string>, ops: seq<Op>, lookback: real, wall: WallClock)
    requires symbols == Symbols(events) && ops == OpsOf(events, symbols, wall)
    ensures ValidOps(ops) && ConsumeBatch(EMPTY, events, lookback, wall).st == Run(EMPTY, ops, lookback)
  {
    SymbolsHaveEvents(events);
    BatchIsRun(EMPTY, events, symbols, lookback, wall);
  }

  lemma PlacedIsShown(st: State, p: Produced)
    requires Placed(st, p)
    ensures p.signal.id in SymbolIds(st, p.signal.symbol)
  {
    assert KeyOf(p.signal) in st.active;
  }

  /** A symbol that shows an episode: one call with one event is enough. */
  lemma OneCallShows(e: MarketEvent, lookback: real, wall: WallClock) returns (id: nat)
    requires lookback >= 0.0
    ensures var ops := [Consume(e.symbol, [e], wall)];
            ValidOps(ops) && id in Shown(ops, lookback, |ops|, e.symbol)
  {
    var ops := [Consume(e.symbol, [e], wall)];
    OneEventRun(e, lookback, wall);
    id := OneEventShows(e, lookback, wall);
    assert ops[..1] == ops && LastCall(ops, e.symbol) == 1;
  }

  lemma OneEventShows(e: MarketEvent, lookback: real, wall: WallClock) returns (id: nat)
    requires lookback >= 0.0
    ensures id in SymbolIds(ConsumeBatch(EMPTY, [e], lookback, wall).st, e.symbol)
  {
    assert ValidOps([]) && Run(EMPTY, [], lookback) == EMPTY;
    ConsumeNeverFails([], e, lookback, wall);
    EmptyIsFine();
    OneSymbolStaysActive(EMPTY, [e], lookback, wall, e.symbol);
    var p :| p in ConsumeBatch(EMPTY, [e], lookback, wall).produced && e in p.signal.members;
    PlacedIsShown(ConsumeBatch(EMPTY, [e], lookback, wall).st, p);
    id := p.signal.id;
  }
}
