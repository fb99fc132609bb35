/** Batches of several symbols: when every produced signal is still active at the end, and a batch where one is not. */
module ComposerSymbols {
  import opened Common
  import opened Domain
  import opened Cluster
  import opened ComposerModel
  import opened ComposerInvariant
  import opened ComposerBatch
  import opened ComposerSymbol
  import opened ComposerFresh
  import opened ComposerTheorems

  lemma MadeHasNew(st: State, symbol: string, batch: seq<MarketEvent>, tick: Tick, lineage: Lineage, p: Produced)
    returns (e: MarketEvent)
    requires batch != [] && OneSymbol(batch, symbol) && Inv(st)
    requires forall x :: x in batch ==> FreshIn(st, x) && OnlyHolder(batch, x)
    requires p in MadeIn(st, symbol, batch, tick, lineage)
    ensures e in batch && e in p.signal.members
  {
    var at, stolen := Stage(st, symbol, batch, tick, lineage);
    LineageRenders(at, stolen, symbol, lineage, batch, tick);
    var ep := RenderedEpisode(ConsumeLineage(at, stolen, symbol, lineage, batch, tick).produced,
                              EpisodesFor(at, symbol, lineage, batch), IdsOf(batch), p);
    var m :| m in ep.members && m.id in IdsOf(batch);
    e :| e in batch && e.id == m.id;
    EpisodeMember(at, symbol, lineage, batch, ep, m);
    assert m in AcceptedOf(st, symbol) + batch;
    assert m == e;
  }

  /** Every signal produced for a fresh batch holds one of its events and is as recent as that event. */
  lemma SymbolProducedNew(st: State, symbol: string, batch: seq<MarketEvent>, lookback: real, wall: WallClock,
                          p: Produced)
    returns (e: MarketEvent)
    requires batch != [] && OneSymbol(batch, symbol) && Inv(st)
    requires forall x :: x in batch ==> FreshIn(st, x) && OnlyHolder(batch, x)
    requires p in ConsumeSymbol(st, symbol, batch, lookback, wall).produced
    ensures e in batch && e in p.signal.members && p.signal.marketTs >= e.marketTs
  {
    var tick := SymbolTick(batch, lookback, wall);
    ProducedIsMade(st, symbol, batch, lookback, wall);
    e := MadeHasNew(st, symbol, batch, tick, if p in MadeIn(st, symbol, batch, tick, Tape) then Tape else Vwap, p);
    ConsumeSymbolKeeps(st, symbol, batch, lookback, wall);
    PlacedMember(ConsumeSymbol(st, symbol, batch, lookback, wall).st, p, e);
  }

  /** The events of the listed symbols are new to the composer. */
  ghost predicate FreshGroups(st: State, events: seq<MarketEvent>, symbols: seq<string>) {
    forall e :: e in events && e.symbol in symbols ==> FreshIn(st, e) && OnlyHolder(events, e)
  }

  lemma TailFresh(st: State, events: seq<MarketEvent>, symbols: seq<string>, lookback: real, wall: WallClock)
    requires Inv(st) && Groups(events, symbols) && symbols != [] && FreshGroups(st, events, symbols)
    ensures FreshGroups(ConsumeSymbol(st, symbols[0], OfSymbol(events, symbols[0]), lookback, wall).st, events,
                symbols[1..])
    ensures forall x :: x in OfSymbol(events, symbols[0]) ==>
              FreshIn(st, x) && OnlyHolder(OfSymbol(events, symbols[0]), x)
  {
    TailGroups(events, symbols);
    forall e | e in events && e.symbol in symbols[1..]
      ensures FreshIn(ConsumeSymbol(st, symbols[0], OfSymbol(events, symbols[0]), lookback, wall).st, e)
    {
      assert e.symbol in symbols;
      SymbolKeepsFresh(st, symbols[0], OfSymbol(events, symbols[0]), lookback, wall, e);
    }
  }

  lemma {:induction false} GroupsProducedNew(st: State, events: seq<MarketEvent>, symbols: seq<string>, lookback: real,
                                             wall: WallClock, p: Produced) returns (e: MarketEvent)
    requires Inv(st) && Groups(events, symbols) && FreshGroups(st, events, symbols)
    requires p in ConsumeGroups(st, events, symbols, lookback, wall).produced
    ensures e in events && e in p.signal.members && p.signal.marketTs >= e.marketTs
    decreases symbols
  {
    TailGroups(events, symbols);
    var batch := OfSymbol(events, symbols[0]);
    ConsumeSymbolKeeps(st, symbols[0], batch, lookback, wall);
    TailFresh(st, events, symbols, lookback, wall);
    var first := ConsumeSymbol(st, symbols[0], batch, lookback, wall);
    if p in first.produced {
      e := SymbolProducedNew(st, symbols[0], batch, lookback, wall, p);
    } else {
      e := GroupsProducedNew(first.st, events, symbols[1..], lookback, wall, p);
    }
  }

  /** Every event is within the look-back of the newest event of every symbol of the batch. */
  ghost predicate WithinAll(events: seq<MarketEvent>, lookback: real) {
    forall e, x :: e in events && x in events ==> e.marketTs >= x.marketTs - lookback
  }

  lemma WithinCutoff(events: seq<MarketEvent>, e: MarketEvent, symbol: string, lookback: real)
    requires WithinAll(events, lookback) && e in events && OfSymbol(events, symbol) != []
    ensures e.marketTs >= SymbolCutoff(events, symbol, lookback)
  {
    var newest := MaxTs(OfSymbol(events, symbol));
    var x :| x in OfSymbol(events, symbol) && x.marketTs == newest;
  }

  /** A fresh batch whose events all lie within one look-back leaves all its signals active, whatever its symbols. */
  lemma AllStayActive(st: State, events: seq<MarketEvent>, lookback: real, wall: WallClock)
    requires Inv(st) && FreshBatch(st, events) && WithinAll(events, lookback)
    ensures var out := ConsumeBatch(st, events, lookback, wall);
            forall p :: p in out.produced ==> Placed(out.st, p)
  {
    SymbolsAreGroups(events);
    var symbols := Symbols(events);
    forall p | p in ConsumeBatch(st, events, lookback, wall).produced
      ensures Placed(ConsumeBatch(st, events, lookback, wall).st, p)
    {
      var e := GroupsProducedNew(st, events, symbols, lookback, wall, p);
      forall x | x in After(symbols, p.signal.symbol)
        ensures p.signal.marketTs >= SymbolCutoff(events, x, lookback)
      {
        WithinCutoff(events, e, x, lookback);
      }
      StillActive(st, events, symbols, lookback, wall, p);
    }
  }

  // ---- A batch that loses a signal ----

  lemma {:induction false} ProducedTime(st: State, events: seq<MarketEvent>, symbols: seq<string>, lookback: real,
                                        wall: WallClock, p: Produced)
    requires Inv(st) && Groups(events, symbols)
    requires p in ConsumeGroups(st, events, symbols, lookback, wall).produced
    ensures p.signal.members != [] && p.signal.marketTs == Last(p.signal.members).marketTs
    decreases symbols
  {
    TailGroups(events, symbols);
    var batch := OfSymbol(events, symbols[0]);
    ConsumeSymbolKeeps(st, symbols[0], batch, lookback, wall);
    var first := ConsumeSymbol(st, symbols[0], batch, lookback, wall);
    if p in first.produced {
      assert Placed(first.st, p) && SignalOk(KeyOf(p.signal), first.st.active[KeyOf(p.signal)]);
    } else {
      ProducedTime(first.st, events, symbols[1..], lookback, wall, p);
    }
  }

  lemma TwoSymbols(a: MarketEvent, b: MarketEvent)
    requires a.symbol != b.symbol
    ensures Symbols([a, b]) == [a.symbol, b.symbol]
    ensures OfSymbol([a, b], a.symbol) == [a] && OfSymbol([a, b], b.symbol) == [b]
    ensures MaxTs([a]) == a.marketTs && MaxTs([b]) == b.marketTs
  {
    assert [a][..0] == [] && Symbols([a]) == [a.symbol];
    assert [a, b][..1] == [a] && [a, b] == [a] + [b];
    FilterConcat([a], [b], (e: MarketEvent) => e.symbol == a.symbol);
    FilterConcat([a], [b], (e: MarketEvent) => e.symbol == b.symbol);
    FilterOne(a, (e: MarketEvent) => e.symbol == a.symbol);
    FilterOne(b, (e: MarketEvent) => e.symbol == a.symbol);
    FilterOne(a, (e: MarketEvent) => e.symbol == b.symbol);
    FilterOne(b, (e: MarketEvent) => e.symbol == b.symbol);
  }

  lemma TwoFresh(a: MarketEvent, b: MarketEvent)
    requires a.symbol != b.symbol && a.id != b.id
    ensures FreshBatch(EMPTY, [a, b])
  {
    assert multiset([a, b]) == multiset{a, b};
    assert forall e :: e in [a, b] <==> e == a || e == b;
  }

  lemma OnlyItself(a: MarketEvent, b: MarketEvent, lookback: real, wall: WallClock, p: Produced)
    requires a.symbol != b.symbol
    requires p in ConsumeBatch(EMPTY, [a, b], lookback, wall).produced && a in p.signal.members
    ensures p.signal.symbol == a.symbol && p.signal.marketTs == a.marketTs
  {
    TwoSymbols(a, b);
    SymbolsAreGroups([a, b]);
    var symbols := Symbols([a, b]);
    GroupsMembers(EMPTY, [a, b], symbols, lookback, wall, p, a);
    ProducedTime(EMPTY, [a, b], symbols, lookback, wall, p);
    var e := Last(p.signal.members);
    GroupsMembers(EMPTY, [a, b], symbols, lookback, wall, p, e);
    assert multiset(p.signal.members)[e] > 0;
    assert AcceptedOf(EMPTY, e.symbol) + OfSymbol([a, b], e.symbol) == [a];
  }

  /** Two events of different symbols, the first behind the look-back of the second: the first one's signal is
      produced, and is no longer active when the batch is done. */
  lemma OldSymbolIsLost(a: MarketEvent, b: MarketEvent, lookback: real, wall: WallClock)
    requires a.symbol != b.symbol && a.id != b.id && lookback >= 0.0 && a.marketTs < b.marketTs - lookback
    ensures var out := ConsumeBatch(EMPTY, [a, b], lookback, wall);
            exists p :: p in out.produced && a in p.signal.members && !Placed(out.st, p)
  {
    TwoSymbols(a, b);
    TwoFresh(a, b);
    SymbolsAreGroups([a, b]);
    FreshEventOnce(EMPTY, [a, b], lookback, wall, a);
    var p :| p in ConsumeBatch(EMPTY, [a, b], lookback, wall).produced && a in p.signal.members;
    OnlyItself(a, b, lookback, wall, p);
    assert After([a.symbol, b.symbol], a.symbol) == [b.symbol];
    assert b.symbol in After([a.symbol, b.symbol], a.symbol);
    StillActive(EMPTY, [a, b], Symbols([a, b]), lookback, wall, p);
  }
}
