/** One symbol's share of a batch: its events are composed, each exactly once, and everything stays consistent. */
module ComposerSymbol {
  import opened Common
  import opened Domain
  import opened Cluster
  import opened ComposerModel
  import opened ComposerInvariant
  import opened ComposerBatch

  ghost predicate OneSymbol(batch: seq<MarketEvent>, symbol: string) {
    forall e :: e in batch ==> e.symbol == symbol
  }

  /** Everything produced is in place, in pairwise different slots. */
  ghost predicate InPlace(out: Outcome) {
    && (forall p :: p in out.produced ==> Placed(out.st, p))
    && DistinctKeys(out.produced)
  }

  // ---- One lineage ----

  lemma ConsumeLineageKeeps(st: State, stolen: StolenSet, symbol: string, lineage: Lineage,
                            batch: seq<MarketEvent>, tick: Tick)
    requires Inv(st) && AllLive(st, tick.Cutoff()) && WithinLookback(st, symbol, tick.Cutoff())
    ensures var out := ConsumeLineage(st, stolen, symbol, lineage, batch, tick);
            && Inv(out.st) && AllLive(out.st, tick.Cutoff()) && Evolves(st, out.st)
            && out.st.accepted == st.accepted && SameOutside(st, out.st, symbol, lineage)
            && AllPlaced(out.st, out.produced, symbol, lineage) && DistinctKeys(out.produced)
  {
    if InLineage(batch, lineage) != [] {
      var eps := EpisodesFor(st, symbol, lineage, batch);
      EpisodesAreComposable(st, symbol, lineage, batch, tick.Cutoff());
      ComposeAllKeeps(st, stolen, symbol, lineage, eps, IdsOf(batch), tick);
      ComposeAllStaysInside(st, stolen, symbol, lineage, eps, IdsOf(batch), tick);
      ComposeAllPlaces(st, stolen, symbol, lineage, eps, IdsOf(batch), tick);
    }
  }

  function ChosenFor(st: State, symbol: string, lineage: Lineage, batch: seq<MarketEvent>): seq<MarketEvent> {
    EventsForPartition(st.home, symbol, lineage, InLineage(AcceptedOf(st, symbol), lineage),
                       InLineage(batch, lineage), NoneTargetFor(st, symbol, lineage, batch))
  }

  lemma ChosenCount(st: State, symbol: string, lineage: Lineage, batch: seq<MarketEvent>, e: MarketEvent)
    ensures multiset(ChosenFor(st, symbol, lineage, batch))[e]
            == if e in ChosenFor(st, symbol, lineage, batch) then multiset(AcceptedOf(st, symbol))[e] else 0
  {
    var recent := InLineage(AcceptedOf(st, symbol), lineage);
    var noneTarget := NoneTargetFor(st, symbol, lineage, batch);
    var ids := IdsOf(InLineage(batch, lineage));
    FilterMultiset(AcceptedOf(st, symbol), (x: MarketEvent) => LineageOf(x.kind) == lineage, e);
    FilterMultiset(recent, (x: MarketEvent) => Selected(st.home, symbol, lineage, ids, noneTarget, x), e);
  }

  lemma EpisodeMember(st: State, symbol: string, lineage: Lineage, batch: seq<MarketEvent>, ep: Episode, e: MarketEvent)
    requires ep in EpisodesFor(st, symbol, lineage, batch) && e in ep.members
    ensures ep.direction == Destination(e, NoneTargetFor(st, symbol, lineage, batch))
    ensures e in AcceptedOf(st, symbol) && LineageOf(e.kind) == lineage
    ensures multiset(ep.members)[e] == multiset(AcceptedOf(st, symbol))[e]
  {
    var noneTarget := NoneTargetFor(st, symbol, lineage, batch);
    var chosen := ChosenFor(st, symbol, lineage, batch);
    var eps := PartitionLineageEpisodes(chosen, noneTarget);
    assert eps == EpisodesFor(st, symbol, lineage, batch);
    var i :| 0 <= i < |eps| && eps[i] == ep;
    PartitionIsExact(chosen, noneTarget, e);
    assert multiset(ep.members)[e] > 0;
    assert multiset(chosen)[e] > 0;
    ChosenCount(st, symbol, lineage, batch, e);
  }

  lemma LineageRenders(st: State, stolen: StolenSet, symbol: string, lineage: Lineage, batch: seq<MarketEvent>,
                       tick: Tick)
    requires InLineage(batch, lineage) != []
    ensures RendersNew(ConsumeLineage(st, stolen, symbol, lineage, batch, tick).produced,
                       EpisodesFor(st, symbol, lineage, batch), IdsOf(batch))
  {
    var noneTarget := NoneTargetFor(st, symbol, lineage, batch);
    PartitionIsWellFormed(ChosenFor(st, symbol, lineage, batch), noneTarget);
    ComposeAllRenders(st, stolen, symbol, lineage, EpisodesFor(st, symbol, lineage, batch), IdsOf(batch), tick);
  }

  /** A member of a produced signal was filed under that signal's direction, and is there as often as it
      was accepted. */
  lemma ProducedMember(st: State, stolen: StolenSet, symbol: string, lineage: Lineage,
                       batch: seq<MarketEvent>, tick: Tick, p: Produced, e: MarketEvent)
    requires p in ConsumeLineage(st, stolen, symbol, lineage, batch, tick).produced
    requires e in p.signal.members
    ensures p.signal.direction == Destination(e, NoneTargetFor(st, symbol, lineage, batch))
    ensures e in AcceptedOf(st, symbol) && LineageOf(e.kind) == lineage
    ensures multiset(p.signal.members)[e] == multiset(AcceptedOf(st, symbol))[e]
  {
    LineageRenders(st, stolen, symbol, lineage, batch, tick);
    var made := ConsumeLineage(st, stolen, symbol, lineage, batch, tick).produced;
    var ep := RenderedEpisode(made, EpisodesFor(st, symbol, lineage, batch), IdsOf(batch), p);
    EpisodeMember(st, symbol, lineage, batch, ep, e);
  }

  lemma FreshEventIsChosen(st: State, symbol: string, lineage: Lineage, batch: seq<MarketEvent>, e: MarketEvent)
    requires e in batch && e in AcceptedOf(st, symbol) && LineageOf(e.kind) == lineage
    requires e.direction == NONE ==> e.id !in st.home
    ensures e in ChosenFor(st, symbol, lineage, batch)
  {
    assert e in InLineage(batch, lineage);
    assert e.id in IdsOf(InLineage(batch, lineage));
  }

  lemma FiledEpisode(chosen: seq<MarketEvent>, noneTarget: Direction, e: MarketEvent) returns (ep: Episode)
    requires e in chosen
    ensures ep in PartitionLineageEpisodes(chosen, noneTarget) && e in ep.members
  {
    var eps := PartitionLineageEpisodes(chosen, noneTarget);
    PartitionIsExact(chosen, noneTarget, e);
    var i :| 0 <= i < |eps| && eps[i].direction == Destination(e, noneTarget);
    ep := eps[i];
    assert multiset(ep.members)[e] > 0;
  }

  lemma FreshEventIsInEpisode(st: State, symbol: string, lineage: Lineage, batch: seq<MarketEvent>, e: MarketEvent)
    returns (ep: Episode)
    requires e in batch && e in AcceptedOf(st, symbol) && LineageOf(e.kind) == lineage
    requires e.direction == NONE ==> e.id !in st.home
    ensures ep in EpisodesFor(st, symbol, lineage, batch) && HasNew(ep, IdsOf(batch)) && e in ep.members
  {
    FreshEventIsChosen(st, symbol, lineage, batch, e);
    ep := FiledEpisode(ChosenFor(st, symbol, lineage, batch), NoneTargetFor(st, symbol, lineage, batch), e);
    assert e in ep.members && e.id in IdsOf(batch);
  }

  /** A fresh event of the batch that is inside the look-back is a member of some produced signal. */
  lemma FreshEventIsProduced(st: State, stolen: StolenSet, symbol: string, lineage: Lineage,
                             batch: seq<MarketEvent>, tick: Tick, e: MarketEvent)
    requires e in batch && e in AcceptedOf(st, symbol) && LineageOf(e.kind) == lineage
    requires e.direction == NONE ==> e.id !in st.home
    ensures exists p :: p in ConsumeLineage(st, stolen, symbol, lineage, batch, tick).produced && e in p.signal.members
  {
    assert e in InLineage(batch, lineage);
    LineageRenders(st, stolen, symbol, lineage, batch, tick);
    var ep := FreshEventIsInEpisode(st, symbol, lineage, batch, e);
    var p :| p in ConsumeLineage(st, stolen, symbol, lineage, batch, tick).produced && Renders(p, ep);
  }

  // ---- Both lineages ----

  function Tape0(st: State, symbol: string, batch: seq<MarketEvent>, tick: Tick): Outcome {
    ConsumeLineage(Admit(st, symbol, batch, tick), {}, symbol, Tape, batch, tick)
  }

  function Vwap0(st: State, symbol: string, batch: seq<MarketEvent>, tick: Tick): Outcome {
    var tape := Tape0(st, symbol, batch, tick);
    ConsumeLineage(tape.st, tape.stolen, symbol, Vwap, batch, tick)
  }

  lemma AdmittedRecent(st: State, symbol: string, batch: seq<MarketEvent>, tick: Tick)
    ensures AcceptedOf(Admit(st, symbol, batch, tick), symbol) == Recent(AcceptedOf(st, symbol) + batch, tick.Cutoff())
    ensures WithinLookback(Admit(st, symbol, batch, tick), symbol, tick.Cutoff())
  {
  }

  lemma TapeKeeps(st: State, symbol: string, batch: seq<MarketEvent>, tick: Tick)
    requires batch != [] && OneSymbol(batch, symbol) && Inv(st)
    ensures var tape := Tape0(st, symbol, batch, tick);
            && Inv(tape.st) && AllLive(tape.st, tick.Cutoff()) && WithinLookback(tape.st, symbol, tick.Cutoff())
            && Evolves(st, tape.st)
            && AllPlaced(tape.st, tape.produced, symbol, Tape) && DistinctKeys(tape.produced)
  {
    var admitted := Admit(st, symbol, batch, tick);
    AdmitKeeps(st, symbol, batch, tick);
    AdmittedRecent(st, symbol, batch, tick);
    ConsumeLineageKeeps(admitted, {}, symbol, Tape, batch, tick);
    EvolvesTransitive(st, admitted, Tape0(st, symbol, batch, tick).st);
  }

  /** The four maps stay consistent through a symbol's batch, and every produced signal is active afterwards. */
  lemma ConsumeSymbolKeeps(st: State, symbol: string, batch: seq<MarketEvent>, lookback: real, wall: WallClock)
    requires batch != [] && OneSymbol(batch, symbol) && Inv(st)
    ensures var out := ConsumeSymbol(st, symbol, batch, lookback, wall);
            && Inv(out.st) && AllLive(out.st, MaxTs(batch) - lookback) && Evolves(st, out.st)
            && InPlace(out)
            && forall p :: p in out.produced ==> p.signal.symbol == symbol
  {
    var tick := SymbolTick(batch, lookback, wall);
    TapeKeeps(st, symbol, batch, tick);
    var tape := Tape0(st, symbol, batch, tick);
    ConsumeLineageKeeps(tape.st, tape.stolen, symbol, Vwap, batch, tick);
    var vwap := Vwap0(st, symbol, batch, tick);
    EvolvesTransitive(st, tape.st, vwap.st);
    AppendKeepsPlaces(tape, vwap, symbol);
  }

  lemma AppendKeepsPlaces(tape: Outcome, vwap: Outcome, symbol: string)
    requires AllPlaced(tape.st, tape.produced, symbol, Tape) && DistinctKeys(tape.produced)
    requires AllPlaced(vwap.st, vwap.produced, symbol, Vwap) && DistinctKeys(vwap.produced)
    requires SameOutside(tape.st, vwap.st, symbol, Vwap)
    ensures InPlace(vwap.(produced := tape.produced + vwap.produced))
  {
    var all := tape.produced + vwap.produced;
    forall p | p in all
      ensures Placed(vwap.st, p)
    {
      if p in tape.produced {
        assert Placed(tape.st, p) && KeyOf(p.signal).lineage == Tape;
      }
    }
    forall i, j | 0 <= i < j < |all|
      ensures KeyOf(all[i].signal) != KeyOf(all[j].signal)
    {
      var n := |tape.produced|;
      assert all[i] in all && all[j] in all;
      if j < n {
        assert all[i] == tape.produced[i] && all[j] == tape.produced[j];
      } else if i >= n {
        assert all[i] == vwap.produced[i - n] && all[j] == vwap.produced[j - n];
      } else {
        assert all[i] == tape.produced[i] && all[j] == vwap.produced[j - n];
        assert all[i] in tape.produced && all[j] in vwap.produced;
      }
    }
  }

  lemma AdmitOnlyAges(st: State, symbol: string, batch: seq<MarketEvent>, tick: Tick, k: Key)
    requires k.symbol != symbol
    ensures OnlyAged(st, Admit(st, symbol, batch, tick), k, tick.Cutoff())
  {
  }

  ghost predicate SameFor(pre: State, post: State, k: Key) {
    && (k in post.active <==> k in pre.active)
    && (k in pre.active ==> post.active[k] == pre.active[k])
    && post.accepted == pre.accepted
  }

  lemma ChainOutside(a: State, b: State, c: State, symbol: string, k: Key)
    requires SameOutside(a, b, symbol, Tape) && SameOutside(b, c, symbol, Vwap)
    requires a.accepted == b.accepted == c.accepted
    requires k.symbol != symbol
    ensures SameFor(a, c, k)
  {
  }

  lemma LineagesStayInside(st: State, symbol: string, batch: seq<MarketEvent>, lookback: real, wall: WallClock, k: Key)
    requires batch != [] && OneSymbol(batch, symbol) && Inv(st)
    requires k.symbol != symbol
    ensures SameFor(Admit(st, symbol, batch, SymbolTick(batch, lookback, wall)),
                    ConsumeSymbol(st, symbol, batch, lookback, wall).st, k)
  {
    var tick := SymbolTick(batch, lookback, wall);
    var admitted := Admit(st, symbol, batch, tick);
    AdmitKeeps(st, symbol, batch, tick);
    AdmittedRecent(st, symbol, batch, tick);
    ConsumeLineageKeeps(admitted, {}, symbol, Tape, batch, tick);
    var tape := Tape0(st, symbol, batch, tick);
    ConsumeLineageKeeps(tape.st, tape.stolen, symbol, Vwap, batch, tick);
    ChainOutside(admitted, tape.st, Vwap0(st, symbol, batch, tick).st, symbol, k);
  }

  /** An episode of `pre` is in `post`, unchanged, exactly while it is recent enough. */
  ghost predicate OnlyAged(pre: State, post: State, k: Key, cutoff: real) {
    && (k in post.active <==> Live(pre, k, cutoff))
    && (k in post.active ==> post.active[k] == pre.active[k])
    && AcceptedOf(post, k.symbol) == AcceptedOf(pre, k.symbol)
  }

  lemma AgeThenSame(pre: State, mid: State, post: State, k: Key, cutoff: real)
    requires OnlyAged(pre, mid, k, cutoff) && SameFor(mid, post, k)
    ensures OnlyAged(pre, post, k, cutoff)
  {
  }

  /** Another symbol's episodes are touched only by the look-back. */
  lemma OtherSymbolsOnlyAge(st: State, symbol: string, batch: seq<MarketEvent>, lookback: real, wall: WallClock, k: Key)
    requires batch != [] && OneSymbol(batch, symbol) && Inv(st)
    requires k.symbol != symbol
    ensures OnlyAged(st, ConsumeSymbol(st, symbol, batch, lookback, wall).st, k, MaxTs(batch) - lookback)
  {
    var tick := SymbolTick(batch, lookback, wall);
    AdmitOnlyAges(st, symbol, batch, tick, k);
    LineagesStayInside(st, symbol, batch, lookback, wall, k);
    AgeThenSame(st, Admit(st, symbol, batch, tick), ConsumeSymbol(st, symbol, batch, lookback, wall).st, k,
                tick.Cutoff());
  }
}
