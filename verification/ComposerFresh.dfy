/** Freshness of event ids, and the exactly-once composition of one symbol's fresh events. */
module ComposerFresh {
  import opened Common
  import opened Domain
  import opened Cluster
  import opened ComposerModel
  import opened ComposerInvariant
  import opened ComposerBatch
  import opened ComposerSymbol

  /** No other event the composer knows of carries e's id. */
  ghost predicate FreshIn(st: State, e: MarketEvent) {
    && e.id !in st.home
    && (forall k, m :: k in st.active && m in st.active[k].members ==> m.id != e.id)
    && (forall s, m :: s in st.accepted && m in st.accepted[s] && m.id == e.id ==> m == e)
  }

  ghost predicate NoneHasId(members: seq<MarketEvent>, id: int) {
    forall m :: m in members ==> m.id != id
  }

  lemma ComposeKeepsFresh(st: State, stolen: StolenSet, key: Key, members: seq<MarketEvent>, tick: Tick, e: MarketEvent)
    requires FreshIn(st, e) && members != [] && NoneHasId(members, e.id)
    ensures FreshIn(ComposeEpisode(st, stolen, key, members, tick).st, e)
  {
    var none := NoneKey(key.symbol, key.lineage);
    if Steals(st, stolen, key, tick.Cutoff()) {
      assert e.id !in IdsOf(st.active[none].members);
    }
    assert e.id !in IdsOf(members);
  }

  lemma {:induction false} ComposeAllKeepsFresh(st: State, stolen: StolenSet, symbol: string, lineage: Lineage,
                                                eps: seq<Episode>,
                             newIds: set<int>, tick: Tick, e: MarketEvent)
    requires FreshIn(st, e) && WellPartitioned(eps)
    requires forall ep :: ep in eps ==> NoneHasId(ep.members, e.id)
    ensures FreshIn(ComposeAll(st, stolen, symbol, lineage, eps, newIds, tick).st, e)
    decreases eps
  {
    if eps != [] {
      assert eps[0] in eps;
      assert forall ep :: ep in eps[1..] ==> ep in eps;
      TailIsPartitioned(eps);
      if !HasNew(eps[0], newIds) {
        ComposeAllKeepsFresh(st, stolen, symbol, lineage, eps[1..], newIds, tick, e);
      } else {
        var key := Key(symbol, lineage, eps[0].direction);
        var c := ComposeEpisode(st, stolen, key, eps[0].members, tick);
        ComposeKeepsFresh(st, stolen, key, eps[0].members, tick, e);
        ComposeAllKeepsFresh(c.st, c.stolen, symbol, lineage, eps[1..], newIds, tick, e);
      }
    }
  }

  lemma LineageKeepsFresh(st: State, stolen: StolenSet, symbol: string, lineage: Lineage,
                          batch: seq<MarketEvent>, tick: Tick, e: MarketEvent)
    requires FreshIn(st, e) && AcceptedOk(st.accepted)
    requires e.symbol != symbol || LineageOf(e.kind) != lineage
    ensures FreshIn(ConsumeLineage(st, stolen, symbol, lineage, batch, tick).st, e)
  {
    var eps := EpisodesFor(st, symbol, lineage, batch);
    PartitionIsWellFormed(ChosenFor(st, symbol, lineage, batch), NoneTargetFor(st, symbol, lineage, batch));
    forall ep | ep in eps
      ensures NoneHasId(ep.members, e.id)
    {
      forall m | m in ep.members
        ensures m.id != e.id
      {
        EpisodeMember(st, symbol, lineage, batch, ep, m);
      }
    }
    ComposeAllKeepsFresh(st, stolen, symbol, lineage, eps, IdsOf(batch), tick, e);
  }

  ghost predicate OnlyHolder(batch: seq<MarketEvent>, e: MarketEvent) {
    forall m :: m in batch && m.id == e.id ==> m == e
  }

  lemma AdmitKeepsFresh(st: State, symbol: string, batch: seq<MarketEvent>, tick: Tick, e: MarketEvent)
    requires FreshIn(st, e) && OnlyHolder(batch, e)
    ensures FreshIn(Admit(st, symbol, batch, tick), e)
  {
    var post := Admit(st, symbol, batch, tick);
    forall s, m | s in post.accepted && m in post.accepted[s] && m.id == e.id
      ensures m == e
    {
      if s == symbol {
        assert m in AcceptedOf(st, symbol) || m in batch;
      }
    }
  }

  lemma SymbolKeepsFresh(st: State, symbol: string, batch: seq<MarketEvent>, lookback: real, wall: WallClock,
                         e: MarketEvent)
    requires batch != [] && OneSymbol(batch, symbol) && Inv(st)
    requires FreshIn(st, e) && OnlyHolder(batch, e) && e.symbol != symbol
    ensures FreshIn(ConsumeSymbol(st, symbol, batch, lookback, wall).st, e)
  {
    var tick := SymbolTick(batch, lookback, wall);
    var admitted := Admit(st, symbol, batch, tick);
    AdmitKeepsFresh(st, symbol, batch, tick, e);
    AdmitKeeps(st, symbol, batch, tick);
    AdmittedRecent(st, symbol, batch, tick);
    ConsumeLineageKeeps(admitted, {}, symbol, Tape, batch, tick);
    LineageKeepsFresh(admitted, {}, symbol, Tape, batch, tick, e);
    var tape := Tape0(st, symbol, batch, tick);
    LineageKeepsFresh(tape.st, tape.stolen, symbol, Vwap, batch, tick, e);
  }

  // ---- Exactly once ----

  /** The state and the earlier signals against which e's own lineage is composed. */
  lemma Stage(st: State, symbol: string, batch: seq<MarketEvent>, tick: Tick, lineage: Lineage)
    returns (at: State, stolen: StolenSet)
    requires batch != [] && OneSymbol(batch, symbol) && Inv(st)
    ensures ConsumeLineage(at, stolen, symbol, lineage, batch, tick)
            == if lineage == Tape then Tape0(st, symbol, batch, tick) else Vwap0(st, symbol, batch, tick)
    ensures AcceptedOf(at, symbol) == Recent(AcceptedOf(st, symbol) + batch, tick.Cutoff())
    ensures forall e :: FreshIn(st, e) && OnlyHolder(batch, e) && LineageOf(e.kind) == lineage ==> e.id !in at.home
  {
    var admitted := Admit(st, symbol, batch, tick);
    AdmitKeeps(st, symbol, batch, tick);
    AdmittedRecent(st, symbol, batch, tick);
    forall e | FreshIn(st, e) && OnlyHolder(batch, e)
      ensures FreshIn(admitted, e)
    {
      AdmitKeepsFresh(st, symbol, batch, tick, e);
    }
    if lineage == Tape {
      at, stolen := admitted, {};
    } else {
      ConsumeLineageKeeps(admitted, {}, symbol, Tape, batch, tick);
      var tape := Tape0(st, symbol, batch, tick);
      at, stolen := tape.st, tape.stolen;
      forall e | FreshIn(st, e) && OnlyHolder(batch, e) && LineageOf(e.kind) == lineage
        ensures e.id !in at.home
      {
        LineageKeepsFresh(admitted, {}, symbol, Tape, batch, tick, e);
      }
    }
  }

  function MadeIn(st: State, symbol: string, batch: seq<MarketEvent>, tick: Tick, lineage: Lineage): seq<Produced> {
    (if lineage == Tape then Tape0(st, symbol, batch, tick) else Vwap0(st, symbol, batch, tick)).produced
  }

  /** A member of a produced signal determines the signal's direction, was inside the look-back, and is counted as
      accepted. */
  lemma MadeMember(st: State, symbol: string, batch: seq<MarketEvent>, tick: Tick, lineage: Lineage, p: Produced,
                   e: MarketEvent)
    requires batch != [] && OneSymbol(batch, symbol) && Inv(st)
    requires p in MadeIn(st, symbol, batch, tick, lineage) && e in p.signal.members
    ensures LineageOf(e.kind) == lineage && e.marketTs >= tick.Cutoff()
    ensures multiset(p.signal.members)[e] == multiset(AcceptedOf(st, symbol) + batch)[e]
    ensures forall q :: q in MadeIn(st, symbol, batch, tick, lineage) && e in q.signal.members
                        ==> q.signal.direction == p.signal.direction
  {
    var at, stolen := Stage(st, symbol, batch, tick, lineage);
    ProducedMember(at, stolen, symbol, lineage, batch, tick, p, e);
    FilterMultiset(AcceptedOf(st, symbol) + batch, (x: MarketEvent) => x.marketTs >= tick.Cutoff(), e);
    forall q | q in MadeIn(st, symbol, batch, tick, lineage) && e in q.signal.members
      ensures q.signal.direction == p.signal.direction
    {
      ProducedMember(at, stolen, symbol, lineage, batch, tick, q, e);
    }
  }

  lemma MadeFresh(st: State, symbol: string, batch: seq<MarketEvent>, tick: Tick, e: MarketEvent) returns (p: Produced)
    requires batch != [] && OneSymbol(batch, symbol) && Inv(st)
    requires e in batch && FreshIn(st, e) && OnlyHolder(batch, e) && e.marketTs >= tick.Cutoff()
    ensures p in MadeIn(st, symbol, batch, tick, LineageOf(e.kind)) && e in p.signal.members
  {
    var lineage := LineageOf(e.kind);
    var at, stolen := Stage(st, symbol, batch, tick, lineage);
    assert e in AcceptedOf(st, symbol) + batch;
    FreshEventIsProduced(at, stolen, symbol, lineage, batch, tick, e);
    p :| p in MadeIn(st, symbol, batch, tick, lineage) && e in p.signal.members;
  }

  lemma ProducedIsMade(st: State, symbol: string, batch: seq<MarketEvent>, lookback: real, wall: WallClock)
    requires batch != []
    ensures var tick := SymbolTick(batch, lookback, wall);
            ConsumeSymbol(st, symbol, batch, lookback, wall).produced
            == MadeIn(st, symbol, batch, tick, Tape) + MadeIn(st, symbol, batch, tick, Vwap)
  {
  }

  /** No event is a member of two signals produced for a symbol. */
  lemma SymbolDisjoint(st: State, symbol: string, batch: seq<MarketEvent>, lookback: real, wall: WallClock,
                       p: Produced, q: Produced, e: MarketEvent)
    requires batch != [] && OneSymbol(batch, symbol) && Inv(st)
    requires p in ConsumeSymbol(st, symbol, batch, lookback, wall).produced && e in p.signal.members
    requires q in ConsumeSymbol(st, symbol, batch, lookback, wall).produced && e in q.signal.members
    ensures p.signal.direction == q.signal.direction
    ensures e.marketTs >= MaxTs(batch) - lookback
    ensures multiset(p.signal.members)[e] == multiset(AcceptedOf(st, symbol) + batch)[e]
  {
    var tick := SymbolTick(batch, lookback, wall);
    ProducedIsMade(st, symbol, batch, lookback, wall);
    var lp := if p in MadeIn(st, symbol, batch, tick, Tape) then Tape else Vwap;
    var lq := if q in MadeIn(st, symbol, batch, tick, Tape) then Tape else Vwap;
    MadeMember(st, symbol, batch, tick, lp, p, e);
    MadeMember(st, symbol, batch, tick, lq, q, e);
  }

  /** A fresh event is composed exactly when it is inside the symbol's look-back. */
  lemma SymbolComposes(st: State, symbol: string, batch: seq<MarketEvent>, lookback: real, wall: WallClock,
                       e: MarketEvent)
    requires batch != [] && OneSymbol(batch, symbol) && Inv(st)
    requires e in batch && FreshIn(st, e) && OnlyHolder(batch, e)
    ensures (exists p :: p in ConsumeSymbol(st, symbol, batch, lookback, wall).produced && e in p.signal.members)
            <==> e.marketTs >= MaxTs(batch) - lookback
  {
    var produced := ConsumeSymbol(st, symbol, batch, lookback, wall).produced;
    ProducedIsMade(st, symbol, batch, lookback, wall);
    if p :| p in produced && e in p.signal.members {
      SymbolDisjoint(st, symbol, batch, lookback, wall, p, p, e);
    }
    if e.marketTs >= MaxTs(batch) - lookback {
      var p := MadeFresh(st, symbol, batch, SymbolTick(batch, lookback, wall), e);
      assert p in produced;
    }
  }
}
