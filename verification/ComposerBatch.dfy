/** Whole batches: the invariant is kept, and every event of the batch ends up in exactly one produced signal. */
module ComposerBatch {
  import opened Common
  import opened Domain
  import opened Cluster
  import opened ComposerModel
  import opened ComposerInvariant

  /** The slot a produced signal was written to. */
  function KeyOf(s: Signal): Key
    requires s.members != []
  {
    Key(s.symbol, LineageOf(s.members[0].kind), s.direction)
  }

  ghost predicate WithinLookback(st: State, symbol: string, cutoff: real) {
    forall e :: e in AcceptedOf(st, symbol) ==> e.marketTs >= cutoff
  }

  /** Episodes that may be composed for a symbol and lineage: well partitioned, of that slot, not too old. */
  ghost predicate Composable(eps: seq<Episode>, symbol: string, lineage: Lineage, cutoff: real) {
    && WellPartitioned(eps)
    && forall ep :: ep in eps ==>
         && MembersOk(Key(symbol, lineage, ep.direction), ep.members)
         && forall e :: e in ep.members ==> e.marketTs >= cutoff
  }

  /** A produced signal sits at its own key with its own trace. */
  ghost predicate Placed(st: State, p: Produced) {
    && p.signal.members != []
    && KeyOf(p.signal) in st.active
    && st.active[KeyOf(p.signal)] == p.signal
    && p.trace == TraceOf(p.signal)
  }

  ghost predicate DistinctKeys(produced: seq<Produced>) {
    && (forall i :: 0 <= i < |produced| ==> produced[i].signal.members != [])
    && forall i, j :: 0 <= i < j < |produced| ==> KeyOf(produced[i].signal) != KeyOf(produced[j].signal)
  }

  ghost predicate InSlot(p: Produced, symbol: string, lineage: Lineage) {
    && p.signal.members != []
    && p.signal.symbol == symbol
    && LineageOf(p.signal.members[0].kind) == lineage
  }

  /** Episodes outside a symbol and lineage are left alone. */
  ghost predicate SameOutside(pre: State, post: State, symbol: string, lineage: Lineage) {
    forall k: Key :: k.symbol != symbol || k.lineage != lineage ==>
      (k in post.active <==> k in pre.active) && (k in pre.active ==> post.active[k] == pre.active[k])
  }

  // ---- Composing the episodes of one lineage ----

  lemma EpisodeIsComposable(chosen: seq<MarketEvent>, noneTarget: Direction, symbol: string, lineage: Lineage,
                            cutoff: real, ep: Episode)
    requires ep in PartitionLineageEpisodes(chosen, noneTarget)
    requires forall e :: e in chosen ==> e.symbol == symbol && LineageOf(e.kind) == lineage && e.marketTs >= cutoff
    ensures MembersOk(Key(symbol, lineage, ep.direction), ep.members)
    ensures forall e :: e in ep.members ==> e.marketTs >= cutoff
  {
    var eps := PartitionLineageEpisodes(chosen, noneTarget);
    var i :| 0 <= i < |eps| && eps[i] == ep;
    PartitionIsWellFormed(chosen, noneTarget);
    assert WellFormed(eps[i]);
    forall e | e in ep.members
      ensures e in chosen
    {
      PartitionIsExact(chosen, noneTarget, e);
      assert multiset(ep.members)[e] > 0;
      assert multiset(chosen)[e] > 0;
    }
  }

  lemma EpisodesAreComposable(st: State, symbol: string, lineage: Lineage, batch: seq<MarketEvent>, cutoff: real)
    requires AcceptedOk(st.accepted) && WithinLookback(st, symbol, cutoff)
    ensures Composable(EpisodesFor(st, symbol, lineage, batch), symbol, lineage, cutoff)
  {
    var noneTarget := NoneTargetFor(st, symbol, lineage, batch);
    var chosen := EventsForPartition(st.home, symbol, lineage, InLineage(AcceptedOf(st, symbol), lineage),
                                     InLineage(batch, lineage), noneTarget);
    PartitionIsWellFormed(chosen, noneTarget);
    forall ep | ep in PartitionLineageEpisodes(chosen, noneTarget)
      ensures MembersOk(Key(symbol, lineage, ep.direction), ep.members)
      ensures forall e :: e in ep.members ==> e.marketTs >= cutoff
    {
      EpisodeIsComposable(chosen, noneTarget, symbol, lineage, cutoff, ep);
    }
  }

  lemma TailIsComposable(eps: seq<Episode>, symbol: string, lineage: Lineage, cutoff: real)
    requires Composable(eps, symbol, lineage, cutoff) && eps != []
    ensures Composable(eps[1..], symbol, lineage, cutoff)
    ensures eps[0] in eps
  {
    TailIsPartitioned(eps);
    assert forall ep :: ep in eps[1..] ==> ep in eps;
  }

  lemma {:induction false} ComposeAllKeeps(st: State, stolen: StolenSet, symbol: string, lineage: Lineage,
                                           eps: seq<Episode>,
                        newIds: set<int>, tick: Tick)
    requires Inv(st) && AllLive(st, tick.Cutoff())
    requires Composable(eps, symbol, lineage, tick.Cutoff())
    ensures var out := ComposeAll(st, stolen, symbol, lineage, eps, newIds, tick);
            Inv(out.st) && AllLive(out.st, tick.Cutoff()) && Evolves(st, out.st)
    decreases eps
  {
    if eps != [] {
      TailIsComposable(eps, symbol, lineage, tick.Cutoff());
      if !HasNew(eps[0], newIds) {
        ComposeAllKeeps(st, stolen, symbol, lineage, eps[1..], newIds, tick);
      } else {
        var key := Key(symbol, lineage, eps[0].direction);
        var c := ComposeEpisode(st, stolen, key, eps[0].members, tick);
        ComposeKeeps(st, stolen, key, eps[0].members, tick);
        ComposeAllKeeps(c.st, c.stolen, symbol, lineage, eps[1..], newIds, tick);
        EvolvesTransitive(st, c.st, ComposeAll(c.st, c.stolen, symbol, lineage, eps[1..], newIds, tick).st);
      }
    }
  }

  lemma {:induction false} ComposeAllStaysInside(st: State, stolen: StolenSet, symbol: string, lineage: Lineage,
                               eps: seq<Episode>, newIds: set<int>, tick: Tick)
    requires WellPartitioned(eps)
    ensures var out := ComposeAll(st, stolen, symbol, lineage, eps, newIds, tick);
            out.st.accepted == st.accepted && SameOutside(st, out.st, symbol, lineage)
    decreases eps
  {
    if eps != [] {
      TailIsPartitioned(eps);
      if !HasNew(eps[0], newIds) {
        ComposeAllStaysInside(st, stolen, symbol, lineage, eps[1..], newIds, tick);
      } else {
        var key := Key(symbol, lineage, eps[0].direction);
        var c := ComposeEpisode(st, stolen, key, eps[0].members, tick);
        ComposeFrame(st, stolen, key, eps[0].members, tick);
        ComposeAllStaysInside(c.st, c.stolen, symbol, lineage, eps[1..], newIds, tick);
      }
    }
  }

  /** A directional slot that none of the episodes is for keeps its episode. */
  lemma {:induction false} ComposeAllLeaves(st: State, stolen: StolenSet, symbol: string, lineage: Lineage,
                                            eps: seq<Episode>,
                         newIds: set<int>, tick: Tick, d: Direction)
    requires WellPartitioned(eps)
    requires d != NONE || eps == []
    requires forall ep :: ep in eps ==> ep.direction != d
    ensures var out := ComposeAll(st, stolen, symbol, lineage, eps, newIds, tick);
            var k := Key(symbol, lineage, d);
            (k in out.st.active <==> k in st.active) && (k in st.active ==> out.st.active[k] == st.active[k])
    decreases eps
  {
    if eps != [] {
      assert eps == [eps[0]] + eps[1..];
      TailIsPartitioned(eps);
      if !HasNew(eps[0], newIds) {
        ComposeAllLeaves(st, stolen, symbol, lineage, eps[1..], newIds, tick, d);
      } else {
        var key := Key(symbol, lineage, eps[0].direction);
        var c := ComposeEpisode(st, stolen, key, eps[0].members, tick);
        ComposeFrame(st, stolen, key, eps[0].members, tick);
        ComposeAllLeaves(c.st, c.stolen, symbol, lineage, eps[1..], newIds, tick, d);
      }
    }
  }

  ghost predicate AllPlaced(st: State, produced: seq<Produced>, symbol: string, lineage: Lineage) {
    forall p :: p in produced ==> Placed(st, p) && InSlot(p, symbol, lineage)
  }

  ghost predicate Renders(p: Produced, ep: Episode) {
    p.signal.members == ep.members && p.signal.direction == ep.direction
  }

  /** The produced signals are exactly the episodes with a new event. */
  ghost predicate RendersNew(produced: seq<Produced>, eps: seq<Episode>, newIds: set<int>) {
    && (forall p :: p in produced ==> exists ep :: ep in eps && HasNew(ep, newIds) && Renders(p, ep))
    && (forall ep :: ep in eps && HasNew(ep, newIds) ==> exists p :: p in produced && Renders(p, ep))
  }

  lemma RenderedEpisode(produced: seq<Produced>, eps: seq<Episode>, newIds: set<int>, p: Produced) returns (ep: Episode)
    requires RendersNew(produced, eps, newIds) && p in produced
    ensures ep in eps && HasNew(ep, newIds) && Renders(p, ep)
  {
    ep :| ep in eps && HasNew(ep, newIds) && Renders(p, ep);
  }

  lemma ComposedSlot(st: State, stolen: StolenSet, key: Key, members: seq<MarketEvent>, tick: Tick)
    requires MembersOk(key, members)
    ensures var c := ComposeEpisode(st, stolen, key, members, tick);
            Placed(c.st, c.made) && InSlot(c.made, key.symbol, key.lineage) && KeyOf(c.made.signal) == key
            && c.made.signal.members == members
  {
    assert members[0] in members;
  }

  lemma {:induction false} ComposeAllRenders(st: State, stolen: StolenSet, symbol: string, lineage: Lineage,
                                             eps: seq<Episode>,
                           newIds: set<int>, tick: Tick)
    requires WellPartitioned(eps)
    ensures var out := ComposeAll(st, stolen, symbol, lineage, eps, newIds, tick);
            RendersNew(out.produced, eps, newIds)
    decreases eps
  {
    if eps == [] { return; }
    var tail := eps[1..];
    assert eps == [eps[0]] + tail;
    TailIsPartitioned(eps);
    if !HasNew(eps[0], newIds) {
      ComposeAllRenders(st, stolen, symbol, lineage, tail, newIds, tick);
    } else {
      var key := Key(symbol, lineage, eps[0].direction);
      var c := ComposeEpisode(st, stolen, key, eps[0].members, tick);
      var rest := ComposeAll(c.st, c.stolen, symbol, lineage, tail, newIds, tick);
      ComposeAllRenders(c.st, c.stolen, symbol, lineage, tail, newIds, tick);
      assert Renders(c.made, eps[0]);
      RendersCons(c.made, rest.produced, eps, newIds);
    }
  }

  lemma RendersCons(made: Produced, rest: seq<Produced>, eps: seq<Episode>, newIds: set<int>)
    requires eps != [] && HasNew(eps[0], newIds) && Renders(made, eps[0])
    requires RendersNew(rest, eps[1..], newIds)
    ensures RendersNew([made] + rest, eps, newIds)
  {
    var produced := [made] + rest;
    assert eps == [eps[0]] + eps[1..];
    forall p | p in produced
      ensures exists ep :: ep in eps && HasNew(ep, newIds) && Renders(p, ep)
    {
      if p == made {
        assert eps[0] in eps;
      } else {
        var ep :| ep in eps[1..] && HasNew(ep, newIds) && Renders(p, ep);
        assert ep in eps;
      }
    }
    forall ep | ep in eps && HasNew(ep, newIds)
      ensures exists p :: p in produced && Renders(p, ep)
    {
      if ep == eps[0] {
        assert made in produced;
      } else {
        var p :| p in rest && Renders(p, ep);
        assert p in produced;
      }
    }
  }

  lemma {:induction false} ComposeAllPlaces(st: State, stolen: StolenSet, symbol: string, lineage: Lineage,
                                            eps: seq<Episode>,
                          newIds: set<int>, tick: Tick)
    requires Composable(eps, symbol, lineage, tick.Cutoff())
    ensures var out := ComposeAll(st, stolen, symbol, lineage, eps, newIds, tick);
            AllPlaced(out.st, out.produced, symbol, lineage) && DistinctKeys(out.produced)
    decreases eps
  {
    if eps == [] { return; }
    var tail := eps[1..];
    TailIsComposable(eps, symbol, lineage, tick.Cutoff());
    TailIsPartitioned(eps);
    if !HasNew(eps[0], newIds) {
      ComposeAllPlaces(st, stolen, symbol, lineage, tail, newIds, tick);
    } else {
      var key := Key(symbol, lineage, eps[0].direction);
      var c := ComposeEpisode(st, stolen, key, eps[0].members, tick);
      ComposedSlot(st, stolen, key, eps[0].members, tick);
      ComposeAllPlaces(c.st, c.stolen, symbol, lineage, tail, newIds, tick);
      ComposeAllLeaves(c.st, c.stolen, symbol, lineage, tail, newIds, tick, eps[0].direction);
      ComposeAllRenders(c.st, c.stolen, symbol, lineage, tail, newIds, tick);
      var rest := ComposeAll(c.st, c.stolen, symbol, lineage, tail, newIds, tick);
      assert Placed(rest.st, c.made);
      ConsKeepsKeysDistinct(c.made, rest.produced, tail, newIds);
    }
  }

  lemma ConsKeepsKeysDistinct(made: Produced, rest: seq<Produced>, tail: seq<Episode>, newIds: set<int>)
    requires made.signal.members != [] && DistinctKeys(rest)
    requires RendersNew(rest, tail, newIds)
    requires forall ep :: ep in tail ==> ep.direction != made.signal.direction
    ensures DistinctKeys([made] + rest)
  {
    var produced := [made] + rest;
    forall j | 0 < j < |produced|
      ensures KeyOf(produced[j].signal) != KeyOf(made.signal)
    {
      assert produced[j] == rest[j - 1];
      assert rest[j - 1] in rest;
    }
    forall i, j | 0 < i < j < |produced|
      ensures KeyOf(produced[i].signal) != KeyOf(produced[j].signal)
    {
      assert produced[i] == rest[i - 1] && produced[j] == rest[j - 1];
    }
  }
}
