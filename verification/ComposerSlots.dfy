/** What one symbol's batch leaves in every slot, in terms of the state before it is composed. */
module ComposerSlots {
  import opened Common
  import opened Domain
  import opened Cluster
  import opened ComposerModel
  import opened ComposerInvariant
  import opened ComposerBatch
  import opened ComposerSymbol

  ghost predicate ActiveIn(st: State, k: Key, e: MarketEvent) {
    k in st.active && e in st.active[k].members
  }

  /** An event with a direction of its own is in at most one active episode. */
  lemma DirectionalOnce(st: State, e: MarketEvent, k: Key, k2: Key)
    requires Inv(st) && e.direction != NONE && ActiveIn(st, k, e) && ActiveIn(st, k2, e)
    ensures k == k2 == Key(e.symbol, LineageOf(e.kind), e.direction)
  {
    assert SignalOk(k, st.active[k]) && SignalOk(k2, st.active[k2]);
  }

  // ---- One composition ----

  /** Composing touches its own slot, and takes the NONE episode away exactly when it takes over its identity. */
  lemma ComposedSlots(st: State, stolen: StolenSet, key: Key, members: seq<MarketEvent>, tick: Tick, k: Key,
                      e: MarketEvent)
    requires members != []
    ensures ActiveIn(ComposeEpisode(st, stolen, key, members, tick).st, k, e)
            <==> if k == key then e in members
                 else ActiveIn(st, k, e)
                      && !(Steals(st, stolen, key, tick.Cutoff()) && k == NoneKey(key.symbol, key.lineage))
  {
  }

  /** Composing brings its members home to its slot, together with the events of a NONE episode it takes over, and moves
      no other event. */
  lemma ComposedHomes(st: State, stolen: StolenSet, key: Key, members: seq<MarketEvent>, tick: Tick, id: int)
    requires members != []
    ensures var post, none := ComposeEpisode(st, stolen, key, members, tick).st, NoneKey(key.symbol, key.lineage);
            var moved := id in IdsOf(members)
                         || (Steals(st, stolen, key, tick.Cutoff()) && id in IdsOf(st.active[none].members));
            && (moved ==> id in post.home && post.home[id] == key)
            && (!moved ==> (id in post.home <==> id in st.home) && (id in st.home ==> post.home[id] == st.home[id]))
  {
  }

  /** Pruning takes the home of an event exactly when it is the slot of an episode that expires and lists the event, and
      takes the trace with the episode. */
  lemma PrunedHomes(st: State, cutoff: real, id: int)
    ensures var post := PruneActive(st, cutoff);
            && (id in post.home ==> id in st.home && post.home[id] == st.home[id])
            && (id in st.home ==>
                  (id !in post.home
                   <==> exists e: MarketEvent ::
                          && e.id == id && ActiveIn(st, st.home[id], e)
                          && st.active[st.home[id]].marketTs < cutoff))
  {
    if id in st.home && st.home[id] in st.active && id in IdsOf(st.active[st.home[id]].members) {
      var e :| e in st.active[st.home[id]].members && e.id == id;
      assert ActiveIn(st, st.home[id], e);
    }
  }

  // ---- The episodes of one lineage ----

  predicate NewFor(eps: seq<Episode>, newIds: set<int>, d: Direction) {
    exists ep :: ep in eps && ep.direction == d && HasNew(ep, newIds)
  }

  predicate FiledIn(eps: seq<Episode>, d: Direction, e: MarketEvent) {
    exists ep :: ep in eps && ep.direction == d && e in ep.members
  }

  /** Some episode with a new event opens a directional slot while the NONE slot is taken. */
  ghost predicate TakesOver(st: State, stolen: StolenSet, symbol: string, lineage: Lineage, eps: seq<Episode>,
                            newIds: set<int>)
  {
    && (symbol, lineage) !in stolen && NoneKey(symbol, lineage) in st.active
    && exists d :: d != NONE && NewFor(eps, newIds, d) && Key(symbol, lineage, d) !in st.active
  }

  ghost predicate LeftIn(st: State, stolen: StolenSet, symbol: string, lineage: Lineage, eps: seq<Episode>,
                         newIds: set<int>, d: Direction, e: MarketEvent)
  {
    if NewFor(eps, newIds, d) then FiledIn(eps, d, e)
    else
      && ActiveIn(st, Key(symbol, lineage, d), e)
      && !(d == NONE && TakesOver(st, stolen, symbol, lineage, eps, newIds))
  }

  lemma HeadOrTail(eps: seq<Episode>, newIds: set<int>, d: Direction, e: MarketEvent)
    requires eps != []
    ensures NewFor(eps, newIds, d)
            <==> (eps[0].direction == d && HasNew(eps[0], newIds)) || NewFor(eps[1..], newIds, d)
    ensures FiledIn(eps, d, e) <==> (eps[0].direction == d && e in eps[0].members) || FiledIn(eps[1..], d, e)
  {
    assert eps == [eps[0]] + eps[1..];
    assert eps[0] in eps && forall ep :: ep in eps <==> ep == eps[0] || ep in eps[1..];
  }

  lemma OneOfEach(eps: seq<Episode>, newIds: set<int>, e: MarketEvent)
    requires WellPartitioned(eps) && eps != []
    ensures !NewFor(eps[1..], newIds, eps[0].direction) && !FiledIn(eps[1..], eps[0].direction, e)
    ensures eps[0].direction == NONE ==> eps[1..] == []
  {
    TailIsPartitioned(eps);
  }

  /** Skipping an episode without new events changes nothing. */
  lemma SkipHead(st: State, stolen: StolenSet, symbol: string, lineage: Lineage, eps: seq<Episode>,
                 newIds: set<int>, d: Direction, e: MarketEvent)
    requires WellPartitioned(eps) && eps != [] && !HasNew(eps[0], newIds)
    ensures LeftIn(st, stolen, symbol, lineage, eps, newIds, d, e)
            <==> LeftIn(st, stolen, symbol, lineage, eps[1..], newIds, d, e)
  {
    OneOfEach(eps, newIds, e);
    forall d'
      ensures NewFor(eps, newIds, d') <==> NewFor(eps[1..], newIds, d')
    {
      HeadOrTail(eps, newIds, d', e);
    }
    HeadOrTail(eps, newIds, d, e);
  }

  /** Composing the head first changes nothing in what the whole list will leave. */
  lemma ComposeHeadLeaves(st: State, stolen: StolenSet, symbol: string, lineage: Lineage, eps: seq<Episode>,
                          newIds: set<int>, tick: Tick, d: Direction, e: MarketEvent)
    requires WellPartitioned(eps) && eps != [] && HasNew(eps[0], newIds) && eps[0].members != []
    requires AllLive(st, tick.Cutoff())
    ensures var c := ComposeEpisode(st, stolen, Key(symbol, lineage, eps[0].direction), eps[0].members, tick);
            LeftIn(st, stolen, symbol, lineage, eps, newIds, d, e)
            <==> LeftIn(c.st, c.stolen, symbol, lineage, eps[1..], newIds, d, e)
  {
    var key := Key(symbol, lineage, eps[0].direction);
    var c := ComposeEpisode(st, stolen, key, eps[0].members, tick);
    OneOfEach(eps, newIds, e);
    HeadOrTail(eps, newIds, d, e);
    ComposedSlots(st, stolen, key, eps[0].members, tick, Key(symbol, lineage, d), e);
    TakeOverSplits(st, stolen, symbol, lineage, eps, newIds, tick, e);
  }

  lemma TakeOverSplits(st: State, stolen: StolenSet, symbol: string, lineage: Lineage, eps: seq<Episode>,
                       newIds: set<int>, tick: Tick, e: MarketEvent)
    requires WellPartitioned(eps) && eps != [] && HasNew(eps[0], newIds) && eps[0].members != []
    requires AllLive(st, tick.Cutoff())
    ensures var key := Key(symbol, lineage, eps[0].direction);
            var c := ComposeEpisode(st, stolen, key, eps[0].members, tick);
            && (eps[0].direction != NONE ==>
                  (TakesOver(st, stolen, symbol, lineage, eps, newIds)
                   <==> Steals(st, stolen, key, tick.Cutoff())
                        || TakesOver(c.st, c.stolen, symbol, lineage, eps[1..], newIds)))
            && (eps[0].direction == NONE ==> !TakesOver(c.st, c.stolen, symbol, lineage, eps[1..], newIds))
  {
    OneOfEach(eps, newIds, e);
    forall d
      ensures NewFor(eps, newIds, d) <==> eps[0].direction == d || NewFor(eps[1..], newIds, d)
    {
      HeadOrTail(eps, newIds, d, e);
    }
  }

  /** What composing a lineage's episodes leaves in each of its slots. */
  lemma {:induction false} ComposeAllLeavesIn(st: State, stolen: StolenSet, symbol: string, lineage: Lineage,
                                              eps: seq<Episode>, newIds: set<int>, tick: Tick, d: Direction,
                                              e: MarketEvent)
    requires Inv(st) && AllLive(st, tick.Cutoff()) && Composable(eps, symbol, lineage, tick.Cutoff())
    ensures ActiveIn(ComposeAll(st, stolen, symbol, lineage, eps, newIds, tick).st, Key(symbol, lineage, d), e)
            <==> LeftIn(st, stolen, symbol, lineage, eps, newIds, d, e)
    decreases eps
  {
    if eps != [] {
      TailIsComposable(eps, symbol, lineage, tick.Cutoff());
      if !HasNew(eps[0], newIds) {
        ComposeAllLeavesIn(st, stolen, symbol, lineage, eps[1..], newIds, tick, d, e);
        SkipHead(st, stolen, symbol, lineage, eps, newIds, d, e);
      } else {
        var key := Key(symbol, lineage, eps[0].direction);
        var c := ComposeEpisode(st, stolen, key, eps[0].members, tick);
        ComposeKeeps(st, stolen, key, eps[0].members, tick);
        ComposeAllLeavesIn(c.st, c.stolen, symbol, lineage, eps[1..], newIds, tick, d, e);
        ComposeHeadLeaves(st, stolen, symbol, lineage, eps, newIds, tick, d, e);
      }
    }
  }

  // ---- One lineage of a batch ----

  /** The batch puts a new event into the lineage's episode of direction d. */
  predicate Recomposed(st: State, symbol: string, lineage: Lineage, batch: seq<MarketEvent>, d: Direction) {
    exists m :: m in ChosenFor(st, symbol, lineage, batch) && m.id in IdsOf(batch)
                && Destination(m, NoneTargetFor(st, symbol, lineage, batch)) == d
  }

  /** The batch opens a directional episode where none is active, and so takes over the active NONE episode. */
  ghost predicate TakenOver(st: State, symbol: string, lineage: Lineage, batch: seq<MarketEvent>) {
    && NoneKey(symbol, lineage) in st.active
    && exists d :: d != NONE && Recomposed(st, symbol, lineage, batch, d) && Key(symbol, lineage, d) !in st.active
  }

  /** An event composed anew goes to the slot of its own direction, a NONE event to the batch's NONE target. */
  predicate Joins(st: State, symbol: string, lineage: Lineage, batch: seq<MarketEvent>, d: Direction, e: MarketEvent) {
    && e in ChosenFor(st, symbol, lineage, batch)
    && Destination(e, NoneTargetFor(st, symbol, lineage, batch)) == d
    && Recomposed(st, symbol, lineage, batch, d)
  }

  /** An event of an active episode that is neither composed anew nor taken over stays where it is. */
  ghost predicate Stays(st: State, symbol: string, lineage: Lineage, batch: seq<MarketEvent>, d: Direction,
                        e: MarketEvent) {
    && ActiveIn(st, Key(symbol, lineage, d), e)
    && !Recomposed(st, symbol, lineage, batch, d)
    && !(d == NONE && TakenOver(st, symbol, lineage, batch))
  }

  lemma FiledIsChosen(chosen: seq<MarketEvent>, noneTarget: Direction, ep: Episode, e: MarketEvent)
    requires ep in PartitionLineageEpisodes(chosen, noneTarget) && e in ep.members
    ensures e in chosen && Destination(e, noneTarget) == ep.direction
  {
    var eps := PartitionLineageEpisodes(chosen, noneTarget);
    PartitionIsExact(chosen, noneTarget, e);
    var i :| 0 <= i < |eps| && eps[i] == ep;
    assert multiset(eps[i].members)[e] > 0;
    assert multiset(chosen)[e] > 0;
  }

  lemma FiledExactly(chosen: seq<MarketEvent>, noneTarget: Direction, d: Direction, e: MarketEvent)
    ensures FiledIn(PartitionLineageEpisodes(chosen, noneTarget), d, e)
            <==> e in chosen && Destination(e, noneTarget) == d
  {
    if e in chosen && Destination(e, noneTarget) == d {
      var ep := FiledEpisode(chosen, noneTarget, e);
      FiledIsChosen(chosen, noneTarget, ep, e);
    }
    forall ep | ep in PartitionLineageEpisodes(chosen, noneTarget) && ep.direction == d && e in ep.members
      ensures e in chosen && Destination(e, noneTarget) == d
    {
      FiledIsChosen(chosen, noneTarget, ep, e);
    }
  }

  lemma NewExactly(chosen: seq<MarketEvent>, noneTarget: Direction, newIds: set<int>, d: Direction)
    ensures NewFor(PartitionLineageEpisodes(chosen, noneTarget), newIds, d)
            <==> exists m :: m in chosen && m.id in newIds && Destination(m, noneTarget) == d
  {
    var eps := PartitionLineageEpisodes(chosen, noneTarget);
    if NewFor(eps, newIds, d) {
      var ep :| ep in eps && ep.direction == d && HasNew(ep, newIds);
      var m :| m in ep.members && m.id in newIds;
      FiledExactly(chosen, noneTarget, d, m);
    }
    if m :| m in chosen && m.id in newIds && Destination(m, noneTarget) == d {
      FiledExactly(chosen, noneTarget, d, m);
      var ep :| ep in eps && ep.direction == d && m in ep.members;
      assert HasNew(ep, newIds);
    }
  }

  lemma NoBatchNoChange(st: State, symbol: string, lineage: Lineage, batch: seq<MarketEvent>, d: Direction)
    requires InLineage(batch, lineage) == [] && IdsAgree(AcceptedOf(st, symbol) + batch)
    ensures !Recomposed(st, symbol, lineage, batch, d)
  {
    forall m | m in ChosenFor(st, symbol, lineage, batch)
      ensures m.id !in IdsOf(batch)
    {
      assert m in InLineage(AcceptedOf(st, symbol), lineage);
      forall x | x in batch
        ensures x.id != m.id
      {
        assert x in AcceptedOf(st, symbol) + batch && m in AcceptedOf(st, symbol) + batch;
        assert x !in InLineage(batch, lineage);
      }
    }
  }

  /** An id stands for one event. */
  ghost predicate IdsAgree(events: seq<MarketEvent>) {
    forall a, b :: a in events && b in events && a.id == b.id ==> a == b
  }

  /** One lineage of a batch: an event is in a slot afterwards exactly when it joins it or stays in it. */
  lemma LineageLeaves(st: State, stolen: StolenSet, symbol: string, lineage: Lineage, batch: seq<MarketEvent>,
                      tick: Tick,
                      d: Direction, e: MarketEvent)
    requires Inv(st) && AllLive(st, tick.Cutoff()) && WithinLookback(st, symbol, tick.Cutoff())
    requires IdsAgree(AcceptedOf(st, symbol) + batch) && (symbol, lineage) !in stolen
    ensures ActiveIn(ConsumeLineage(st, stolen, symbol, lineage, batch, tick).st, Key(symbol, lineage, d), e)
            <==> Joins(st, symbol, lineage, batch, d, e) || Stays(st, symbol, lineage, batch, d, e)
  {
    if InLineage(batch, lineage) == [] {
      QuietLineage(st, symbol, lineage, batch, d, e);
    } else {
      BusyLineage(st, stolen, symbol, lineage, batch, tick, d, e);
    }
  }

  lemma QuietLineage(st: State, symbol: string, lineage: Lineage, batch: seq<MarketEvent>, d: Direction, e: MarketEvent)
    requires InLineage(batch, lineage) == [] && IdsAgree(AcceptedOf(st, symbol) + batch)
    ensures ActiveIn(st, Key(symbol, lineage, d), e)
            <==> Joins(st, symbol, lineage, batch, d, e) || Stays(st, symbol, lineage, batch, d, e)
  {
    forall d'
      ensures !Recomposed(st, symbol, lineage, batch, d')
    {
      NoBatchNoChange(st, symbol, lineage, batch, d');
    }
  }

  lemma BusyLineage(st: State, stolen: StolenSet, symbol: string, lineage: Lineage, batch: seq<MarketEvent>, tick: Tick,
                    d: Direction, e: MarketEvent)
    requires Inv(st) && AllLive(st, tick.Cutoff()) && WithinLookback(st, symbol, tick.Cutoff())
    requires (symbol, lineage) !in stolen
    ensures ActiveIn(ComposeAll(st, stolen, symbol, lineage, EpisodesFor(st, symbol, lineage, batch), IdsOf(batch),
                tick).st,
                     Key(symbol, lineage, d), e)
            <==> Joins(st, symbol, lineage, batch, d, e) || Stays(st, symbol, lineage, batch, d, e)
  {
    EpisodesAreComposable(st, symbol, lineage, batch, tick.Cutoff());
    ComposeAllLeavesIn(st, stolen, symbol, lineage, EpisodesFor(st, symbol, lineage, batch), IdsOf(batch), tick, d, e);
    LeftMeaning(st, stolen, symbol, lineage, batch, d, e);
  }

  lemma LeftMeaning(st: State, stolen: StolenSet, symbol: string, lineage: Lineage, batch: seq<MarketEvent>,
                    d: Direction, e: MarketEvent)
    requires (symbol, lineage) !in stolen
    ensures LeftIn(st, stolen, symbol, lineage, EpisodesFor(st, symbol, lineage, batch), IdsOf(batch), d, e)
            <==> Joins(st, symbol, lineage, batch, d, e) || Stays(st, symbol, lineage, batch, d, e)
  {
    var chosen, noneTarget := ChosenFor(st, symbol, lineage, batch), NoneTargetFor(st, symbol, lineage, batch);
    assert EpisodesFor(st, symbol, lineage, batch) == PartitionLineageEpisodes(chosen, noneTarget);
    forall d'
      ensures NewFor(PartitionLineageEpisodes(chosen, noneTarget), IdsOf(batch), d')
              <==> Recomposed(st, symbol, lineage, batch, d')
    {
      NewExactly(chosen, noneTarget, IdsOf(batch), d');
    }
    FiledExactly(chosen, noneTarget, d, e);
  }

  // ---- Both lineages ----

  /** Everything the composer holds for a symbol is told apart by its id. */
  ghost predicate KnownById(st: State, symbol: string) {
    forall a, b :: Known(st, symbol, a) && Known(st, symbol, b) && a.id == b.id ==> a == b
  }

  ghost predicate Known(st: State, symbol: string, e: MarketEvent) {
    e in AcceptedOf(st, symbol) || exists k :: ActiveIn(st, k, e)
  }

  ghost predicate SameHome(st: State, post: State, id: int) {
    (id in post.home <==> id in st.home) && (id in st.home ==> post.home[id] == st.home[id])
  }

  /** No event of the NONE episode has this id. */
  ghost predicate NoneLacks(st: State, symbol: string, lineage: Lineage, id: int) {
    forall e :: ActiveIn(st, NoneKey(symbol, lineage), e) ==> e.id != id
  }

  lemma ComposeKeepsHome(st: State, stolen: StolenSet, key: Key, members: seq<MarketEvent>, tick: Tick, id: int)
    requires members != [] && (forall m :: m in members ==> m.id != id) && NoneLacks(st, key.symbol, key.lineage, id)
    ensures SameHome(st, ComposeEpisode(st, stolen, key, members, tick).st, id)
  {
    var none := NoneKey(key.symbol, key.lineage);
    assert id !in IdsOf(members);
    if none in st.active {
      forall m | m in st.active[none].members
        ensures m.id != id
      {
        assert ActiveIn(st, none, m);
      }
      assert id !in IdsOf(st.active[none].members);
    }
  }

  lemma ComposeKeepsLack(st: State, stolen: StolenSet, key: Key, members: seq<MarketEvent>, tick: Tick, id: int)
    requires members != [] && (forall m :: m in members ==> m.id != id) && NoneLacks(st, key.symbol, key.lineage, id)
    ensures NoneLacks(ComposeEpisode(st, stolen, key, members, tick).st, key.symbol, key.lineage, id)
  {
    var none := NoneKey(key.symbol, key.lineage);
    forall e | ActiveIn(ComposeEpisode(st, stolen, key, members, tick).st, none, e)
      ensures e.id != id
    {
      ComposedSlots(st, stolen, key, members, tick, none, e);
    }
  }

  lemma {:induction false} ComposeAllKeepsHome(st: State, stolen: StolenSet, symbol: string, lineage: Lineage,
                                               eps: seq<Episode>, newIds: set<int>, tick: Tick, id: int)
    requires WellPartitioned(eps) && NoneLacks(st, symbol, lineage, id)
    requires forall ep, m :: ep in eps && m in ep.members ==> m.id != id
    ensures SameHome(st, ComposeAll(st, stolen, symbol, lineage, eps, newIds, tick).st, id)
    decreases eps
  {
    if eps != [] {
      TailIsPartitioned(eps);
      assert eps[0] in eps && forall ep :: ep in eps[1..] ==> ep in eps;
      if !HasNew(eps[0], newIds) {
        ComposeAllKeepsHome(st, stolen, symbol, lineage, eps[1..], newIds, tick, id);
      } else {
        var key := Key(symbol, lineage, eps[0].direction);
        var c := ComposeEpisode(st, stolen, key, eps[0].members, tick);
        ComposeKeepsHome(st, stolen, key, eps[0].members, tick, id);
        ComposeKeepsLack(st, stolen, key, eps[0].members, tick, id);
        ComposeAllKeepsHome(c.st, c.stolen, symbol, lineage, eps[1..], newIds, tick, id);
      }
    }
  }

  lemma {:induction false} StolenStays(st: State, stolen: StolenSet, symbol: string, lineage: Lineage,
                                       eps: seq<Episode>, newIds: set<int>, tick: Tick)
    requires WellPartitioned(eps)
    ensures ComposeAll(st, stolen, symbol, lineage, eps, newIds, tick).stolen <= stolen + {(symbol, lineage)}
    decreases eps
  {
    if eps != [] {
      TailIsPartitioned(eps);
      if !HasNew(eps[0], newIds) {
        StolenStays(st, stolen, symbol, lineage, eps[1..], newIds, tick);
      } else {
        var c := ComposeEpisode(st, stolen, Key(symbol, lineage, eps[0].direction), eps[0].members, tick);
        StolenStays(c.st, c.stolen, symbol, lineage, eps[1..], newIds, tick);
      }
    }
  }

  /** The tape lineage moves no home of a VWAP event. */
  lemma TapeKeepsHome(st: State, symbol: string, batch: seq<MarketEvent>, tick: Tick, x: MarketEvent)
    requires Inv(st) && KnownById(st, symbol) && x in AcceptedOf(st, symbol) && LineageOf(x.kind) == Vwap
    ensures SameHome(st, ConsumeLineage(st, {}, symbol, Tape, batch, tick).st, x.id)
  {
    var eps := EpisodesFor(st, symbol, Tape, batch);
    PartitionIsWellFormed(ChosenFor(st, symbol, Tape, batch), NoneTargetFor(st, symbol, Tape, batch));
    assert Known(st, symbol, x);
    forall e | ActiveIn(st, NoneKey(symbol, Tape), e)
      ensures e.id != x.id
    {
      assert SignalOk(NoneKey(symbol, Tape), st.active[NoneKey(symbol, Tape)]);
      assert Known(st, symbol, e);
    }
    forall ep, m | ep in eps && m in ep.members
      ensures m.id != x.id
    {
      EpisodeMember(st, symbol, Tape, batch, ep, m);
      assert Known(st, symbol, m);
    }
    ComposeAllKeepsHome(st, {}, symbol, Tape, eps, IdsOf(batch), tick, x.id);
  }

  /** Two states a lineage cannot tell apart. */
  ghost predicate Alike(st: State, post: State, symbol: string, lineage: Lineage) {
    && AcceptedOf(post, symbol) == AcceptedOf(st, symbol)
    && (forall d, e :: ActiveIn(post, Key(symbol, lineage, d), e) <==> ActiveIn(st, Key(symbol, lineage, d), e))
    && (forall d :: Key(symbol, lineage, d) in post.active <==> Key(symbol, lineage, d) in st.active)
    && forall x :: x in InLineage(AcceptedOf(st, symbol), lineage) ==> SameHome(st, post, x.id)
  }

  lemma AlikeChoose(st: State, post: State, symbol: string, lineage: Lineage, batch: seq<MarketEvent>)
    requires Alike(st, post, symbol, lineage)
    ensures NoneTargetFor(post, symbol, lineage, batch) == NoneTargetFor(st, symbol, lineage, batch)
    ensures ChosenFor(post, symbol, lineage, batch) == ChosenFor(st, symbol, lineage, batch)
  {
    AlikeDirections(st, post, symbol, lineage);
    var recent := InLineage(AcceptedOf(st, symbol), lineage);
    var ids, noneTarget := IdsOf(InLineage(batch, lineage)), NoneTargetFor(st, symbol, lineage, batch);
    FilterSame(recent,
               (e: MarketEvent) => Selected(post.home, symbol, lineage, ids, noneTarget, e),
               (e: MarketEvent) => Selected(st.home, symbol, lineage, ids, noneTarget, e));
  }

  lemma AlikeDirections(st: State, post: State, symbol: string, lineage: Lineage)
    requires Alike(st, post, symbol, lineage)
    ensures LiveDirections(post, symbol, lineage) == LiveDirections(st, symbol, lineage)
  {
    forall d
      ensures d in LiveDirections(post, symbol, lineage) <==> Key(symbol, lineage, d) in post.active
      ensures d in LiveDirections(st, symbol, lineage) <==> Key(symbol, lineage, d) in st.active
    {
    }
  }

  lemma AlikeLeaves(st: State, post: State, symbol: string, lineage: Lineage, batch: seq<MarketEvent>, d: Direction,
                    e: MarketEvent)
    requires Alike(st, post, symbol, lineage)
    ensures Joins(post, symbol, lineage, batch, d, e) <==> Joins(st, symbol, lineage, batch, d, e)
    ensures Stays(post, symbol, lineage, batch, d, e) <==> Stays(st, symbol, lineage, batch, d, e)
  {
    AlikeChoose(st, post, symbol, lineage, batch);
    forall d'
      ensures Recomposed(post, symbol, lineage, batch, d') <==> Recomposed(st, symbol, lineage, batch, d')
    {
    }
  }

  lemma TapeLeavesAlike(st: State, symbol: string, batch: seq<MarketEvent>, tick: Tick)
    requires Inv(st) && AllLive(st, tick.Cutoff()) && WithinLookback(st, symbol, tick.Cutoff()) && KnownById(st, symbol)
    ensures Alike(st, ConsumeLineage(st, {}, symbol, Tape, batch, tick).st, symbol, Vwap)
  {
    ConsumeLineageKeeps(st, {}, symbol, Tape, batch, tick);
    forall x | x in InLineage(AcceptedOf(st, symbol), Vwap)
      ensures SameHome(st, ConsumeLineage(st, {}, symbol, Tape, batch, tick).st, x.id)
    {
      TapeKeepsHome(st, symbol, batch, tick, x);
    }
  }

  // ---- One symbol's batch ----

  /** The symbol's events, those the composer holds and those of the batch, are told apart by their ids. */
  ghost predicate NamedApart(st: State, symbol: string, batch: seq<MarketEvent>) {
    forall a, b :: (Known(st, symbol, a) || a in batch) && (Known(st, symbol, b) || b in batch) && a.id == b.id ==>
             a == b
  }

  lemma AdmittedAreKnown(st: State, symbol: string, batch: seq<MarketEvent>, tick: Tick, e: MarketEvent)
    requires Known(Admit(st, symbol, batch, tick), symbol, e)
    ensures Known(st, symbol, e) || e in batch
  {
    var s := Admit(st, symbol, batch, tick);
    if e in AcceptedOf(s, symbol) {
      AdmittedRecent(st, symbol, batch, tick);
      assert e in AcceptedOf(st, symbol) + batch;
    } else {
      var k :| ActiveIn(s, k, e);
      assert ActiveIn(st, k, e);
    }
  }

  lemma AdmittedApart(st: State, symbol: string, batch: seq<MarketEvent>, tick: Tick)
    requires NamedApart(st, symbol, batch)
    ensures KnownById(Admit(st, symbol, batch, tick), symbol)
    ensures IdsAgree(AcceptedOf(Admit(st, symbol, batch, tick), symbol) + batch)
  {
    var s := Admit(st, symbol, batch, tick);
    forall e | Known(s, symbol, e)
      ensures Known(st, symbol, e) || e in batch
    {
      AdmittedAreKnown(st, symbol, batch, tick, e);
    }
    forall e | e in AcceptedOf(s, symbol) + batch
      ensures Known(st, symbol, e) || e in batch
    {
      assert e in batch || Known(s, symbol, e);
    }
  }

  lemma TapeSlots(st: State, symbol: string, batch: seq<MarketEvent>, lookback: real, wall: WallClock, d: Direction,
                  e: MarketEvent)
    requires batch != [] && OneSymbol(batch, symbol) && Inv(st) && NamedApart(st, symbol, batch)
    ensures var s := Admit(st, symbol, batch, SymbolTick(batch, lookback, wall));
            ActiveIn(ConsumeSymbol(st, symbol, batch, lookback, wall).st, Key(symbol, Tape, d), e)
            <==> Joins(s, symbol, Tape, batch, d, e) || Stays(s, symbol, Tape, batch, d, e)
  {
    var tick := SymbolTick(batch, lookback, wall);
    var s := Admit(st, symbol, batch, tick);
    AdmitKeeps(st, symbol, batch, tick);
    AdmittedRecent(st, symbol, batch, tick);
    AdmittedApart(st, symbol, batch, tick);
    LineageLeaves(s, {}, symbol, Tape, batch, tick, d, e);
    ConsumeLineageKeeps(s, {}, symbol, Tape, batch, tick);
    var tape := Tape0(st, symbol, batch, tick);
    ConsumeLineageKeeps(tape.st, tape.stolen, symbol, Vwap, batch, tick);
    SameActiveIn(tape.st, Vwap0(st, symbol, batch, tick).st, symbol, Vwap, Key(symbol, Tape, d), e);
  }

  lemma SameActiveIn(pre: State, post: State, symbol: string, lineage: Lineage, k: Key, e: MarketEvent)
    requires SameOutside(pre, post, symbol, lineage) && k.lineage != lineage
    ensures ActiveIn(post, k, e) <==> ActiveIn(pre, k, e)
  {
  }

  lemma VwapSlots(st: State, symbol: string, batch: seq<MarketEvent>, lookback: real, wall: WallClock, d: Direction,
                  e: MarketEvent)
    requires batch != [] && OneSymbol(batch, symbol) && Inv(st) && NamedApart(st, symbol, batch)
    ensures var s := Admit(st, symbol, batch, SymbolTick(batch, lookback, wall));
            ActiveIn(ConsumeSymbol(st, symbol, batch, lookback, wall).st, Key(symbol, Vwap, d), e)
            <==> Joins(s, symbol, Vwap, batch, d, e) || Stays(s, symbol, Vwap, batch, d, e)
  {
    var tick := SymbolTick(batch, lookback, wall);
    var s := Admit(st, symbol, batch, tick);
    AdmitKeeps(st, symbol, batch, tick);
    AdmittedRecent(st, symbol, batch, tick);
    AdmittedApart(st, symbol, batch, tick);
    TapeLeavesAlike(s, symbol, batch, tick);
    TapeStolen(s, symbol, batch, tick);
    ConsumeLineageKeeps(s, {}, symbol, Tape, batch, tick);
    var tape := Tape0(st, symbol, batch, tick);
    LineageLeaves(tape.st, tape.stolen, symbol, Vwap, batch, tick, d, e);
    AlikeLeaves(s, tape.st, symbol, Vwap, batch, d, e);
  }

  lemma TapeStolen(st: State, symbol: string, batch: seq<MarketEvent>, tick: Tick)
    ensures (symbol, Vwap) !in ConsumeLineage(st, {}, symbol, Tape, batch, tick).stolen
  {
    PartitionIsWellFormed(ChosenFor(st, symbol, Tape, batch), NoneTargetFor(st, symbol, Tape, batch));
    StolenStays(st, {}, symbol, Tape, EpisodesFor(st, symbol, Tape, batch), IdsOf(batch), tick);
  }

  /** After a symbol's batch an event is in a slot exactly when it joined it or stayed in it. Both are read off the
      admitted state, before anything is composed: its homes, its active slots and the directions of the batch. */
  lemma BatchLeaves(st: State, symbol: string, batch: seq<MarketEvent>, lookback: real, wall: WallClock,
                    lineage: Lineage,
                    d: Direction, e: MarketEvent)
    requires batch != [] && OneSymbol(batch, symbol) && Inv(st) && NamedApart(st, symbol, batch)
    ensures var s := Admit(st, symbol, batch, SymbolTick(batch, lookback, wall));
            ActiveIn(ConsumeSymbol(st, symbol, batch, lookback, wall).st, Key(symbol, lineage, d), e)
            <==> Joins(s, symbol, lineage, batch, d, e) || Stays(s, symbol, lineage, batch, d, e)
  {
    match lineage
    case Tape => TapeSlots(st, symbol, batch, lookback, wall, d, e);
    case Vwap => VwapSlots(st, symbol, batch, lookback, wall, d, e);
  }
}
