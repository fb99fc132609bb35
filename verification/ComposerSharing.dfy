/** When a NONE event sits in two active episodes at once: exactly when, over a whole batch, and two runs that do it. */
module ComposerSharing {
  import opened Common
  import opened Domain
  import opened Cluster
  import opened ComposerModel
  import opened ComposerInvariant
  import opened ComposerBatch
  import opened ComposerSymbol
  import opened ComposerSlots
  import opened ComposerRuns

  ghost predicate Two(p: Direction -> bool) {
    exists d, d2 :: d != d2 && p(d) && p(d2)
  }

  ghost predicate Both(p: Direction -> bool, q: Direction -> bool) {
    exists d, d2 :: p(d) && q(d2)
  }

  ghost function Here(st: State, symbol: string, lineage: Lineage, e: MarketEvent): Direction -> bool {
    d => ActiveIn(st, Key(symbol, lineage, d), e)
  }

  ghost function Joining(s: State, symbol: string, lineage: Lineage, batch: seq<MarketEvent>, e: MarketEvent)
    : Direction -> bool
  {
    d => Joins(s, symbol, lineage, batch, d, e)
  }

  ghost function Staying(s: State, symbol: string, lineage: Lineage, batch: seq<MarketEvent>, e: MarketEvent)
    : Direction -> bool
  {
    d => Stays(s, symbol, lineage, batch, d, e)
  }

  /** The event is in two active episodes of its lineage. */
  ghost predicate Shared(st: State, symbol: string, lineage: Lineage, e: MarketEvent) {
    Two(Here(st, symbol, lineage, e))
  }

  /** In every reachable state an event with a direction of its own is in at most one active episode. */
  lemma DirectionalNeverShared(ops: seq<Op>, lookback: real, e: MarketEvent, k: Key, k2: Key)
    requires ValidOps(ops) && e.direction != NONE
    requires ActiveIn(Run(EMPTY, ops, lookback), k, e) && ActiveIn(Run(EMPTY, ops, lookback), k2, e)
    ensures k == k2
  {
    ReachableIsFine(ops, lookback);
    DirectionalOnce(Run(EMPTY, ops, lookback), e, k, k2);
  }

  lemma TwoExactly(here: Direction -> bool, joins: Direction -> bool, stays: Direction -> bool)
    requires forall d :: here(d) <==> joins(d) || stays(d)
    requires forall d, d2 :: joins(d) && joins(d2) ==> d == d2
    requires forall d, d2 :: joins(d) && stays(d2) ==> d != d2
    ensures Two(here) <==> Both(joins, stays) || Two(stays)
  {
    if d, d2 :| d != d2 && here(d) && here(d2) {
      assert joins(d) || stays(d);
      assert joins(d2) || stays(d2);
    }
    if d, d2 :| joins(d) && stays(d2) {
      assert d != d2 && here(d) && here(d2);
    }
    if d, d2 :| d != d2 && stays(d) && stays(d2) {
      assert here(d) && here(d2);
    }
  }

  lemma JoinsOne(s: State, symbol: string, lineage: Lineage, batch: seq<MarketEvent>, e: MarketEvent, d: Direction,
                 d2: Direction)
    ensures Joins(s, symbol, lineage, batch, d, e) && Joins(s, symbol, lineage, batch, d2, e) ==> d == d2
    ensures Joins(s, symbol, lineage, batch, d, e) && Stays(s, symbol, lineage, batch, d2, e) ==> d != d2
  {
  }

  /** The event joins an episode while it stays in another, or it stays in two. */
  ghost predicate SharedFrom(s: State, symbol: string, lineage: Lineage, batch: seq<MarketEvent>, e: MarketEvent) {
    || Both(Joining(s, symbol, lineage, batch, e), Staying(s, symbol, lineage, batch, e))
    || Two(Staying(s, symbol, lineage, batch, e))
  }

  lemma JoinsOrStays(s: State, symbol: string, lineage: Lineage, batch: seq<MarketEvent>, e: MarketEvent,
                     here: Direction -> bool)
    requires forall d :: here(d) <==> Joins(s, symbol, lineage, batch, d, e) || Stays(s, symbol, lineage, batch, d, e)
    ensures Two(here) <==> SharedFrom(s, symbol, lineage, batch, e)
  {
    var joins, stays := Joining(s, symbol, lineage, batch, e), Staying(s, symbol, lineage, batch, e);
    forall d, d2
      ensures joins(d) && joins(d2) ==> d == d2
      ensures joins(d) && stays(d2) ==> d != d2
    {
      JoinsOne(s, symbol, lineage, batch, e, d, d2);
    }
    TwoExactly(here, joins, stays);
  }

  /** After a batch an event is shared exactly when it joins one episode while it stays in another, or stays in two.
      Both are read off the admitted state: its homes, its active slots and the directions of the batch. */
  lemma SharedExactly(st: State, symbol: string, batch: seq<MarketEvent>, lookback: real, wall: WallClock,
                      lineage: Lineage,
                      e: MarketEvent)
    requires batch != [] && OneSymbol(batch, symbol) && Inv(st) && NamedApart(st, symbol, batch)
    ensures Shared(ConsumeSymbol(st, symbol, batch, lookback, wall).st, symbol, lineage, e)
            <==> SharedFrom(Admit(st, symbol, batch, SymbolTick(batch, lookback, wall)), symbol, lineage, batch, e)
  {
    var here := Here(ConsumeSymbol(st, symbol, batch, lookback, wall).st, symbol, lineage, e);
    forall d
      ensures here(d) <==>
              || Joins(Admit(st, symbol, batch, SymbolTick(batch, lookback, wall)), symbol, lineage, batch, d, e)
              || Stays(Admit(st, symbol, batch, SymbolTick(batch, lookback, wall)), symbol, lineage, batch, d, e)
    {
      BatchLeaves(st, symbol, batch, lookback, wall, lineage, d, e);
    }
    JoinsOrStays(Admit(st, symbol, batch, SymbolTick(batch, lookback, wall)), symbol, lineage, batch, e, here);
  }

  /** Which held NONE events a batch composes anew: those at home in the target's slot, and, for a directional target,
      those at home in the NONE slot. */
  lemma ChosenByHome(s: State, symbol: string, lineage: Lineage, batch: seq<MarketEvent>, e: MarketEvent)
    requires e.direction == NONE && e.id in s.home
    ensures var target := NoneTargetFor(s, symbol, lineage, batch);
            e in ChosenFor(s, symbol, lineage, batch)
            <==> && e in AcceptedOf(s, symbol) && LineageOf(e.kind) == lineage
                 && (s.home[e.id] == Key(symbol, lineage, target)
                     || (s.home[e.id] == NoneKey(symbol, lineage) && target != NONE))
  {
    assert LineageOf(e.kind) == lineage && e in AcceptedOf(s, symbol) ==>
             e in InLineage(AcceptedOf(s, symbol), lineage);
  }

  // ---- The common case: an upward or downward batch pulls events out of the NONE episode ----

  /** All directional events of the batch's lineage have direction d, and one of them is within the look-back. */
  ghost predicate Pulls(s: State, symbol: string, lineage: Lineage, batch: seq<MarketEvent>, d: Direction) {
    && d != NONE && DirectionsOf(InLineage(batch, lineage)) == {d}
    && exists m :: m in batch && LineageOf(m.kind) == lineage && m.direction == d && m in AcceptedOf(s, symbol)
  }

  lemma PullsToward(s: State, symbol: string, lineage: Lineage, batch: seq<MarketEvent>, d: Direction)
    requires Pulls(s, symbol, lineage, batch, d)
    ensures NoneTargetFor(s, symbol, lineage, batch) == d
  {
    NoneTargetMeaning(InLineage(batch, lineage), InLineage(AcceptedOf(s, symbol), lineage),
                      LiveDirections(s, symbol, lineage), d);
  }

  lemma PullsRecompose(s: State, symbol: string, lineage: Lineage, batch: seq<MarketEvent>, d: Direction)
    requires Pulls(s, symbol, lineage, batch, d) && NoneTargetFor(s, symbol, lineage, batch) == d
    ensures Recomposed(s, symbol, lineage, batch, d)
  {
    var m :| m in batch && LineageOf(m.kind) == lineage && m.direction == d && m in AcceptedOf(s, symbol);
    assert m in InLineage(AcceptedOf(s, symbol), lineage) && m.id in IdsOf(batch);
    assert m in ChosenFor(s, symbol, lineage, batch);
  }

  lemma PullsOnly(s: State, symbol: string, lineage: Lineage, batch: seq<MarketEvent>, d: Direction, d2: Direction)
    requires Pulls(s, symbol, lineage, batch, d) && NoneTargetFor(s, symbol, lineage, batch) == d
    requires IdsAgree(AcceptedOf(s, symbol) + batch) && Recomposed(s, symbol, lineage, batch, d2)
    ensures d2 == d
  {
    var x := RecomposedBy(s, symbol, lineage, batch, d2);
    NewIsOfBatch(AcceptedOf(s, symbol), batch, x);
    OnlyDirection(batch, lineage, x, d);
  }

  lemma RecomposedBy(s: State, symbol: string, lineage: Lineage, batch: seq<MarketEvent>, d: Direction)
    returns (x: MarketEvent)
    requires Recomposed(s, symbol, lineage, batch, d)
    ensures x in AcceptedOf(s, symbol) && LineageOf(x.kind) == lineage && x.id in IdsOf(batch)
    ensures Destination(x, NoneTargetFor(s, symbol, lineage, batch)) == d
  {
    x :| x in ChosenFor(s, symbol, lineage, batch) && x.id in IdsOf(batch)
         && Destination(x, NoneTargetFor(s, symbol, lineage, batch)) == d;
    ChosenIsHeld(s, symbol, lineage, batch, x);
  }

  lemma OnlyDirection(batch: seq<MarketEvent>, lineage: Lineage, x: MarketEvent, d: Direction)
    requires DirectionsOf(InLineage(batch, lineage)) == {d} && x in batch && LineageOf(x.kind) == lineage
    ensures Destination(x, d) == d
  {
    assert x in InLineage(batch, lineage);
    assert x.direction != NONE ==> x.direction in DirectionsOf(InLineage(batch, lineage));
  }

  lemma ChosenIsHeld(s: State, symbol: string, lineage: Lineage, batch: seq<MarketEvent>, x: MarketEvent)
    requires x in ChosenFor(s, symbol, lineage, batch)
    ensures x in AcceptedOf(s, symbol) && LineageOf(x.kind) == lineage
  {
    assert x in InLineage(AcceptedOf(s, symbol), lineage);
  }

  lemma NewIsOfBatch(held: seq<MarketEvent>, batch: seq<MarketEvent>, x: MarketEvent)
    requires IdsAgree(held + batch) && x in held && x.id in IdsOf(batch)
    ensures x in batch
  {
    var y :| y in batch && y.id == x.id;
    assert y in held + batch && x in held + batch;
  }

  /** The event is held by the NONE episode and is at home there. */
  ghost predicate Unclaimed(s: State, symbol: string, lineage: Lineage, e: MarketEvent) {
    && e.direction == NONE && LineageOf(e.kind) == lineage && e in AcceptedOf(s, symbol)
    && e.id in s.home && s.home[e.id] == NoneKey(symbol, lineage) && ActiveIn(s, NoneKey(symbol, lineage), e)
  }

  lemma PulledJoins(s: State, symbol: string, lineage: Lineage, batch: seq<MarketEvent>, d: Direction, e: MarketEvent)
    requires Pulls(s, symbol, lineage, batch, d) && IdsAgree(AcceptedOf(s, symbol) + batch)
    requires Unclaimed(s, symbol, lineage, e)
    ensures Joins(s, symbol, lineage, batch, d, e) && !Joins(s, symbol, lineage, batch, NONE, e)
    ensures Stays(s, symbol, lineage, batch, NONE, e) <==> Key(symbol, lineage, d) in s.active
  {
    PullsToward(s, symbol, lineage, batch, d);
    PullsRecompose(s, symbol, lineage, batch, d);
    forall d2 | Recomposed(s, symbol, lineage, batch, d2)
      ensures d2 == d
    {
      PullsOnly(s, symbol, lineage, batch, d, d2);
    }
    ChosenByHome(s, symbol, lineage, batch, e);
  }

  /** An event at home in the NONE episode then joins the directional one, and stays in the NONE episode as well
      exactly when the directional episode was already active: otherwise the NONE identity is taken over. */
  lemma PulledIsShared(st: State, s: State, symbol: string, batch: seq<MarketEvent>, lookback: real, wall: WallClock,
                       lineage: Lineage, d: Direction, e: MarketEvent)
    requires batch != [] && OneSymbol(batch, symbol) && Inv(st) && NamedApart(st, symbol, batch)
    requires s == Admit(st, symbol, batch, SymbolTick(batch, lookback, wall))
    requires Pulls(s, symbol, lineage, batch, d) && Unclaimed(s, symbol, lineage, e)
    ensures var post := ConsumeSymbol(st, symbol, batch, lookback, wall).st;
            && ActiveIn(post, Key(symbol, lineage, d), e)
            && (ActiveIn(post, NoneKey(symbol, lineage), e) <==> Key(symbol, lineage, d) in s.active)
  {
    AdmittedApart(st, symbol, batch, SymbolTick(batch, lookback, wall));
    PulledJoins(s, symbol, lineage, batch, d, e);
    BatchLeaves(st, symbol, batch, lookback, wall, lineage, d, e);
    BatchLeaves(st, symbol, batch, lookback, wall, lineage, NONE, e);
  }
}
