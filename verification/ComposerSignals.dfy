/** What an active signal says of its members: family, priority, times, trace (signals/cluster.py, signals/copy.py). */
module ComposerSignals {
  import opened Common
  import opened Domain
  import opened Cluster
  import opened ComposerModel
  import opened ComposerInvariant
  import opened ComposerBatch
  import opened ComposerSymbol
  import opened ComposerRuns

  // ---- Family and priority of any events ----

  ghost predicate Some(events: seq<MarketEvent>, kinds: set<EventType>) {
    exists e :: e in events && e.kind in kinds
  }

  ghost predicate Moved(events: seq<MarketEvent>) {
    Some(events, {RapidMove, PriceVolumeExpansion})
  }

  ghost predicate Swelled(events: seq<MarketEvent>) {
    Some(events, {VolumeSpike, PriceVolumeExpansion})
  }

  ghost predicate Broke(events: seq<MarketEvent>) {
    Some(events, {DayHighBreakout, DayLowBreakdown})
  }

  lemma KindsMeet(events: seq<MarketEvent>, kinds: set<EventType>)
    ensures (set e | e in events :: e.kind) * kinds != {} <==> Some(events, kinds)
  {
    var types := set e | e in events :: e.kind;
    if types * kinds != {} {
      var kind :| kind in types * kinds;
      var e :| e in events && e.kind == kind;
    }
    if e :| e in events && e.kind in kinds {
      assert e.kind in types * kinds;
    }
  }

  /** Price and volume together come first, then breakouts upward, downward, volume, price, and VWAP crossings. */
  lemma FamilyMeaning(events: seq<MarketEvent>)
    ensures var f := ClassifyFamily(events);
            && (f == PriceVolume <==> Moved(events) && Swelled(events))
            && (f in {Breakout, Breakdown} <==> f != PriceVolume && Broke(events))
            && (f == Breakout ==> Some(events, {DayHighBreakout}))
            && (f == Breakdown ==> !Some(events, {DayHighBreakout}))
            && (f == Volume <==> Swelled(events) && !Moved(events) && !Broke(events))
            && (f == Move <==> Moved(events) && !Swelled(events) && !Broke(events))
            && (f in {VwapFamily, Other} <==> !Moved(events) && !Swelled(events) && !Broke(events))
            && (f == Other <==> events == [])
  {
    KindsMeet(events, {RapidMove, PriceVolumeExpansion});
    KindsMeet(events, {VolumeSpike, PriceVolumeExpansion});
    FamilyRest(events);
    OnlyCrossings(events);
  }

  lemma FamilyRest(events: seq<MarketEvent>)
    ensures var types := set e | e in events :: e.kind;
            && (DayHighBreakout in types <==> Some(events, {DayHighBreakout}))
            && (DayHighBreakout in types || DayLowBreakdown in types <==> Broke(events))
            && (VwapCross in types <==> Some(events, {VwapCross}))
  {
  }

  lemma OnlyCrossings(events: seq<MarketEvent>)
    ensures !Moved(events) && !Swelled(events) && !Broke(events) ==> (Some(events, {VwapCross}) <==> events != [])
  {
    if events != [] && !Moved(events) && !Swelled(events) && !Broke(events) {
      assert events[0] in events && events[0].kind == VwapCross;
    }
  }

  /** Severity 5 and above is critical, 4 important, 3 a notice, below that information. */
  lemma SeverityMeaning(severity: int)
    ensures Rank(PriorityFromSeverity(severity)) == Max(1, Min(4, severity - 1))
  {
  }

  /** What some events call for at the least: their severity, importance for price and volume together, a notice for
      volume alone. */
  ghost predicate CallsFor(events: seq<MarketEvent>, p: Priority) {
    || (exists e :: e in events && p == PriorityFromSeverity(e.severity))
    || (p == Important && Moved(events) && Swelled(events))
    || (p == Notice && Swelled(events) && !Moved(events) && !Broke(events))
  }

  lemma SeverityRises(a: int, b: int)
    requires a <= b
    ensures Rank(PriorityFromSeverity(a)) <= Rank(PriorityFromSeverity(b))
  {
    SeverityMeaning(a);
    SeverityMeaning(b);
  }

  /** The priority of an episode is the highest one its events call for. */
  lemma PriorityMeaning(events: seq<MarketEvent>)
    requires events != []
    ensures var p := ComposePriority(events, ClassifyFamily(events));
            CallsFor(events, p) && forall q :: CallsFor(events, q) ==> Rank(q) <= Rank(p)
  {
    FamilyMeaning(events);
    KindsMeet(events, {RapidMove, PriceVolumeExpansion});
    KindsMeet(events, {VolumeSpike, PriceVolumeExpansion});
    var top := MaxSeverity(events);
    forall e | e in events
      ensures Rank(PriorityFromSeverity(e.severity)) <= Rank(PriorityFromSeverity(top))
    {
      SeverityRises(e.severity, top);
    }
  }

  // ---- The signals of a run ----

  /** The signal shows its members: their family, the priority they call for, the times of the newest. */
  ghost predicate ShowsMembers(s: Signal) {
    && s.members != []
    && s.family == ClassifyFamily(s.members)
    && s.priority == ComposePriority(s.members, ClassifyFamily(s.members))
    && s.marketTs == Last(s.members).marketTs
    && s.receivedTs == Last(s.members).receivedTs
    && s.detectedTs == Last(s.members).detectedTs
  }

  /** Identities handed out since were created when the clock said so. */
  ghost predicate Dated(st: State, from: nat, wall: WallClock) {
    forall k :: k in st.active && st.active[k].id >= from ==> st.active[k].createdTs == wall(st.active[k].id)
  }

  ghost predicate Shown(st: State, from: nat, wall: WallClock) {
    && from <= st.nextId && Dated(st, from, wall)
    && forall k :: k in st.active ==> ShowsMembers(st.active[k])
  }

  lemma BuiltShows(id: nat, key: Key, members: seq<MarketEvent>, created: real)
    requires members != []
    ensures ShowsMembers(BuildSignal(id, key, members, created))
  {
  }

  lemma ResolvedDates(st: State, stolen: StolenSet, key: Key, tick: Tick, from: nat)
    requires Shown(st, from, tick.wall)
    ensures var who := ResolveIdentity(st, stolen, key, tick);
            Shown(who.st, from, tick.wall) && (who.id >= from ==> who.created == tick.wall(who.id))
  {
  }

  lemma ComposeShows(st: State, stolen: StolenSet, key: Key, members: seq<MarketEvent>, tick: Tick, from: nat)
    requires Shown(st, from, tick.wall) && members != []
    ensures Shown(ComposeEpisode(st, stolen, key, members, tick).st, from, tick.wall)
  {
    var who := ResolveIdentity(st, stolen, key, tick);
    ResolvedDates(st, stolen, key, tick, from);
    BuiltShows(who.id, key, members, who.created);
  }

  lemma {:induction false} ComposeAllShows(st: State, stolen: StolenSet, symbol: string, lineage: Lineage,
                                           eps: seq<Episode>, newIds: set<int>, tick: Tick, from: nat)
    requires Shown(st, from, tick.wall) && WellPartitioned(eps)
    ensures Shown(ComposeAll(st, stolen, symbol, lineage, eps, newIds, tick).st, from, tick.wall)
    decreases eps
  {
    if eps != [] {
      assert WellFormed(eps[0]);
      TailIsPartitioned(eps);
      if !HasNew(eps[0], newIds) {
        ComposeAllShows(st, stolen, symbol, lineage, eps[1..], newIds, tick, from);
      } else {
        var c := ComposeEpisode(st, stolen, Key(symbol, lineage, eps[0].direction), eps[0].members, tick);
        ComposeShows(st, stolen, Key(symbol, lineage, eps[0].direction), eps[0].members, tick, from);
        ComposeAllShows(c.st, c.stolen, symbol, lineage, eps[1..], newIds, tick, from);
      }
    }
  }

  lemma LineageShows(st: State, stolen: StolenSet, symbol: string, lineage: Lineage, batch: seq<MarketEvent>,
                     tick: Tick,
                     from: nat)
    requires Shown(st, from, tick.wall)
    ensures Shown(ConsumeLineage(st, stolen, symbol, lineage, batch, tick).st, from, tick.wall)
  {
    PartitionIsWellFormed(ChosenFor(st, symbol, lineage, batch), NoneTargetFor(st, symbol, lineage, batch));
    ComposeAllShows(st, stolen, symbol, lineage, EpisodesFor(st, symbol, lineage, batch), IdsOf(batch), tick, from);
  }

  lemma SymbolShows(st: State, symbol: string, batch: seq<MarketEvent>, lookback: real, wall: WallClock, from: nat)
    requires batch != [] && Shown(st, from, wall)
    ensures Shown(ConsumeSymbol(st, symbol, batch, lookback, wall).st, from, wall)
  {
    var tick := SymbolTick(batch, lookback, wall);
    LineageShows(Admit(st, symbol, batch, tick), {}, symbol, Tape, batch, tick, from);
    var tape := Tape0(st, symbol, batch, tick);
    LineageShows(tape.st, tape.stolen, symbol, Vwap, batch, tick, from);
  }

  ghost predicate AllShow(st: State) {
    forall k :: k in st.active ==> ShowsMembers(st.active[k])
  }

  /** A call dates the episodes it opens by its clock and leaves every signal showing its members. */
  lemma StepShows(st: State, op: Op, lookback: real)
    requires op.Valid() && Inv(st) && AllShow(st)
    ensures AllShow(Step(st, op, lookback))
    ensures op.Consume? ==> Dated(Step(st, op, lookback), st.nextId, op.wall)
  {
    if op.Consume? {
      SymbolShows(st, op.symbol, op.batch, lookback, op.wall, st.nextId);
    }
  }

  lemma {:induction false} RunShows(st: State, ops: seq<Op>, lookback: real)
    requires ValidOps(ops) && Inv(st) && AllShow(st)
    ensures AllShow(Run(st, ops, lookback))
    decreases ops
  {
    if ops != [] {
      assert ops[0] in ops && forall op :: op in ops[1..] ==> op in ops;
      StepKeeps(st, ops[0], lookback);
      StepShows(st, ops[0], lookback);
      RunShows(Step(st, ops[0], lookback), ops[1..], lookback);
    }
  }

  /** In every reachable state an active signal has the highest priority its members call for, its trace names the same
      members with their rules, and both carry the times of the newest member. */
  lemma SignalMeaning(ops: seq<Op>, lookback: real, k: Key)
    requires ValidOps(ops) && k in Run(EMPTY, ops, lookback).active
    ensures var st := Run(EMPTY, ops, lookback);
            var s := st.active[k];
            && s.members != [] && s.family == ClassifyFamily(s.members)
            && CallsFor(s.members, s.priority)
            && (forall q :: CallsFor(s.members, q) ==> Rank(q) <= Rank(s.priority))
            && (s.marketTs, s.receivedTs, s.detectedTs)
               == (Last(s.members).marketTs, Last(s.members).receivedTs, Last(s.members).detectedTs)
            && (forall i, j :: 0 <= i < j < |s.members| ==>
                  || s.members[i].marketTs < s.members[j].marketTs
                  || (s.members[i].marketTs == s.members[j].marketTs && s.members[i].id <= s.members[j].id))
            && (k.lineage == Vwap <==> s.family == VwapFamily)
            && s.id in st.traces && Traces(st.traces[s.id], s)
  {
    EmptyIsFine();
    ReachableIsFine(ops, lookback);
    RunShows(EMPTY, ops, lookback);
    var s := Run(EMPTY, ops, lookback).active[k];
    PriorityMeaning(s.members);
    TraceMeaning(s);
    assert MembersOk(k, s.members);
    LineageFamily(k, s.members);
  }

  lemma LineageFamily(k: Key, members: seq<MarketEvent>)
    requires MembersOk(k, members)
    ensures k.lineage == Vwap <==> ClassifyFamily(members) == VwapFamily
  {
    FamilyMeaning(members);
    OnlyCrossings(members);
    assert members[0] in members;
  }

  ghost predicate Traces(t: SignalTrace, s: Signal) {
    && t.signalId == s.id && t.members == s.members && t.family == s.family && t.direction == s.direction
    && t.priority == s.priority && t.detectedTs == s.detectedTs && t.createdTs == s.createdTs
    && |t.ruleNames| == |s.members|
    && forall i :: 0 <= i < |s.members| ==> t.ruleNames[i] == s.members[i].ruleName
  }

  lemma TraceMeaning(s: Signal)
    ensures Traces(TraceOf(s), s)
  {
  }
}
