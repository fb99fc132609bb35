/** Everything the composer holds comes from the events it was given, so a caller who knows which ids were used knows
    which batches are new to it: the results about fresh events, over whole runs. */
module ComposerHistory {
  import opened Common
  import opened Domain
  import opened Cluster
  import opened ComposerModel
  import opened ComposerInvariant
  import opened ComposerBatch
  import opened ComposerSymbol
  import opened ComposerFresh
  import opened ComposerTheorems
  import opened ComposerSymbols
  import opened ComposerRuns
  import opened ComposerSlots
  import opened ComposerSharing

  // ---- Where everything comes from ----

  ghost predicate Used(past: set<MarketEvent>, id: int) {
    exists e :: e in past && e.id == id
  }

  ghost predicate AcceptedFrom(accepted: map<string, seq<MarketEvent>>, past: set<MarketEvent>) {
    forall s, e :: s in accepted && e in accepted[s] ==> e in past
  }

  ghost predicate ActiveFrom(active: map<Key, Signal>, past: set<MarketEvent>) {
    forall k, e :: k in active && e in active[k].members ==> e in past
  }

  ghost predicate HomeFrom(home: map<int, Key>, past: set<MarketEvent>) {
    forall id :: id in home ==> Used(past, id)
  }

  /** The composer holds nothing but these events and their ids. */
  ghost predicate From(st: State, past: set<MarketEvent>) {
    AcceptedFrom(st.accepted, past) && ActiveFrom(st.active, past) && HomeFrom(st.home, past)
  }

  function EventsOf(events: seq<MarketEvent>): set<MarketEvent> {
    set e | e in events
  }

  lemma FromMore(st: State, past: set<MarketEvent>, more: set<MarketEvent>)
    requires From(st, past)
    ensures From(st, past + more)
  {
    forall id | id in st.home
      ensures Used(past + more, id)
    {
      var e :| e in past && e.id == id;
      assert e in past + more;
    }
  }

  lemma PruneActiveFrom(st: State, cutoff: real, past: set<MarketEvent>)
    requires From(st, past)
    ensures From(PruneActive(st, cutoff), past)
  {
  }

  lemma AdmitFrom(st: State, symbol: string, batch: seq<MarketEvent>, tick: Tick, past: set<MarketEvent>)
    requires From(st, past)
    ensures From(Admit(st, symbol, batch, tick), past + EventsOf(batch))
  {
    var all := past + EventsOf(batch);
    FromMore(st, past, EventsOf(batch));
    var mid := st.(accepted := st.accepted[symbol := Recent(AcceptedOf(st, symbol) + batch, tick.Cutoff())]);
    forall e | e in Recent(AcceptedOf(st, symbol) + batch, tick.Cutoff())
      ensures e in all
    {
      assert e in AcceptedOf(st, symbol) || e in batch;
    }
    PruneActiveFrom(mid, tick.Cutoff(), all);
  }

  lemma PruneFrom(st: State, symbol: string, tick: Tick, past: set<MarketEvent>)
    requires From(st, past)
    ensures From(Prune(st, symbol, tick), past)
  {
    AdmitFrom(st, symbol, [], tick, past);
    assert past + EventsOf([]) == past;
    assert AcceptedOf(st, symbol) + [] == AcceptedOf(st, symbol);
  }

  lemma RehomeFrom(home: map<int, Key>, members: seq<MarketEvent>, key: Key, past: set<MarketEvent>)
    requires HomeFrom(home, past) && forall e :: e in members ==> e in past
    ensures HomeFrom(Rehome(home, members, key), past)
  {
    forall id | id in Rehome(home, members, key) && id !in home
      ensures Used(past, id)
    {
      var e :| e in members && e.id == id;
    }
  }

  lemma ResolveFrom(st: State, stolen: StolenSet, key: Key, tick: Tick, past: set<MarketEvent>)
    requires From(st, past)
    ensures From(ResolveIdentity(st, stolen, key, tick).st, past)
  {
    if Steals(st, stolen, key, tick.Cutoff()) {
      RehomeFrom(st.home, st.active[NoneKey(key.symbol, key.lineage)].members, key, past);
    }
  }

  lemma ComposeFrom(st: State, stolen: StolenSet, key: Key, members: seq<MarketEvent>, tick: Tick,
                    past: set<MarketEvent>)
    requires From(st, past) && members != [] && forall e :: e in members ==> e in past
    ensures From(ComposeEpisode(st, stolen, key, members, tick).st, past)
  {
    ResolveFrom(st, stolen, key, tick, past);
    RehomeFrom(ResolveIdentity(st, stolen, key, tick).st.home, members, key, past);
  }

  lemma {:induction false} ComposeAllFrom(st: State, stolen: StolenSet, symbol: string, lineage: Lineage,
                                          eps: seq<Episode>, newIds: set<int>, tick: Tick, past: set<MarketEvent>)
    requires From(st, past) && WellPartitioned(eps)
    requires forall ep, e :: ep in eps && e in ep.members ==> e in past
    ensures From(ComposeAll(st, stolen, symbol, lineage, eps, newIds, tick).st, past)
    decreases eps
  {
    if eps != [] {
      assert eps[0] in eps && forall ep :: ep in eps[1..] ==> ep in eps;
      TailIsPartitioned(eps);
      if !HasNew(eps[0], newIds) {
        ComposeAllFrom(st, stolen, symbol, lineage, eps[1..], newIds, tick, past);
      } else {
        var key := Key(symbol, lineage, eps[0].direction);
        var c := ComposeEpisode(st, stolen, key, eps[0].members, tick);
        ComposeFrom(st, stolen, key, eps[0].members, tick, past);
        ComposeAllFrom(c.st, c.stolen, symbol, lineage, eps[1..], newIds, tick, past);
      }
    }
  }

  lemma LineageFrom(st: State, stolen: StolenSet, symbol: string, lineage: Lineage, batch: seq<MarketEvent>, tick: Tick,
                    past: set<MarketEvent>)
    requires From(st, past)
    ensures From(ConsumeLineage(st, stolen, symbol, lineage, batch, tick).st, past)
  {
    var eps := EpisodesFor(st, symbol, lineage, batch);
    PartitionIsWellFormed(ChosenFor(st, symbol, lineage, batch), NoneTargetFor(st, symbol, lineage, batch));
    forall ep, e | ep in eps && e in ep.members
      ensures e in past
    {
      EpisodeMember(st, symbol, lineage, batch, ep, e);
    }
    ComposeAllFrom(st, stolen, symbol, lineage, eps, IdsOf(batch), tick, past);
  }

  lemma SymbolFrom(st: State, symbol: string, batch: seq<MarketEvent>, lookback: real, wall: WallClock,
                   past: set<MarketEvent>)
    requires From(st, past) && batch != []
    ensures From(ConsumeSymbol(st, symbol, batch, lookback, wall).st, past + EventsOf(batch))
  {
    var tick, all := SymbolTick(batch, lookback, wall), past + EventsOf(batch);
    AdmitFrom(st, symbol, batch, tick, past);
    LineageFrom(Admit(st, symbol, batch, tick), {}, symbol, Tape, batch, tick, all);
    var tape := Tape0(st, symbol, batch, tick);
    LineageFrom(tape.st, tape.stolen, symbol, Vwap, batch, tick, all);
  }

  lemma GroupFrom(st: State, events: seq<MarketEvent>, symbol: string, lookback: real, wall: WallClock,
                  past: set<MarketEvent>)
    requires From(st, past) && EventsOf(events) <= past && OfSymbol(events, symbol) != []
    ensures From(ConsumeSymbol(st, symbol, OfSymbol(events, symbol), lookback, wall).st, past)
  {
    SymbolFrom(st, symbol, OfSymbol(events, symbol), lookback, wall, past);
    assert past + EventsOf(OfSymbol(events, symbol)) == past;
  }

  lemma {:induction false} GroupsFrom(st: State, events: seq<MarketEvent>, symbols: seq<string>, lookback: real,
                                      wall: WallClock, past: set<MarketEvent>)
    requires From(st, past) && EventsOf(events) <= past && forall s :: s in symbols ==> OfSymbol(events, s) != []
    ensures From(ConsumeGroups(st, events, symbols, lookback, wall).st, past)
    decreases symbols
  {
    if symbols != [] {
      assert symbols[0] in symbols && forall s :: s in symbols[1..] ==> s in symbols;
      var mid := ConsumeSymbol(st, symbols[0], OfSymbol(events, symbols[0]), lookback, wall).st;
      GroupFrom(st, events, symbols[0], lookback, wall, past);
      GroupsFrom(mid, events, symbols[1..], lookback, wall, past);
    }
  }

  lemma BatchFrom(st: State, events: seq<MarketEvent>, lookback: real, wall: WallClock, past: set<MarketEvent>)
    requires From(st, past)
    ensures From(ConsumeBatch(st, events, lookback, wall).st, past + EventsOf(events))
  {
    SymbolsHaveEvents(events);
    FromMore(st, past, EventsOf(events));
    GroupsFrom(st, events, Symbols(events), lookback, wall, past + EventsOf(events));
  }

  // ---- New events ----

  /** Events whose ids are pairwise different and were never used. */
  ghost predicate New(past: set<MarketEvent>, events: seq<MarketEvent>) {
    && (forall i :: 0 <= i < |events| ==> !Used(past, events[i].id))
    && forall i, j :: 0 <= i < j < |events| ==> events[i].id != events[j].id
  }

  lemma {:induction false} CountedOnce(events: seq<MarketEvent>, e: MarketEvent)
    requires e in events && forall i, j :: 0 <= i < j < |events| ==> events[i].id != events[j].id
    ensures multiset(events)[e] == 1
  {
    var i :| 0 <= i < |events| && events[i] == e;
    var before, after := events[..i], events[i + 1..];
    assert events == before + ([e] + after);
    assert e !in before && e !in after;
    assert multiset(events) == multiset(before) + (multiset{e} + multiset(after));
  }

  /** New events are fresh to a composer that holds nothing but the past. */
  lemma NewIsFresh(st: State, past: set<MarketEvent>, events: seq<MarketEvent>)
    requires From(st, past) && New(past, events)
    ensures FreshBatch(st, events)
  {
    forall e | e in events
      ensures FreshIn(st, e) && OnlyHolder(events, e) && e !in AcceptedOf(st, e.symbol) && multiset(events)[e] == 1
    {
      assert !Used(past, e.id);
      CountedOnce(events, e);
    }
  }

  /** Some produced signal has an event of this id. */
  ghost predicate HoldsId(produced: seq<Produced>, id: int) {
    exists p :: p in produced && id in IdsOf(p.signal.members)
  }

  lemma JustOne(event: MarketEvent)
    ensures EventsOf([event]) == {event}
  {
  }

  lemma NewIsFound(st: State, past: set<MarketEvent>, event: MarketEvent, lookback: real, wall: WallClock)
    requires Inv(st) && From(st, past) && !Used(past, event.id) && lookback >= 0.0
    ensures HoldsId(ConsumeBatch(st, [event], lookback, wall).produced, event.id)
  {
    NewIsFresh(st, past, [event]);
    ConsumeOne(st, event, lookback, wall);
    var p :| p in ConsumeBatch(st, [event], lookback, wall).produced && event in p.signal.members;
  }

  // ---- Over runs from the start ----

  function EventsIn(op: Op): set<MarketEvent> {
    if op.Consume? then EventsOf(op.batch) else {}
  }

  /** All events of a run. */
  function Past(ops: seq<Op>): set<MarketEvent>
    decreases ops
  {
    if ops == [] then {} else EventsIn(ops[0]) + Past(ops[1..])
  }

  lemma StepFrom(st: State, op: Op, lookback: real, past: set<MarketEvent>)
    requires op.Valid() && From(st, past)
    ensures From(Step(st, op, lookback), past + EventsIn(op))
  {
    match op
    case Consume(symbol, batch, wall) => SymbolFrom(st, symbol, batch, lookback, wall, past);
    case Quiet(symbol, now) =>
      PruneFrom(st, symbol, Tick(now, lookback, STOPPED), past);
      assert past + EventsIn(op) == past;
  }

  lemma {:induction false} RunFrom(st: State, ops: seq<Op>, lookback: real, past: set<MarketEvent>)
    requires ValidOps(ops) && From(st, past)
    ensures From(Run(st, ops, lookback), past + Past(ops))
    decreases ops
  {
    if ops == [] {
      assert past + Past(ops) == past;
    } else {
      assert ops[0] in ops && forall op :: op in ops[1..] ==> op in ops;
      StepFrom(st, ops[0], lookback, past);
      RunFrom(Step(st, ops[0], lookback), ops[1..], lookback, past + EventsIn(ops[0]));
      assert past + EventsIn(ops[0]) + Past(ops[1..]) == past + Past(ops);
    }
  }

  /** After any run the composer holds nothing but the run's events. */
  lemma ReachableIsFrom(ops: seq<Op>, lookback: real)
    requires ValidOps(ops)
    ensures From(Run(EMPTY, ops, lookback), Past(ops)) && Inv(Run(EMPTY, ops, lookback))
  {
    RunFrom(EMPTY, ops, lookback, {});
    assert {} + Past(ops) == Past(ops);
    ReachableIsFine(ops, lookback);
  }

  /** After any run: an event with a new id is in exactly one produced signal, once, if it is within its symbol's
      look-back; otherwise in none. */
  lemma NewEventOnce(ops: seq<Op>, events: seq<MarketEvent>, lookback: real, wall: WallClock, e: MarketEvent)
    requires ValidOps(ops) && New(Past(ops), events) && e in events
    ensures OfSymbol(events, e.symbol) != []
    ensures var made := ConsumeBatch(Run(EMPTY, ops, lookback), events, lookback, wall).produced;
            && (IsMember(made, e) <==> e.marketTs >= SymbolCutoff(events, e.symbol, lookback))
            && NoneShared(made)
            && forall p :: p in made && e in p.signal.members ==> multiset(p.signal.members)[e] == 1
  {
    var st := Run(EMPTY, ops, lookback);
    ReachableIsFrom(ops, lookback);
    NewIsFresh(st, Past(ops), events);
    FreshEventOnce(st, events, lookback, wall, e);
    AnyBatch(st, events, lookback, wall);
  }

  /** After any run, consuming one event with a new id finds its signal exactly when the look-back is not negative. */
  lemma ConsumeNeverFails(ops: seq<Op>, event: MarketEvent, lookback: real, wall: WallClock)
    requires ValidOps(ops) && New(Past(ops), [event])
    ensures IsMember(ConsumeBatch(Run(EMPTY, ops, lookback), [event], lookback, wall).produced, event)
            <==> lookback >= 0.0
  {
    ReachableIsFrom(ops, lookback);
    NewIsFresh(Run(EMPTY, ops, lookback), Past(ops), [event]);
    ConsumeOne(Run(EMPTY, ops, lookback), event, lookback, wall);
  }

  /** After any run, a batch of new events within one look-back leaves all its signals active, whatever its symbols. */
  lemma NewBatchStaysActive(ops: seq<Op>, events: seq<MarketEvent>, lookback: real, wall: WallClock)
    requires ValidOps(ops) && New(Past(ops), events) && WithinAll(events, lookback)
    ensures var out := ConsumeBatch(Run(EMPTY, ops, lookback), events, lookback, wall);
            forall p :: p in out.produced ==> Placed(out.st, p)
  {
    ReachableIsFrom(ops, lookback);
    NewIsFresh(Run(EMPTY, ops, lookback), Past(ops), events);
    AllStayActive(Run(EMPTY, ops, lookback), events, lookback, wall);
  }

  // ---- Slots after a run whose ids each stand for one event ----

  ghost predicate NamesApart(events: set<MarketEvent>) {
    forall a, b :: a in events && b in events && a.id == b.id ==> a == b
  }

  lemma PastIsNamedApart(st: State, past: set<MarketEvent>, symbol: string, batch: seq<MarketEvent>)
    requires From(st, past) && NamesApart(past + EventsOf(batch))
    ensures NamedApart(st, symbol, batch)
  {
    forall e | Known(st, symbol, e) || e in batch
      ensures e in past + EventsOf(batch)
    {
      if e !in batch && e !in AcceptedOf(st, symbol) {
        var k :| ActiveIn(st, k, e);
      }
    }
  }

  /** After any run, which slots hold an event once a symbol's next batch is composed. */
  lemma RunLeaves(ops: seq<Op>, symbol: string, batch: seq<MarketEvent>, lookback: real, wall: WallClock,
                  lineage: Lineage,
                  d: Direction, e: MarketEvent)
    requires ValidOps(ops) && batch != [] && OneSymbol(batch, symbol) && NamesApart(Past(ops) + EventsOf(batch))
    ensures var st := Run(EMPTY, ops, lookback);
            var s := Admit(st, symbol, batch, SymbolTick(batch, lookback, wall));
            ActiveIn(ConsumeSymbol(st, symbol, batch, lookback, wall).st, Key(symbol, lineage, d), e)
            <==> Joins(s, symbol, lineage, batch, d, e) || Stays(s, symbol, lineage, batch, d, e)
  {
    ReachableIsFrom(ops, lookback);
    PastIsNamedApart(Run(EMPTY, ops, lookback), Past(ops), symbol, batch);
    BatchLeaves(Run(EMPTY, ops, lookback), symbol, batch, lookback, wall, lineage, d, e);
  }

  /** After any run, when a symbol's next batch leaves an event in two active episodes. */
  lemma RunShares(ops: seq<Op>, symbol: string, batch: seq<MarketEvent>, lookback: real, wall: WallClock,
                  lineage: Lineage,
                  e: MarketEvent)
    requires ValidOps(ops) && batch != [] && OneSymbol(batch, symbol) && NamesApart(Past(ops) + EventsOf(batch))
    ensures var st := Run(EMPTY, ops, lookback);
            Shared(ConsumeSymbol(st, symbol, batch, lookback, wall).st, symbol, lineage, e)
            <==> SharedFrom(Admit(st, symbol, batch, SymbolTick(batch, lookback, wall)), symbol, lineage, batch, e)
  {
    ReachableIsFrom(ops, lookback);
    PastIsNamedApart(Run(EMPTY, ops, lookback), Past(ops), symbol, batch);
    SharedExactly(Run(EMPTY, ops, lookback), symbol, batch, lookback, wall, lineage, e);
  }
}
