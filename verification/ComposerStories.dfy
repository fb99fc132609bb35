/** Two runs from the empty composer after which one NONE event sits in two active episodes. */
module ComposerStories {
  import opened Common
  import opened Domain
  import opened Cluster
  import opened ComposerModel
  import opened ComposerInvariant
  import opened ComposerBatch
  import opened ComposerSymbol
  import opened ComposerSlots
  import opened ComposerRuns
  import opened ComposerTheorems
  import ComposerHistory

  // ---- A batch of one tape event composes one episode ----

  lemma {:induction false} NothingNew(st: State, stolen: StolenSet, symbol: string, eps: seq<Episode>, ids: set<int>,
                                      tick: Tick)
    requires forall ep :: ep in eps ==> !HasNew(ep, ids)
    ensures ComposeAll(st, stolen, symbol, Tape, eps, ids, tick) == Outcome(st, stolen, [])
    decreases |eps|
  {
    if eps != [] {
      assert eps[0] in eps && forall ep :: ep in eps[1..] ==> ep in eps;
      NothingNew(st, stolen, symbol, eps[1..], ids, tick);
    }
  }

  lemma {:induction false} OneNew(st: State, symbol: string, eps: seq<Episode>, ids: set<int>, tick: Tick, ep: Episode)
    requires ep in eps && ep.members != [] && HasNew(ep, ids) && WellPartitioned(eps)
    requires forall other :: other in eps && other.direction != ep.direction ==> !HasNew(other, ids)
    ensures ComposeAll(st, {}, symbol, Tape, eps, ids, tick).st
            == ComposeEpisode(st, {}, Key(symbol, Tape, ep.direction), ep.members, tick).st
    decreases |eps|
  {
    var tail := eps[1..];
    TailIsPartitioned(eps);
    assert eps[0] in eps && forall other :: other in tail ==> other in eps;
    if eps[0].direction == ep.direction {
      assert eps[0] == ep by {
        assert eps == [eps[0]] + tail;
      }
      var c := ComposeEpisode(st, {}, Key(symbol, Tape, ep.direction), ep.members, tick);
      NothingNew(c.st, c.stolen, symbol, tail, ids, tick);
    } else {
      assert ep in tail by {
        assert eps == [eps[0]] + tail;
      }
      OneNew(st, symbol, tail, ids, tick, ep);
    }
  }

  /** The episode a single event is composed into: the event itself and what was chosen with the same destination. */
  ghost predicate Gathers(s: State, symbol: string, x: MarketEvent, d: Direction, members: seq<MarketEvent>) {
    forall e :: GathersOne(s, symbol, x, d, members, e)
  }

  ghost predicate GathersOne(s: State, symbol: string, x: MarketEvent, d: Direction, members: seq<MarketEvent>,
                             e: MarketEvent)
  {
    && d == Destination(x, NoneTargetFor(s, symbol, Tape, [x]))
    && x in members && Ordered(members)
    && (e in members <==>
          e in ChosenFor(s, symbol, Tape, [x]) && Destination(e, NoneTargetFor(s, symbol, Tape, [x])) == d)
  }

  lemma OneId(x: MarketEvent)
    ensures IdsOf([x]) == {x.id} && MaxTs([x]) == x.marketTs
  {
    assert x in [x] && forall e :: e in [x] ==> e == x;
  }

  lemma OneLineage(x: MarketEvent, lineage: Lineage)
    ensures InLineage([x], lineage) == if LineageOf(x.kind) == lineage then [x] else []
  {
    FilterOne(x, (e: MarketEvent) => LineageOf(e.kind) == lineage);
  }

  /** Nothing the composer still holds for the symbol has the event's id. */
  ghost predicate NewTo(s: State, symbol: string, x: MarketEvent) {
    && x in AcceptedOf(s, symbol)
    && (forall m :: m in AcceptedOf(s, symbol) && m.id == x.id ==> m == x)
    && (x.direction == NONE ==> x.id !in s.home)
  }

  lemma GatheredEpisode(s: State, symbol: string, x: MarketEvent) returns (ep: Episode)
    requires NewTo(s, symbol, x) && LineageOf(x.kind) == Tape
    ensures ep in EpisodesFor(s, symbol, Tape, [x]) && Gathers(s, symbol, x, ep.direction, ep.members)
    ensures WellPartitioned(EpisodesFor(s, symbol, Tape, [x]))
    ensures forall other :: other in EpisodesFor(s, symbol, Tape, [x]) && other.direction != ep.direction ==>
                            !HasNew(other, {x.id})
  {
    var chosen, target := ChosenFor(s, symbol, Tape, [x]), NoneTargetFor(s, symbol, Tape, [x]);
    assert x in [x];
    FreshEventIsChosen(s, symbol, Tape, [x], x);
    PartitionIsWellFormed(chosen, target);
    ep := FiledEpisode(chosen, target, x);
    FiledIsChosen(chosen, target, ep, x);
    MembersAreFiled(chosen, target, ep);
    forall e
      ensures GathersOne(s, symbol, x, ep.direction, ep.members, e)
    {
    }
    OthersAreOld(s, symbol, x, ep);
  }

  lemma MembersAreFiled(chosen: seq<MarketEvent>, target: Direction, ep: Episode)
    requires ep in PartitionLineageEpisodes(chosen, target)
    ensures Ordered(ep.members)
    ensures forall e :: e in ep.members <==> e in chosen && Destination(e, target) == ep.direction
  {
    var eps := PartitionLineageEpisodes(chosen, target);
    PartitionIsWellFormed(chosen, target);
    var i :| 0 <= i < |eps| && eps[i] == ep;
    assert WellFormed(eps[i]);
    forall e
      ensures e in ep.members <==> e in chosen && Destination(e, target) == ep.direction
    {
      MemberIsFiled(chosen, target, i, e);
    }
  }

  lemma MemberIsFiled(chosen: seq<MarketEvent>, target: Direction, i: nat, e: MarketEvent)
    requires i < |PartitionLineageEpisodes(chosen, target)|
    ensures var ep := PartitionLineageEpisodes(chosen, target)[i];
            e in ep.members <==> e in chosen && Destination(e, target) == ep.direction
  {
    var ep := PartitionLineageEpisodes(chosen, target)[i];
    PartitionIsExact(chosen, target, e);
    assert e in ep.members <==> multiset(ep.members)[e] > 0;
    assert e in chosen <==> multiset(chosen)[e] > 0;
  }

  lemma OthersAreOld(s: State, symbol: string, x: MarketEvent, ep: Episode)
    requires NewTo(s, symbol, x) && ep.direction == Destination(x, NoneTargetFor(s, symbol, Tape, [x]))
    ensures forall other :: other in EpisodesFor(s, symbol, Tape, [x]) && other.direction != ep.direction ==>
                            !HasNew(other, {x.id})
  {
    forall other, m | other in EpisodesFor(s, symbol, Tape, [x]) && m in other.members
           && other.direction != ep.direction
      ensures m.id != x.id
    {
      EpisodeMember(s, symbol, Tape, [x], other, m);
    }
  }

  /** A batch of one tape event leaves the VWAP lineage alone. */
  lemma OnlyTape(st: State, symbol: string, x: MarketEvent, lookback: real, wall: WallClock)
    requires LineageOf(x.kind) == Tape
    ensures var tick := Tick(x.marketTs, lookback, wall);
            ConsumeSymbol(st, symbol, [x], lookback, wall).st
            == ConsumeLineage(Admit(st, symbol, [x], tick), {}, symbol, Tape, [x], tick).st
  {
    OneId(x);
    OneLineage(x, Vwap);
  }

  lemma OneEpisode(s: State, symbol: string, x: MarketEvent, tick: Tick) returns (d: Direction,
                   members: seq<MarketEvent>)
    requires LineageOf(x.kind) == Tape && NewTo(s, symbol, x)
    ensures members != [] && Gathers(s, symbol, x, d, members)
    ensures ConsumeLineage(s, {}, symbol, Tape, [x], tick).st
            == ComposeEpisode(s, {}, Key(symbol, Tape, d), members, tick).st
  {
    OneId(x);
    OneLineage(x, Tape);
    var ep := GatheredEpisode(s, symbol, x);
    d, members := ep.direction, ep.members;
    assert GathersOne(s, symbol, x, d, members, x);
    assert HasNew(ep, {x.id});
    OneNew(s, symbol, EpisodesFor(s, symbol, Tape, [x]), {x.id}, tick, ep);
  }

  // ---- One more event told ----

  /** The slot's episode and the time of its newest event. */
  ghost predicate Holds(st: State, k: Key, at: real) {
    k in st.active && st.active[k].marketTs == at
  }

  /** What the composer holds for the symbol was told before, and not after `now`. */
  ghost predicate Told(st: State, symbol: string, known: set<MarketEvent>, now: real) {
    forall m :: m in AcceptedOf(st, symbol) ==> m in known && m.marketTs <= now
  }

  /** The next event of the story: of the symbol's tape, not before the others, with an id of its own. */
  ghost predicate Next(symbol: string, known: set<MarketEvent>, now: real, x: MarketEvent) {
    && x.symbol == symbol && LineageOf(x.kind) == Tape && x.marketTs >= now
    && forall m :: m in known ==> m.id != x.id
  }

  /** Admitting one event: what is too old goes, nothing else changes. */
  ghost predicate Admitted(st: State, s: State, symbol: string, x: MarketEvent, cutoff: real) {
    forall k, i, e :: AdmittedAt(st, s, symbol, x, cutoff, k, i, e)
  }

  /** Seen from one slot, one id and one event. */
  ghost predicate AdmittedAt(st: State, s: State, symbol: string, x: MarketEvent, cutoff: real, k: Key, i: int,
                             e: MarketEvent)
  {
    && (k in s.active <==> Live(st, k, cutoff)) && (k in s.active ==> s.active[k] == st.active[k])
    && (i in s.home ==> i in st.home && s.home[i] == st.home[i])
    && (i in st.home && Live(st, st.home[i], cutoff) ==> i in s.home)
    && (e in AcceptedOf(s, symbol) <==> (e in AcceptedOf(st, symbol) || e == x) && e.marketTs >= cutoff)
  }

  lemma AdmitOne(st: State, symbol: string, x: MarketEvent, tick: Tick)
    ensures Admitted(st, Admit(st, symbol, [x], tick), symbol, x, tick.Cutoff())
  {
    AdmittedRecent(st, symbol, [x], tick);
    forall k, i, e
      ensures AdmittedAt(st, Admit(st, symbol, [x], tick), symbol, x, tick.Cutoff(), k, i, e)
    {
      assert e in AcceptedOf(st, symbol) + [x] <==> e in AcceptedOf(st, symbol) || e == x;
    }
  }

  /** Composing one episode at a slot, newest member at `at`: the slot is written, its members move in, and the NONE
      episode goes if its identity is taken over. */
  ghost predicate Written(s: State, post: State, symbol: string, d: Direction, members: seq<MarketEvent>, at: real,
                          stole: bool)
  {
    && post.accepted == s.accepted
    && WrittenSlots(s, post, symbol, d, members, at, stole) && WrittenHomes(s, post, symbol, d, members, stole)
  }

  ghost predicate WrittenSlots(s: State, post: State, symbol: string, d: Direction, members: seq<MarketEvent>, at: real,
                               stole: bool)
  {
    && Holds(post, At(symbol, d), at) && post.active[At(symbol, d)].members == members
    && (forall k :: k != At(symbol, d) && !(stole && k == At(symbol, NONE)) ==>
          (k in post.active <==> k in s.active) && (k in s.active ==> post.active[k] == s.active[k]))
    && (stole ==> d != NONE && At(symbol, NONE) !in post.active)
  }

  ghost predicate WrittenHomes(s: State, post: State, symbol: string, d: Direction, members: seq<MarketEvent>,
                               stole: bool) {
    && (forall e :: e in members ==> HomeIs(post, e, At(symbol, d)))
    && (forall e :: stole && ActiveIn(s, At(symbol, NONE), e) ==> HomeIs(post, e, At(symbol, d)))
    && (forall i :: !stole && i !in IdsOf(members) ==> SameHome(s, post, i))
  }

  ghost predicate HomeIs(st: State, e: MarketEvent, k: Key) {
    e.id in st.home && st.home[e.id] == k
  }

  lemma ComposeMovesIn(s: State, symbol: string, d: Direction, members: seq<MarketEvent>, tick: Tick, e: MarketEvent)
    requires members != []
    requires e in members || (Steals(s, {}, At(symbol, d), tick.Cutoff()) && ActiveIn(s, At(symbol, NONE), e))
    ensures HomeIs(ComposeEpisode(s, {}, At(symbol, d), members, tick).st, e, At(symbol, d))
  {
    if e in members {
      assert e.id in IdsOf(members);
    } else {
      assert e.id in IdsOf(s.active[At(symbol, NONE)].members);
    }
  }

  lemma ComposeWritesSlots(s: State, symbol: string, d: Direction, members: seq<MarketEvent>, tick: Tick)
    requires members != []
    ensures WrittenSlots(s, ComposeEpisode(s, {}, At(symbol, d), members, tick).st, symbol, d, members,
                         Last(members).marketTs, Steals(s, {}, At(symbol, d), tick.Cutoff()))
  {
  }

  lemma ComposeWritesHomes(s: State, symbol: string, d: Direction, members: seq<MarketEvent>, tick: Tick)
    requires members != []
    ensures WrittenHomes(s, ComposeEpisode(s, {}, At(symbol, d), members, tick).st, symbol, d, members,
                         Steals(s, {}, At(symbol, d), tick.Cutoff()))
  {
    var post := ComposeEpisode(s, {}, At(symbol, d), members, tick).st;
    var stole := Steals(s, {}, At(symbol, d), tick.Cutoff());
    forall e | e in members || (stole && ActiveIn(s, At(symbol, NONE), e))
      ensures HomeIs(post, e, At(symbol, d))
    {
      ComposeMovesIn(s, symbol, d, members, tick, e);
    }
  }

  lemma ComposeWrites(s: State, symbol: string, d: Direction, members: seq<MarketEvent>, tick: Tick)
    requires members != []
    ensures Written(s, ComposeEpisode(s, {}, At(symbol, d), members, tick).st, symbol, d, members,
                    Last(members).marketTs, Steals(s, {}, At(symbol, d), tick.Cutoff()))
  {
    ComposeWritesSlots(s, symbol, d, members, tick);
    ComposeWritesHomes(s, symbol, d, members, tick);
  }

  lemma NewestIsLast(members: seq<MarketEvent>, x: MarketEvent)
    requires x in members && Ordered(members) && forall e :: e in members ==> e.marketTs <= x.marketTs
    ensures Last(members).marketTs == x.marketTs
  {
    var i :| 0 <= i < |members| && members[i] == x;
    assert i < |members| - 1 ==> Before(members[i], members[|members| - 1]);
    assert Last(members) in members;
  }

  lemma NewestGathered(s: State, symbol: string, known: set<MarketEvent>, x: MarketEvent, d: Direction,
                       members: seq<MarketEvent>)
    requires Gathers(s, symbol, x, d, members) && Told(s, symbol, known, x.marketTs)
    ensures members != [] && Last(members).marketTs == x.marketTs
  {
    assert GathersOne(s, symbol, x, d, members, x);
    forall e | e in members
      ensures e.marketTs <= x.marketTs
    {
      assert GathersOne(s, symbol, x, d, members, e);
      assert e in InLineage(AcceptedOf(s, symbol), Tape);
    }
    NewestIsLast(members, x);
  }

  lemma AdmittedIsTold(st: State, s: State, symbol: string, known: set<MarketEvent>, now: real, x: MarketEvent,
                       cutoff: real)
    requires Told(st, symbol, known, now) && Next(symbol, known, now, x) && x.marketTs >= cutoff
    requires x.direction == NONE ==> x.id !in st.home
    requires Admitted(st, s, symbol, x, cutoff)
    ensures Told(s, symbol, known + {x}, x.marketTs) && NewTo(s, symbol, x)
  {
    assert AdmittedAt(st, s, symbol, x, cutoff, At(symbol, NONE), x.id, x);
    forall m | m in AcceptedOf(s, symbol)
      ensures m in known + {x} && m.marketTs <= x.marketTs && (m.id == x.id ==> m == x)
    {
      assert AdmittedAt(st, s, symbol, x, cutoff, At(symbol, NONE), x.id, m);
    }
  }

  /** One call of the composer with one event. */
  function Consumer(symbol: string, lookback: real, wall: WallClock): (State, MarketEvent) -> State {
    (st: State, x: MarketEvent) => ConsumeSymbol(st, symbol, [x], lookback, wall).st
  }

  /** `next` is such a call; the stories need not look into it. */
  ghost predicate CallsWith(next: (State, MarketEvent) -> State, symbol: string, lookback: real, wall: WallClock,
                            st: State,
                            x: MarketEvent)
  {
    next(st, x) == ConsumeSymbol(st, symbol, [x], lookback, wall).st
  }

  ghost predicate Calls(next: (State, MarketEvent) -> State, symbol: string, lookback: real, wall: WallClock) {
    lookback >= 0.0 && forall st, x :: CallsWith(next, symbol, lookback, wall, st, x)
  }

  lemma Compose(s: State, symbol: string, known: set<MarketEvent>, x: MarketEvent, tick: Tick)
    returns (d: Direction, members: seq<MarketEvent>, post: State)
    requires LineageOf(x.kind) == Tape && NewTo(s, symbol, x) && Told(s, symbol, known, x.marketTs)
    ensures post == ConsumeLineage(s, {}, symbol, Tape, [x], tick).st
    ensures Gathers(s, symbol, x, d, members) && Told(post, symbol, known, x.marketTs)
    ensures Written(s, post, symbol, d, members, x.marketTs, Steals(s, {}, At(symbol, d), tick.Cutoff()))
  {
    d, members := OneEpisode(s, symbol, x, tick);
    NewestGathered(s, symbol, known, x, d, members);
    ComposeWrites(s, symbol, d, members, tick);
    post := ComposeEpisode(s, {}, At(symbol, d), members, tick).st;
  }

  lemma CallIs(next: (State, MarketEvent) -> State, st: State, s: State, symbol: string, x: MarketEvent, lookback: real,
               wall: WallClock)
    requires Calls(next, symbol, lookback, wall) && LineageOf(x.kind) == Tape
    requires s == Admit(st, symbol, [x], Tick(x.marketTs, lookback, wall))
    ensures next(st, x) == ConsumeLineage(s, {}, symbol, Tape, [x], Tick(x.marketTs, lookback, wall)).st
  {
    assert CallsWith(next, symbol, lookback, wall, st, x);
    OnlyTape(st, symbol, x, lookback, wall);
  }

  lemma AdmitStart(st: State, symbol: string, x: MarketEvent, tick: Tick) returns (s: State)
    ensures s == Admit(st, symbol, [x], tick) && Admitted(st, s, symbol, x, tick.Cutoff())
  {
    s := Admit(st, symbol, [x], tick);
    AdmitOne(st, symbol, x, tick);
  }

  lemma CallComposes(next: (State, MarketEvent) -> State, st: State, s: State, symbol: string, known: set<MarketEvent>,
                     x: MarketEvent, lookback: real, wall: WallClock)
    returns (post: State, d: Direction, members: seq<MarketEvent>)
    requires Calls(next, symbol, lookback, wall) && LineageOf(x.kind) == Tape
    requires s == Admit(st, symbol, [x], Tick(x.marketTs, lookback, wall))
    requires NewTo(s, symbol, x) && Told(s, symbol, known, x.marketTs)
    ensures post == next(st, x) && Gathers(s, symbol, x, d, members) && Told(post, symbol, known, x.marketTs)
    ensures Written(s, post, symbol, d, members, x.marketTs, Steals(s, {}, At(symbol, d), x.marketTs - lookback))
  {
    CallIs(next, st, s, symbol, x, lookback, wall);
    d, members, post := Compose(s, symbol, known, x, Tick(x.marketTs, lookback, wall));
  }

  /** Telling one more event composes one episode, which it is the newest member of. */
  lemma Tell(next: (State, MarketEvent) -> State, st: State, symbol: string, known: set<MarketEvent>, now: real,
             x: MarketEvent, lookback: real, wall: WallClock)
    returns (s: State, post: State, d: Direction, members: seq<MarketEvent>)
    requires Calls(next, symbol, lookback, wall)
    requires Told(st, symbol, known, now) && Next(symbol, known, now, x)
    requires x.direction == NONE ==> x.id !in st.home
    ensures post == next(st, x)
    ensures Gathers(s, symbol, x, d, members) && Admitted(st, s, symbol, x, x.marketTs - lookback)
    ensures Written(s, post, symbol, d, members, x.marketTs, Steals(s, {}, At(symbol, d), x.marketTs - lookback))
    ensures Told(s, symbol, known + {x}, x.marketTs) && Told(post, symbol, known + {x}, x.marketTs)
  {
    s := AdmitStart(st, symbol, x, Tick(x.marketTs, lookback, wall));
    AdmittedIsTold(st, s, symbol, known, now, x, x.marketTs - lookback);
    post, d, members := CallComposes(next, st, s, symbol, known + {x}, x, lookback, wall);
  }

  lemma DirectionalTarget(s: State, symbol: string, x: MarketEvent)
    requires x.direction != NONE && LineageOf(x.kind) == Tape
    ensures NoneTargetFor(s, symbol, Tape, [x]) == x.direction
  {
    OneLineage(x, Tape);
    assert x in [x];
    assert DirectionsOf([x]) == {x.direction};
    NoneTargetMeaning([x], InLineage(AcceptedOf(s, symbol), Tape), LiveDirections(s, symbol, Tape), x.direction);
  }

  function At(symbol: string, d: Direction): Key {
    Key(symbol, Tape, d)
  }

  // ---- The story so far ----

  /** No NONE episode yet, and the spike is unknown. */
  ghost predicate Calm(st: State, symbol: string, spike: MarketEvent) {
    At(symbol, NONE) !in st.active && spike.id !in st.home
  }

  /** What admitting an event means for the symbol's three slots and for the spike. */
  lemma SlotsAdmitted(st: State, s: State, symbol: string, x: MarketEvent, cutoff: real, spike: MarketEvent)
    requires Admitted(st, s, symbol, x, cutoff)
    ensures forall d :: At(symbol, d) in s.active <==> Live(st, At(symbol, d), cutoff)
    ensures forall d :: At(symbol, d) in s.active ==>
                          At(symbol, d) in st.active && s.active[At(symbol, d)] == st.active[At(symbol, d)]
    ensures spike.id in s.home ==> spike.id in st.home && s.home[spike.id] == st.home[spike.id]
    ensures spike.id in st.home && Live(st, st.home[spike.id], cutoff) ==> spike.id in s.home
    ensures spike in AcceptedOf(s, symbol)
            <==> (spike in AcceptedOf(st, symbol) || spike == x) && spike.marketTs >= cutoff
  {
    forall d
      ensures At(symbol, d) in s.active <==> Live(st, At(symbol, d), cutoff)
      ensures At(symbol, d) in s.active ==> s.active[At(symbol, d)] == st.active[At(symbol, d)]
    {
      assert AdmittedAt(st, s, symbol, x, cutoff, At(symbol, d), spike.id, spike);
    }
    assert AdmittedAt(st, s, symbol, x, cutoff, At(symbol, NONE), spike.id, spike);
  }

  /** A directional event before the spike opens or prolongs its direction's episode. */
  lemma DirectionalStep(st: State, s: State, post: State, symbol: string, known: set<MarketEvent>, x: MarketEvent,
                        d: Direction, members: seq<MarketEvent>, cutoff: real, spike: MarketEvent)
    requires Gathers(s, symbol, x, d, members) && Admitted(st, s, symbol, x, cutoff)
    requires Written(s, post, symbol, d, members, x.marketTs, Steals(s, {}, At(symbol, d), cutoff))
    requires Told(s, symbol, known, x.marketTs) && forall m :: m in known ==> m.id != spike.id
    requires x.direction != NONE && LineageOf(x.kind) == Tape && Calm(st, symbol, spike)
    ensures Calm(post, symbol, spike) && Holds(post, At(symbol, x.direction), x.marketTs)
    ensures forall k, at :: k != At(symbol, x.direction) && Holds(st, k, at) && at >= cutoff ==> Holds(post, k, at)
  {
    DirectionalTarget(s, symbol, x);
    assert GathersOne(s, symbol, x, d, members, x);
    MembersAreTold(s, symbol, known, x, d, members, x.marketTs);
    forall k
      ensures k in s.active <==> Live(st, k, cutoff)
      ensures k in s.active ==> s.active[k] == st.active[k]
    {
      assert AdmittedAt(st, s, symbol, x, cutoff, k, spike.id, spike);
    }
    assert AdmittedAt(st, s, symbol, x, cutoff, At(symbol, NONE), spike.id, spike);
    assert spike.id !in IdsOf(members);
    assert SameHome(s, post, spike.id);
  }

  lemma MembersAreTold(s: State, symbol: string, known: set<MarketEvent>, x: MarketEvent, d: Direction,
                       members: seq<MarketEvent>, now: real)
    requires Told(s, symbol, known, now) && Gathers(s, symbol, x, d, members)
    ensures forall e :: e in members ==> e in known
  {
    forall e | e in members
      ensures e in known
    {
      assert GathersOne(s, symbol, x, d, members, e);
      assert e in InLineage(AcceptedOf(s, symbol), Tape);
    }
  }

  /** The spike has an episode of its own beside an upward and a downward one. */
  ghost predicate Alone(st: State, symbol: string, spike: MarketEvent, up: real, down: real) {
    && Holds(st, At(symbol, UP), up) && Holds(st, At(symbol, DOWN), down) && Holds(st, At(symbol, NONE), spike.marketTs)
    && ActiveIn(st, At(symbol, NONE), spike) && spike in AcceptedOf(st, symbol)
    && spike.id in st.home && st.home[spike.id] == At(symbol, NONE)
  }

  lemma UndecidedTarget(s: State, symbol: string, x: MarketEvent)
    requires x.direction == NONE && LineageOf(x.kind) == Tape
    requires At(symbol, UP) in s.active && At(symbol, DOWN) in s.active
    ensures NoneTargetFor(s, symbol, Tape, [x]) == NONE
  {
    OneLineage(x, Tape);
    var live := LiveDirections(s, symbol, Tape);
    assert UP in live && DOWN in live;
    assert DirectionsOf([x]) == {};
    assert UP in DirectionsOf(InLineage(AcceptedOf(s, symbol), Tape)) + (live * {UP, DOWN});
    assert DOWN in DirectionsOf(InLineage(AcceptedOf(s, symbol), Tape)) + (live * {UP, DOWN});
  }

  lemma SpikeStep(st: State, s: State, post: State, symbol: string, spike: MarketEvent, d: Direction,
                  members: seq<MarketEvent>, cutoff: real, up: real, down: real)
    requires Gathers(s, symbol, spike, d, members) && Admitted(st, s, symbol, spike, cutoff)
    requires Written(s, post, symbol, d, members, spike.marketTs, Steals(s, {}, At(symbol, d), cutoff))
    requires spike.direction == NONE && LineageOf(spike.kind) == Tape && spike.marketTs >= cutoff
    requires Holds(st, At(symbol, UP), up) && Holds(st, At(symbol, DOWN), down) && up >= cutoff && down >= cutoff
    ensures Alone(post, symbol, spike, up, down)
  {
    SlotsAdmitted(st, s, symbol, spike, cutoff, spike);
    UndecidedTarget(s, symbol, spike);
    assert GathersOne(s, symbol, spike, d, members, spike);
    assert HomeIs(post, spike, At(symbol, d));
  }

  /** The spike is in the upward episode and in one of its own, and is at home in the upward one. */
  ghost predicate Doubled(st: State, symbol: string, spike: MarketEvent, up: real, down: real) {
    && Holds(st, At(symbol, UP), up) && Holds(st, At(symbol, DOWN), down) && Holds(st, At(symbol, NONE), spike.marketTs)
    && ActiveIn(st, At(symbol, NONE), spike) && ActiveIn(st, At(symbol, UP), spike) && spike in AcceptedOf(st, symbol)
    && spike.id in st.home && st.home[spike.id] == At(symbol, UP)
  }

  lemma AgainStep(st: State, s: State, post: State, symbol: string, spike: MarketEvent, again: MarketEvent,
                  d: Direction,
                  members: seq<MarketEvent>, cutoff: real, up: real, down: real)
    requires Gathers(s, symbol, again, d, members) && Admitted(st, s, symbol, again, cutoff)
    requires Written(s, post, symbol, d, members, again.marketTs, Steals(s, {}, At(symbol, d), cutoff))
    requires again.direction == UP && LineageOf(again.kind) == Tape
    requires spike.direction == NONE && LineageOf(spike.kind) == Tape && Alone(st, symbol, spike, up, down)
    requires up >= cutoff && down >= cutoff && spike.marketTs >= cutoff
    ensures Doubled(post, symbol, spike, again.marketTs, down)
  {
    SlotsAdmitted(st, s, symbol, again, cutoff, spike);
    JoinsHome(s, symbol, again, d, members, spike);
    assert HomeIs(post, spike, At(symbol, UP));
  }

  /** A directional event draws a NONE event that is at home in its own slot or in the NONE slot. */
  lemma JoinsHome(s: State, symbol: string, x: MarketEvent, d: Direction, members: seq<MarketEvent>, spike: MarketEvent)
    requires Gathers(s, symbol, x, d, members) && x.direction != NONE && LineageOf(x.kind) == Tape
    requires spike.direction == NONE && LineageOf(spike.kind) == Tape && spike in AcceptedOf(s, symbol)
    requires spike.id in s.home && s.home[spike.id] in {At(symbol, NONE), At(symbol, x.direction)}
    ensures spike in members && d == x.direction
  {
    DirectionalTarget(s, symbol, x);
    assert GathersOne(s, symbol, x, d, members, spike);
    assert spike in InLineage(AcceptedOf(s, symbol), Tape);
    assert spike in ChosenFor(s, symbol, Tape, [x]);
  }

  /** The downward episode has taken over the NONE identity; the spike is listed by the upward episode only, but is at
      home in the downward one. */
  ghost predicate Misplaced(st: State, symbol: string, spike: MarketEvent, up: real, down: real) {
    && Holds(st, At(symbol, UP), up) && Holds(st, At(symbol, DOWN), down) && At(symbol, NONE) !in st.active
    && ActiveIn(st, At(symbol, UP), spike) && spike in AcceptedOf(st, symbol)
    && spike.id in st.home && st.home[spike.id] == At(symbol, DOWN)
  }

  lemma FallStep(st: State, s: State, post: State, symbol: string, spike: MarketEvent, fall: MarketEvent, d: Direction,
                 members: seq<MarketEvent>, cutoff: real, up: real, down: real)
    requires Gathers(s, symbol, fall, d, members) && Admitted(st, s, symbol, fall, cutoff)
    requires Written(s, post, symbol, d, members, fall.marketTs, Steals(s, {}, At(symbol, d), cutoff))
    requires fall.direction == DOWN && LineageOf(fall.kind) == Tape && Doubled(st, symbol, spike, up, down)
    requires down < cutoff <= spike.marketTs && up >= cutoff
    ensures Misplaced(post, symbol, spike, up, fall.marketTs)
  {
    SlotsAdmitted(st, s, symbol, fall, cutoff, spike);
    assert GathersOne(s, symbol, fall, d, members, fall);
    assert d == DOWN && Steals(s, {}, At(symbol, DOWN), cutoff);
    assert ActiveIn(s, At(symbol, NONE), spike);
    assert HomeIs(post, spike, At(symbol, DOWN));
  }

  lemma LastStep(st: State, s: State, post: State, symbol: string, spike: MarketEvent, last: MarketEvent, d: Direction,
                 members: seq<MarketEvent>, cutoff: real, up: real, down: real)
    requires Gathers(s, symbol, last, d, members) && Admitted(st, s, symbol, last, cutoff)
    requires Written(s, post, symbol, d, members, last.marketTs, Steals(s, {}, At(symbol, d), cutoff))
    requires last.direction == DOWN && LineageOf(last.kind) == Tape
    requires spike.direction == NONE && LineageOf(spike.kind) == Tape && Misplaced(st, symbol, spike, up, down)
    requires spike.marketTs >= cutoff && up >= cutoff && down >= cutoff
    ensures ActiveIn(post, At(symbol, UP), spike) && ActiveIn(post, At(symbol, DOWN), spike)
    ensures At(symbol, NONE) !in post.active
  {
    SlotsAdmitted(st, s, symbol, last, cutoff, spike);
    JoinsHome(s, symbol, last, d, members, spike);
  }

  // ---- The two stories ----

  /** The composer after these events came one by one. */
  function After(next: (State, MarketEvent) -> State, events: seq<MarketEvent>): State {
    if events == [] then EMPTY else next(After(next, events[..|events| - 1]), Last(events))
  }

  /** Six tape events of one symbol with ids of their own, in order of time: down, up, a spike without direction, up
      again, and, when the first downward event is behind the look-back but the spike is not, down twice. */
  ghost predicate Cast(symbol: string, cast: seq<MarketEvent>, lookback: real) {
    && |cast| == 6
    && (forall i :: 0 <= i < 6 ==> cast[i].symbol == symbol && LineageOf(cast[i].kind) == Tape)
    && (forall i, j :: 0 <= i < j < 6 ==> cast[i].id != cast[j].id && cast[i].marketTs <= cast[j].marketTs)
    && cast[0].direction == DOWN && cast[1].direction == UP && cast[2].direction == NONE
    && cast[3].direction == UP && cast[4].direction == DOWN && cast[5].direction == DOWN
    && cast[3].marketTs - lookback <= cast[0].marketTs < cast[4].marketTs - lookback
    && cast[5].marketTs - lookback <= cast[2].marketTs
  }

  lemma AfterOne(next: (State, MarketEvent) -> State, events: seq<MarketEvent>, n: nat)
    requires n < |events|
    ensures After(next, events[..n + 1]) == next(After(next, events[..n]), events[n])
  {
    assert events[..n + 1][..n] == events[..n];
  }

  /** The first n events of the story. */
  function Past(cast: seq<MarketEvent>, n: nat): (r: set<MarketEvent>)
    requires n <= |cast|
    ensures forall m :: m in r <==> exists i :: 0 <= i < n && cast[i] == m
  {
    set i | 0 <= i < n :: cast[i]
  }

  function Clock(cast: seq<MarketEvent>, n: nat): real
    requires n <= |cast| && cast != []
  {
    if n == 0 then cast[0].marketTs else cast[n - 1].marketTs
  }

  lemma NextOf(symbol: string, cast: seq<MarketEvent>, n: nat, lookback: real)
    requires Cast(symbol, cast, lookback) && n < 6
    ensures Next(symbol, Past(cast, n), Clock(cast, n), cast[n])
    ensures Past(cast, n) + {cast[n]} == Past(cast, n + 1) && Clock(cast, n + 1) == cast[n].marketTs
    ensures n <= 2 ==> forall m :: m in Past(cast, n) ==> m.id != cast[2].id
  {
  }

  /** What telling the n-th event does to the state before it. */
  ghost predicate Tells(symbol: string, x: MarketEvent, cutoff: real, st: State, s: State, post: State, d: Direction,
                        members: seq<MarketEvent>)
  {
    && Gathers(s, symbol, x, d, members) && Admitted(st, s, symbol, x, cutoff)
    && Written(s, post, symbol, d, members, x.marketTs, Steals(s, {}, At(symbol, d), cutoff))
  }

  lemma TellNth(next: (State, MarketEvent) -> State, symbol: string, cast: seq<MarketEvent>, n: nat, lookback: real,
                wall: WallClock) returns (st: State, s: State, post: State, d: Direction, members: seq<MarketEvent>)
    requires Calls(next, symbol, lookback, wall) && Cast(symbol, cast, lookback) && n < 6
    requires Told(After(next, cast[..n]), symbol, Past(cast, n), Clock(cast, n))
    requires cast[n].direction == NONE ==> cast[n].id !in After(next, cast[..n]).home
    ensures st == After(next, cast[..n]) && post == After(next, cast[..n + 1])
    ensures Tells(symbol, cast[n], cast[n].marketTs - lookback, st, s, post, d, members)
    ensures Told(s, symbol, Past(cast, n + 1), cast[n].marketTs)
    ensures Told(post, symbol, Past(cast, n + 1), Clock(cast, n + 1))
  {
    NextOf(symbol, cast, n, lookback);
    AfterOne(next, cast, n);
    st := After(next, cast[..n]);
    s, post, d, members := Tell(next, st, symbol, Past(cast, n), Clock(cast, n), cast[n], lookback, wall);
  }

  lemma DownFirst(next: (State, MarketEvent) -> State, symbol: string, cast: seq<MarketEvent>, lookback: real,
                  wall: WallClock)
    requires Calls(next, symbol, lookback, wall) && Cast(symbol, cast, lookback)
    ensures Told(After(next, cast[..1]), symbol, Past(cast, 1), Clock(cast, 1))
    ensures Calm(After(next, cast[..1]), symbol, cast[2])
    ensures Holds(After(next, cast[..1]), At(symbol, DOWN), cast[0].marketTs)
  {
    assert After(next, cast[..0]) == EMPTY;
    var st, s, post, d, members := TellNth(next, symbol, cast, 0, lookback, wall);
    NextOf(symbol, cast, 1, lookback);
    DirectionalStep(st, s, post, symbol, Past(cast, 1), cast[0], d, members, cast[0].marketTs - lookback, cast[2]);
  }

  lemma UpNext(next: (State, MarketEvent) -> State, symbol: string, cast: seq<MarketEvent>, lookback: real,
               wall: WallClock)
    requires Calls(next, symbol, lookback, wall) && Cast(symbol, cast, lookback)
    ensures Told(After(next, cast[..2]), symbol, Past(cast, 2), Clock(cast, 2))
    ensures Calm(After(next, cast[..2]), symbol, cast[2])
    ensures Holds(After(next, cast[..2]), At(symbol, UP), cast[1].marketTs)
    ensures Holds(After(next, cast[..2]), At(symbol, DOWN), cast[0].marketTs)
  {
    DownFirst(next, symbol, cast, lookback, wall);
    var st, s, post, d, members := TellNth(next, symbol, cast, 1, lookback, wall);
    NextOf(symbol, cast, 2, lookback);
    DirectionalStep(st, s, post, symbol, Past(cast, 2), cast[1], d, members, cast[1].marketTs - lookback, cast[2]);
  }

  lemma SpikeThird(next: (State, MarketEvent) -> State, symbol: string, cast: seq<MarketEvent>, lookback: real,
                   wall: WallClock)
    requires Calls(next, symbol, lookback, wall) && Cast(symbol, cast, lookback)
    ensures Told(After(next, cast[..3]), symbol, Past(cast, 3), Clock(cast, 3))
    ensures Alone(After(next, cast[..3]), symbol, cast[2], cast[1].marketTs, cast[0].marketTs)
  {
    UpNext(next, symbol, cast, lookback, wall);
    var st, s, post, d, members := TellNth(next, symbol, cast, 2, lookback, wall);
    SpikeStep(st, s, post, symbol, cast[2], d, members, cast[2].marketTs - lookback, cast[1].marketTs,
              cast[0].marketTs);
  }

  lemma UpAgain(next: (State, MarketEvent) -> State, symbol: string, cast: seq<MarketEvent>, lookback: real,
                wall: WallClock)
    requires Calls(next, symbol, lookback, wall) && Cast(symbol, cast, lookback)
    ensures Told(After(next, cast[..4]), symbol, Past(cast, 4), Clock(cast, 4))
    ensures Doubled(After(next, cast[..4]), symbol, cast[2], cast[3].marketTs, cast[0].marketTs)
  {
    SpikeThird(next, symbol, cast, lookback, wall);
    var st, s, post, d, members := TellNth(next, symbol, cast, 3, lookback, wall);
    AgainStep(st, s, post, symbol, cast[2], cast[3], d, members, cast[3].marketTs - lookback, cast[1].marketTs,
              cast[0].marketTs);
  }

  lemma DownFifth(next: (State, MarketEvent) -> State, symbol: string, cast: seq<MarketEvent>, lookback: real,
                  wall: WallClock)
    requires Calls(next, symbol, lookback, wall) && Cast(symbol, cast, lookback)
    ensures Told(After(next, cast[..5]), symbol, Past(cast, 5), Clock(cast, 5))
    ensures Misplaced(After(next, cast[..5]), symbol, cast[2], cast[3].marketTs, cast[4].marketTs)
  {
    UpAgain(next, symbol, cast, lookback, wall);
    var st, s, post, d, members := TellNth(next, symbol, cast, 4, lookback, wall);
    FallStep(st, s, post, symbol, cast[2], cast[4], d, members, cast[4].marketTs - lookback, cast[3].marketTs,
             cast[0].marketTs);
  }

  lemma DownLast(next: (State, MarketEvent) -> State, symbol: string, cast: seq<MarketEvent>, lookback: real,
                 wall: WallClock)
    requires Calls(next, symbol, lookback, wall) && Cast(symbol, cast, lookback)
    ensures Told(After(next, cast[..6]), symbol, Past(cast, 6), Clock(cast, 6))
    ensures ActiveIn(After(next, cast[..6]), At(symbol, UP), cast[2])
    ensures ActiveIn(After(next, cast[..6]), At(symbol, DOWN), cast[2])
            && At(symbol, NONE) !in After(next, cast[..6]).active
  {
    DownFifth(next, symbol, cast, lookback, wall);
    var st, s, post, d, members := TellNth(next, symbol, cast, 5, lookback, wall);
    LastStep(st, s, post, symbol, cast[2], cast[5], d, members, cast[5].marketTs - lookback, cast[3].marketTs,
             cast[4].marketTs);
  }

  lemma ConsumerCalls(symbol: string, lookback: real, wall: WallClock)
    requires lookback >= 0.0
    ensures Calls(Consumer(symbol, lookback, wall), symbol, lookback, wall)
  {
    forall st, x
      ensures CallsWith(Consumer(symbol, lookback, wall), symbol, lookback, wall, st, x)
    {
    }
  }

  /** The story as a run of the composer: one call per event. */
  function Story(symbol: string, events: seq<MarketEvent>, wall: WallClock): seq<Op> {
    seq(|events|, i requires 0 <= i < |events| => Consume(symbol, [events[i]], wall))
  }

  lemma StepIsNext(next: (State, MarketEvent) -> State, st: State, symbol: string, x: MarketEvent, lookback: real,
                   wall: WallClock)
    requires Calls(next, symbol, lookback, wall) && x.symbol == symbol
    ensures Step(st, Consume(symbol, [x], wall), lookback) == next(st, x)
  {
    assert CallsWith(next, symbol, lookback, wall, st, x);
  }

  lemma StoryConcat(symbol: string, before: seq<MarketEvent>, x: MarketEvent, wall: WallClock)
    ensures Story(symbol, before + [x], wall) == Story(symbol, before, wall) + [Consume(symbol, [x], wall)]
  {
  }

  lemma AfterNext(next: (State, MarketEvent) -> State, symbol: string, before: seq<MarketEvent>, ops: seq<Op>,
                  x: MarketEvent, lookback: real, wall: WallClock)
    requires Calls(next, symbol, lookback, wall) && x.symbol == symbol
    requires ValidOps(ops) && Run(EMPTY, ops, lookback) == After(next, before)
    ensures var op := Consume(symbol, [x], wall);
            ValidOps(ops + [op]) && Run(EMPTY, ops + [op], lookback) == next(After(next, before), x)
  {
    RunOneMore(EMPTY, ops, Consume(symbol, [x], wall), lookback);
    StepIsNext(next, After(next, before), symbol, x, lookback, wall);
  }

  ghost predicate RunIs(next: (State, MarketEvent) -> State, symbol: string, events: seq<MarketEvent>, lookback: real,
                        wall: WallClock, ops: seq<Op>)
  {
    ops == Story(symbol, events, wall) ==> ValidOps(ops) && Run(EMPTY, ops, lookback) == After(next, events)
  }

  ghost predicate RunsLike(next: (State, MarketEvent) -> State, symbol: string, events: seq<MarketEvent>,
                           lookback: real, wall: WallClock)
  {
    forall ops :: RunIs(next, symbol, events, lookback, wall, ops)
  }

  lemma RunsLikeNext(next: (State, MarketEvent) -> State, symbol: string, before: seq<MarketEvent>, x: MarketEvent,
                     events: seq<MarketEvent>, lookback: real, wall: WallClock)
    requires Calls(next, symbol, lookback, wall) && x.symbol == symbol
    requires RunsLike(next, symbol, before, lookback, wall)
    requires events == before + [x] && After(next, events) == next(After(next, before), x)
    ensures RunsLike(next, symbol, events, lookback, wall)
  {
    assert RunIs(next, symbol, before, lookback, wall, Story(symbol, before, wall));
    AfterNext(next, symbol, before, Story(symbol, before, wall), x, lookback, wall);
    StoryConcat(symbol, before, x, wall);
  }

  lemma NothingTold(next: (State, MarketEvent) -> State, symbol: string, lookback: real, wall: WallClock)
    ensures RunsLike(next, symbol, [], lookback, wall)
  {
  }

  lemma {:induction false} AfterIsRun(next: (State, MarketEvent) -> State, symbol: string, events: seq<MarketEvent>,
                                      n: nat, lookback: real, wall: WallClock)
    requires Calls(next, symbol, lookback, wall) && OneSymbol(events, symbol) && n <= |events|
    ensures RunsLike(next, symbol, events[..n], lookback, wall)
    decreases n
  {
    if n == 0 {
      NothingTold(next, symbol, lookback, wall);
      assert events[..0] == [];
    } else {
      AfterIsRun(next, symbol, events, n - 1, lookback, wall);
      AfterOne(next, events, n - 1);
      assert events[n - 1] in events && events[..n] == events[..n - 1] + [events[n - 1]];
      RunsLikeNext(next, symbol, events[..n - 1], events[n - 1], events[..n], lookback, wall);
    }
  }

  lemma StoryIsRun(symbol: string, cast: seq<MarketEvent>, n: nat, lookback: real, wall: WallClock)
    requires Cast(symbol, cast, lookback) && n <= 6
    ensures Calls(Consumer(symbol, lookback, wall), symbol, lookback, wall)
    ensures ValidOps(Story(symbol, cast[..n], wall))
    ensures Run(EMPTY, Story(symbol, cast[..n], wall), lookback) == After(Consumer(symbol, lookback, wall), cast[..n])
  {
    ConsumerCalls(symbol, lookback, wall);
    AfterIsRun(Consumer(symbol, lookback, wall), symbol, cast, n, lookback, wall);
    assert RunIs(Consumer(symbol, lookback, wall), symbol, cast[..n], lookback, wall, Story(symbol, cast[..n], wall));
  }

  /** From the empty composer: after four calls the spike is in the upward episode and still in one of its own. */
  lemma OneEventTwoEpisodes(symbol: string, cast: seq<MarketEvent>, lookback: real, wall: WallClock)
    requires Cast(symbol, cast, lookback)
    ensures ValidOps(Story(symbol, cast[..4], wall))
    ensures var st := Run(EMPTY, Story(symbol, cast[..4], wall), lookback);
            ActiveIn(st, At(symbol, UP), cast[2]) && ActiveIn(st, At(symbol, NONE), cast[2])
  {
    StoryIsRun(symbol, cast, 4, lookback, wall);
    UpAgain(Consumer(symbol, lookback, wall), symbol, cast, lookback, wall);
  }

  /** Two calls later its own episode has been taken over by a downward one, and the spike, at home there without being
      listed, is drawn into it while the upward episode still lists it. */
  lemma OneEventBothDirections(symbol: string, cast: seq<MarketEvent>, lookback: real, wall: WallClock)
    requires Cast(symbol, cast, lookback)
    ensures ValidOps(Story(symbol, cast, wall))
    ensures var st := Run(EMPTY, Story(symbol, cast, wall), lookback);
            && ActiveIn(st, At(symbol, UP), cast[2]) && ActiveIn(st, At(symbol, DOWN), cast[2])
            && At(symbol, NONE) !in st.active
  {
    assert cast[..6] == cast;
    StoryIsRun(symbol, cast, 6, lookback, wall);
    DownLast(Consumer(symbol, lookback, wall), symbol, cast, lookback, wall);
  }

  /** Such a story exists: one call every few seconds with the default look-back of 90. */
  lemma SomeCast() returns (cast: seq<MarketEvent>)
    ensures Cast("S", cast, 90.0)
  {
    cast := [Sample(1, DOWN, 0.0), Sample(2, UP, 0.0), Sample(3, NONE, 10.0), Sample(4, UP, 20.0),
             Sample(5, DOWN, 95.0), Sample(6, DOWN, 96.0)];
  }

  function Sample(id: int, d: Direction, at: real): MarketEvent {
    MarketEvent(id, "S", RapidMove, d, 3, at, at, at, "key", 60.0, "rule")
  }

  lemma {:induction false} StoryPast(symbol: string, events: seq<MarketEvent>, wall: WallClock)
    ensures forall e :: e in ComposerHistory.Past(Story(symbol, events, wall)) ==> e in events
  {
    if events != [] {
      var ops := Story(symbol, events, wall);
      assert ops[1..] == Story(symbol, events[1..], wall) && ops[0].batch == [events[0]];
      StoryPast(symbol, events[1..], wall);
      assert forall e :: e in events[1..] ==> e in events;
    }
  }

  lemma StoryNamesApart(symbol: string, cast: seq<MarketEvent>, lookback: real, wall: WallClock)
    requires Cast(symbol, cast, lookback)
    ensures ComposerHistory.NamesApart(ComposerHistory.Past(Story(symbol, cast, wall)))
  {
    StoryPast(symbol, cast, wall);
    forall a, b | a in cast && b in cast && a.id == b.id
      ensures a == b
    {
      var i :| 0 <= i < 6 && cast[i] == a;
      var j :| 0 <= j < 6 && cast[j] == b;
      assert i == j;
    }
  }

  /** So under the default look-back a reachable state has one event in two active episodes of opposite direction. */
  lemma SharedIsReachable(wall: WallClock) returns (ops: seq<Op>, e: MarketEvent)
    ensures ValidOps(ops) && ComposerHistory.NamesApart(ComposerHistory.Past(ops))
    ensures var st := Run(EMPTY, ops, 90.0);
            ActiveIn(st, At("S", UP), e) && ActiveIn(st, At("S", DOWN), e)
  {
    var cast := SomeCast();
    ops, e := TheStory("S", cast, 90.0, wall);
  }

  lemma TheStory(symbol: string, cast: seq<MarketEvent>, lookback: real, wall: WallClock)
    returns (ops: seq<Op>, e: MarketEvent)
    requires Cast(symbol, cast, lookback)
    ensures ValidOps(ops) && ComposerHistory.NamesApart(ComposerHistory.Past(ops))
    ensures var st := Run(EMPTY, ops, lookback);
            ActiveIn(st, At(symbol, UP), e) && ActiveIn(st, At(symbol, DOWN), e)
  {
    ops, e := Story(symbol, cast, wall), cast[2];
    OneEventBothDirections(symbol, cast, lookback, wall);
    StoryNamesApart(symbol, cast, lookback, wall);
  }
}
