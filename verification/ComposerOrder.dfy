/** In which order a batch's signals are produced (signals/composer.py): symbols as they first appear, tape before vwap,
    up before down before undirected. */
module ComposerOrder {
  import opened Common
  import opened Domain
  import opened Cluster
  import opened ComposerModel
  import opened ComposerInvariant
  import opened ComposerBatch
  import opened ComposerSymbol

  function DirectionRank(d: Direction): nat {
    match d
    case UP => 0
    case DOWN => 1
    case NONE => 2
  }

  /** The position of a signal among its symbol's. */
  function Place(lineage: Lineage, d: Direction): nat {
    (if lineage == Tape then 0 else 3) + DirectionRank(d)
  }

  ghost predicate EpisodesRise(eps: seq<Episode>) {
    forall i, j :: 0 <= i < j < |eps| ==> DirectionRank(eps[i].direction) < DirectionRank(eps[j].direction)
  }

  lemma PiecesRise(up: seq<Episode>, down: seq<Episode>, alone: seq<Episode>)
    requires |up| <= 1 && |down| <= 1 && |alone| <= 1
    requires up != [] ==> up[0].direction == UP
    requires down != [] ==> down[0].direction == DOWN
    requires alone != [] ==> alone[0].direction == NONE
    ensures EpisodesRise(up + down + alone)
  {
  }

  lemma PartitionRises(recent: seq<MarketEvent>, noneTarget: Direction)
    ensures EpisodesRise(PartitionLineageEpisodes(recent, noneTarget))
  {
    PartitionShape(recent, noneTarget);
    PiecesRise(OneEpisode(UP, Filed(recent, noneTarget, UP)), OneEpisode(DOWN, Filed(recent, noneTarget, DOWN)),
               OneEpisode(NONE, Filed(recent, noneTarget, NONE)));
  }

  // ---- One symbol ----

  ghost predicate PlacesRise(made: seq<Produced>, symbol: string, place: Produced -> nat, low: nat, high: nat) {
    && (forall i :: 0 <= i < |made| ==> made[i].signal.symbol == symbol && low <= place(made[i]) < high)
    && forall i, j :: 0 <= i < j < |made| ==> place(made[i]) < place(made[j])
  }

  lemma RiseFrom(first: Produced, rest: seq<Produced>, symbol: string, place: Produced -> nat, low: nat, high: nat)
    requires first.signal.symbol == symbol && low <= place(first) < high
    requires PlacesRise(rest, symbol, place, place(first) + 1, high)
    ensures PlacesRise([first] + rest, symbol, place, low, high)
  {
  }

  /** Where a produced signal is, if it is of this lineage. */
  function PlaceIn(lineage: Lineage): Produced -> nat {
    (p: Produced) => Place(lineage, p.signal.direction)
  }

  lemma TailRises(eps: seq<Episode>, lineage: Lineage)
    requires EpisodesRise(eps) && eps != []
    ensures EpisodesRise(eps[1..])
    ensures forall i :: 0 <= i < |eps| - 1 ==>
              Place(lineage, eps[0].direction) < Place(lineage, eps[1..][i].direction)
  {
    forall i | 0 <= i < |eps| - 1
      ensures Place(lineage, eps[0].direction) < Place(lineage, eps[1..][i].direction)
    {
      assert eps[1..][i] == eps[i + 1];
    }
  }

  lemma {:induction false} ComposeAllRises(st: State, stolen: StolenSet, symbol: string, lineage: Lineage,
                                           eps: seq<Episode>, newIds: set<int>, tick: Tick, low: nat)
    requires WellPartitioned(eps) && EpisodesRise(eps)
    requires forall i :: 0 <= i < |eps| ==> low <= Place(lineage, eps[i].direction)
    ensures PlacesRise(ComposeAll(st, stolen, symbol, lineage, eps, newIds, tick).produced, symbol, PlaceIn(lineage),
                low,
                       Place(lineage, NONE) + 1)
    decreases eps
  {
    if eps != [] {
      var rest, next := eps[1..], Place(lineage, eps[0].direction) + 1;
      assert WellFormed(eps[0]);
      TailIsPartitioned(eps);
      TailRises(eps, lineage);
      if !HasNew(eps[0], newIds) {
        ComposeAllRises(st, stolen, symbol, lineage, rest, newIds, tick, low);
      } else {
        var c := ComposeEpisode(st, stolen, Key(symbol, lineage, eps[0].direction), eps[0].members, tick);
        ComposeAllRises(c.st, c.stolen, symbol, lineage, rest, newIds, tick, next);
        RiseFrom(c.made, ComposeAll(c.st, c.stolen, symbol, lineage, rest, newIds, tick).produced, symbol,
                 PlaceIn(lineage), low, Place(lineage, NONE) + 1);
      }
    }
  }

  lemma LineageRises(st: State, stolen: StolenSet, symbol: string, lineage: Lineage, batch: seq<MarketEvent>,
                     tick: Tick)
    ensures PlacesRise(ConsumeLineage(st, stolen, symbol, lineage, batch, tick).produced, symbol, PlaceIn(lineage),
                       Place(lineage, UP), Place(lineage, NONE) + 1)
  {
    var target := NoneTargetFor(st, symbol, lineage, batch);
    var chosen := EventsForPartition(st.home, symbol, lineage, InLineage(AcceptedOf(st, symbol), lineage),
                                     InLineage(batch, lineage), target);
    PartitionIsWellFormed(chosen, target);
    PartitionRises(chosen, target);
    ComposeAllRises(st, stolen, symbol, lineage, EpisodesFor(st, symbol, lineage, batch), IdsOf(batch), tick,
                    Place(lineage, UP));
  }

  /** The position of a signal by the slot it is in. */
  function PlaceOf(s: Signal): nat
    requires s.members != []
  {
    Place(KeyOf(s).lineage, s.direction)
  }

  ghost predicate InOrder(made: seq<Produced>) {
    && (forall i :: 0 <= i < |made| ==> made[i].signal.members != [])
    && forall i, j :: 0 <= i < j < |made| ==> PlaceOf(made[i].signal) < PlaceOf(made[j].signal)
  }

  lemma HalvesInOrder(st: State, after: State, tape: seq<Produced>, vwap: seq<Produced>, symbol: string)
    requires AllPlaced(st, tape, symbol, Tape) && AllPlaced(after, vwap, symbol, Vwap)
    requires PlacesRise(tape, symbol, PlaceIn(Tape), Place(Tape, UP), Place(Tape, NONE) + 1)
    requires PlacesRise(vwap, symbol, PlaceIn(Vwap), Place(Vwap, UP), Place(Vwap, NONE) + 1)
    ensures InOrder(tape + vwap)
  {
    forall i | 0 <= i < |tape|
      ensures tape[i].signal.members != [] && PlaceOf(tape[i].signal) == PlaceIn(Tape)(tape[i]) < 3
    {
      assert tape[i] in tape;
    }
    forall i | 0 <= i < |vwap|
      ensures vwap[i].signal.members != [] && PlaceOf(vwap[i].signal) == PlaceIn(Vwap)(vwap[i]) >= 3
    {
      assert vwap[i] in vwap;
    }
  }

  /** A symbol's signals are produced tape before vwap, and up before down before undirected in each. */
  lemma SymbolInOrder(st: State, symbol: string, batch: seq<MarketEvent>, lookback: real, wall: WallClock)
    requires batch != [] && OneSymbol(batch, symbol) && Inv(st)
    ensures var made := ConsumeSymbol(st, symbol, batch, lookback, wall).produced;
            InOrder(made) && forall p :: p in made ==> p.signal.symbol == symbol
  {
    var tick := SymbolTick(batch, lookback, wall);
    var s, tape := Admit(st, symbol, batch, tick), Tape0(st, symbol, batch, tick);
    TapeKeeps(st, symbol, batch, tick);
    AdmitKeeps(st, symbol, batch, tick);
    ConsumeLineageKeeps(tape.st, tape.stolen, symbol, Vwap, batch, tick);
    LineageRises(s, {}, symbol, Tape, batch, tick);
    LineageRises(tape.st, tape.stolen, symbol, Vwap, batch, tick);
    HalvesInOrder(tape.st, Vwap0(st, symbol, batch, tick).st, tape.produced, Vwap0(st, symbol, batch, tick).produced,
                  symbol);
  }

  // ---- Several symbols ----

  /** The index of a symbol's first event. */
  function FirstOf(events: seq<MarketEvent>, symbol: string): (n: nat)
    ensures n <= |events|
    ensures forall i :: 0 <= i < n ==> events[i].symbol != symbol
    ensures n < |events| ==> events[n].symbol == symbol
  {
    if events == [] || events[0].symbol == symbol then 0
    else
      var n := FirstOf(events[1..], symbol);
      assert forall i :: 1 <= i < n + 1 ==> events[i] == events[1..][i - 1];
      n + 1
  }

  lemma FirstUnique(events: seq<MarketEvent>, symbol: string, n: nat)
    requires n < |events| && events[n].symbol == symbol && forall i :: 0 <= i < n ==> events[i].symbol != symbol
    ensures FirstOf(events, symbol) == n
  {
  }

  lemma FirstKept(events: seq<MarketEvent>, symbol: string, e: MarketEvent)
    requires exists x :: x in events && x.symbol == symbol
    ensures FirstOf(events + [e], symbol) == FirstOf(events, symbol) < |events|
  {
    var n := FirstOf(events, symbol);
    var x :| x in events && x.symbol == symbol;
    assert n < |events|;
    FirstUnique(events + [e], symbol, n);
  }

  /** A batch is taken symbol by symbol in the order in which the symbols first appear. */
  lemma {:induction false} SymbolsAsTheyAppear(events: seq<MarketEvent>, i: nat, j: nat)
    requires i < j < |Symbols(events)|
    ensures FirstOf(events, Symbols(events)[i]) < FirstOf(events, Symbols(events)[j])
    decreases |events|
  {
    var n := |events| - 1;
    var before, r := events[..n], Symbols(events[..n]);
    assert events == before + [events[n]];
    assert Symbols(events)[i] in r;
    FirstKept(before, Symbols(events)[i], events[n]);
    if j < |r| {
      assert Symbols(events)[j] in r;
      FirstKept(before, Symbols(events)[j], events[n]);
      SymbolsAsTheyAppear(before, i, j);
    } else {
      FirstUnique(events, events[n].symbol, n);
    }
  }
}
