/** What each step of the signal composer computes, as functions of its state (signals/composer.py).
    The class in SignalComposer.dfy is proved to compute exactly these functions. */
module ComposerModel {
  import opened Common
  import opened Domain
  import opened Cluster

  /** The composer's four maps and the source of fresh episode ids. */
  datatype State = State(
    accepted: map<string, seq<MarketEvent>>,
    active: map<Key, Signal>,
    traces: map<nat, SignalTrace>,
    home: map<int, Key>,
    nextId: nat)

  const EMPTY := State(map[], map[], map[], map[], 0)

  /** What the wall clock reads when an id is handed out: each new episode has a reading of its own. */
  type WallClock = nat -> real

  /** For calls that hand out none. */
  const STOPPED: WallClock := _ => 0.0

  /** Market time, look-back and wall clock of one call. */
  datatype Tick = Tick(now: real, lookback: real, wall: WallClock) {
    function Cutoff(): real {
      now - lookback
    }
  }

  datatype Produced = Produced(signal: Signal, trace: SignalTrace)

  type StolenSet = set<(string, Lineage)>

  function NoneKey(symbol: string, lineage: Lineage): Key {
    Key(symbol, lineage, NONE)
  }

  // ---- Priority of an episode (signals/copy.py) ----

  function MaxPriority(a: Priority, b: Priority): Priority {
    if Rank(a) >= Rank(b) then a else b
  }

  function PriorityFromSeverity(severity: int): Priority {
    if severity >= 5 then Critical
    else if severity >= 4 then Important
    else if severity >= 3 then Notice
    else Info
  }

  function MaxSeverity(events: seq<MarketEvent>): (r: int)
    requires events != []
    ensures forall e :: e in events ==> e.severity <= r
    ensures exists e :: e in events && e.severity == r
  {
    if |events| == 1 then
      assert events[0] in events;
      events[0].severity
    else
      assert events == [events[0]] + events[1..];
      var rest := MaxSeverity(events[1..]);
      if events[0].severity >= rest then events[0].severity else rest
  }

  function ComposePriority(events: seq<MarketEvent>, family: Family): Priority
    requires events != []
  {
    var base := PriorityFromSeverity(MaxSeverity(events));
    var types := set e | e in events :: e.kind;
    var hasVol := types * {VolumeSpike, PriceVolumeExpansion} != {};
    var hasMove := types * {RapidMove, PriceVolumeExpansion} != {};
    if family == PriceVolume || (hasVol && hasMove) then MaxPriority(base, Important)
    else if family == Volume then MaxPriority(base, Notice)
    else base
  }

  // ---- One episode ----

  function BuildSignal(id: nat, key: Key, members: seq<MarketEvent>, created: real): Signal
    requires members != []
  {
    var latest := Last(members);
    var family := ClassifyFamily(members);
    Signal(id, members, key.symbol, family, key.direction, ComposePriority(members, family),
           latest.marketTs, latest.receivedTs, latest.detectedTs, created)
  }

  function RuleNames(members: seq<MarketEvent>): seq<string> {
    seq(|members|, i requires 0 <= i < |members| => members[i].ruleName)
  }

  function TraceOf(s: Signal): SignalTrace {
    SignalTrace(s.id, s.members, RuleNames(s.members), s.family, s.direction, s.priority, s.detectedTs, s.createdTs)
  }

  function Rehome(home: map<int, Key>, members: seq<MarketEvent>, key: Key): map<int, Key> {
    home + map i | i in IdsOf(members) :: key
  }

  datatype Identity = Identity(st: State, stolen: StolenSet, id: nat, created: real)

  predicate Live(st: State, key: Key, cutoff: real) {
    key in st.active && st.active[key].marketTs >= cutoff
  }

  /** Whether an episode opened at this key takes over the identity of the symbol's NONE episode. */
  predicate Steals(st: State, stolen: StolenSet, key: Key, cutoff: real) {
    && !Live(st, key, cutoff)
    && key.direction != NONE
    && (key.symbol, key.lineage) !in stolen
    && Live(st, NoneKey(key.symbol, key.lineage), cutoff)
  }

  function ResolveIdentity(st: State, stolen: StolenSet, key: Key, tick: Tick): Identity {
    var none := NoneKey(key.symbol, key.lineage);
    if Live(st, key, tick.Cutoff()) then
      Identity(st, stolen, st.active[key].id, st.active[key].createdTs)
    else if Steals(st, stolen, key, tick.Cutoff()) then
      var victim := st.active[none];
      Identity(st.(active := st.active - {none}, home := Rehome(st.home, victim.members, key)),
               stolen + {(key.symbol, key.lineage)}, victim.id, victim.createdTs)
    else
      Identity(st.(nextId := st.nextId + 1), stolen, st.nextId, tick.wall(st.nextId))
  }

  datatype Composed = Composed(st: State, stolen: StolenSet, made: Produced)

  function ComposeEpisode(st: State, stolen: StolenSet, key: Key, members: seq<MarketEvent>, tick: Tick): Composed
    requires members != []
  {
    var who := ResolveIdentity(st, stolen, key, tick);
    var signal := BuildSignal(who.id, key, members, who.created);
    var trace := TraceOf(signal);
    Composed(
      who.st.(active := who.st.active[key := signal],
              home := Rehome(who.st.home, members, key),
              traces := who.st.traces[signal.id := trace]),
      who.stolen,
      Produced(signal, trace))
  }

  // ---- Look-back pruning ----

  predicate Reclaimed(st: State, cutoff: real, eventId: int) {
    && eventId in st.home
    && st.home[eventId] in st.active
    && st.active[st.home[eventId]].marketTs < cutoff
    && eventId in IdsOf(st.active[st.home[eventId]].members)
  }

  function ExpiredKeys(st: State, cutoff: real): set<Key> {
    set k | k in st.active && st.active[k].marketTs < cutoff
  }

  function SignalIds(active: map<Key, Signal>, keys: set<Key>): set<nat> {
    set k | k in keys && k in active :: active[k].id
  }

  function PruneActive(st: State, cutoff: real): State {
    var expired := ExpiredKeys(st, cutoff);
    st.(active := st.active - expired,
        traces := st.traces - SignalIds(st.active, expired),
        home := map i | i in st.home && !Reclaimed(st, cutoff, i) :: st.home[i])
  }

  function AcceptedOf(st: State, symbol: string): seq<MarketEvent> {
    if symbol in st.accepted then st.accepted[symbol] else []
  }

  function Recent(events: seq<MarketEvent>, cutoff: real): seq<MarketEvent> {
    Filter(events, (e: MarketEvent) => e.marketTs >= cutoff)
  }

  function Prune(st: State, symbol: string, tick: Tick): State {
    PruneActive(
      st.(accepted := st.accepted[symbol := Recent(AcceptedOf(st, symbol), tick.Cutoff())]),
      tick.Cutoff())
  }

  // ---- One lineage, one symbol, one batch ----

  /** Which look-back events take part in this batch's episodes. */
  predicate Selected(home: map<int, Key>, symbol: string, lineage: Lineage, batchIds: set<int>,
                     noneTarget: Direction, e: MarketEvent)
  {
    if e.direction != NONE then true
    else if e.id !in home then e.id in batchIds
    else
      var h := home[e.id];
      && h.symbol == symbol
      && h.lineage == lineage
      && (h.direction == noneTarget || (h.direction == NONE && noneTarget in {UP, DOWN}))
  }

  function EventsForPartition(home: map<int, Key>, symbol: string, lineage: Lineage,
                              recent: seq<MarketEvent>, batch: seq<MarketEvent>, noneTarget: Direction)
    : seq<MarketEvent>
  {
    Filter(recent, (e: MarketEvent) => Selected(home, symbol, lineage, IdsOf(batch), noneTarget, e))
  }

  function InLineage(events: seq<MarketEvent>, lineage: Lineage): (r: seq<MarketEvent>)
    ensures forall e :: e in r <==> e in events && LineageOf(e.kind) == lineage
  {
    Filter(events, (e: MarketEvent) => LineageOf(e.kind) == lineage)
  }

  function LiveDirections(st: State, symbol: string, lineage: Lineage): set<Direction> {
    set k | k in st.active && k.symbol == symbol && k.lineage == lineage :: k.direction
  }

  datatype Outcome = Outcome(st: State, stolen: StolenSet, produced: seq<Produced>)

  predicate HasNew(ep: Episode, newIds: set<int>) {
    exists e :: e in ep.members && e.id in newIds
  }

  function ComposeAll(st: State, stolen: StolenSet, symbol: string, lineage: Lineage, eps: seq<Episode>,
                      newIds: set<int>, tick: Tick): Outcome
    decreases eps
  {
    if eps == [] then Outcome(st, stolen, [])
    else if !HasNew(eps[0], newIds) then ComposeAll(st, stolen, symbol, lineage, eps[1..], newIds, tick)
    else
      var c := ComposeEpisode(st, stolen, Key(symbol, lineage, eps[0].direction), eps[0].members, tick);
      var rest := ComposeAll(c.st, c.stolen, symbol, lineage, eps[1..], newIds, tick);
      rest.(produced := [c.made] + rest.produced)
  }

  function NoneTargetFor(st: State, symbol: string, lineage: Lineage, batch: seq<MarketEvent>): Direction {
    ResolveNoneTarget(InLineage(batch, lineage), InLineage(AcceptedOf(st, symbol), lineage),
                      LiveDirections(st, symbol, lineage))
  }

  function EpisodesFor(st: State, symbol: string, lineage: Lineage, batch: seq<MarketEvent>): seq<Episode> {
    var noneTarget := NoneTargetFor(st, symbol, lineage, batch);
    PartitionLineageEpisodes(
      EventsForPartition(st.home, symbol, lineage, InLineage(AcceptedOf(st, symbol), lineage),
                         InLineage(batch, lineage), noneTarget),
      noneTarget)
  }

  function ConsumeLineage(st: State, stolen: StolenSet, symbol: string, lineage: Lineage,
                          batch: seq<MarketEvent>, tick: Tick): Outcome
  {
    if InLineage(batch, lineage) == [] then Outcome(st, stolen, [])
    else ComposeAll(st, stolen, symbol, lineage, EpisodesFor(st, symbol, lineage, batch), IdsOf(batch), tick)
  }

  function MaxTs(batch: seq<MarketEvent>): (r: real)
    requires batch != []
    ensures forall e :: e in batch ==> e.marketTs <= r
    ensures exists e :: e in batch && e.marketTs == r
  {
    if |batch| == 1 then
      assert batch[0] in batch;
      batch[0].marketTs
    else
      assert batch == [batch[0]] + batch[1..];
      var rest := MaxTs(batch[1..]);
      if batch[0].marketTs >= rest then batch[0].marketTs else rest
  }

  /** Taking a symbol's batch in: look-back filtering of its history, then pruning of every symbol's episodes. */
  function Admit(st: State, symbol: string, batch: seq<MarketEvent>, tick: Tick): State {
    PruneActive(
      st.(accepted := st.accepted[symbol := Recent(AcceptedOf(st, symbol) + batch, tick.Cutoff())]),
      tick.Cutoff())
  }

  function SymbolTick(batch: seq<MarketEvent>, lookback: real, wall: WallClock): Tick
    requires batch != []
  {
    Tick(MaxTs(batch), lookback, wall)
  }

  function ConsumeSymbol(st: State, symbol: string, batch: seq<MarketEvent>, lookback: real, wall: WallClock): Outcome
    requires batch != []
  {
    var tick := SymbolTick(batch, lookback, wall);
    var tape := ConsumeLineage(Admit(st, symbol, batch, tick), {}, symbol, Tape, batch, tick);
    var vwap := ConsumeLineage(tape.st, tape.stolen, symbol, Vwap, batch, tick);
    vwap.(produced := tape.produced + vwap.produced)
  }

  /** The batch's symbols in order of first appearance. */
  function Symbols(events: seq<MarketEvent>): (r: seq<string>)
    ensures forall s :: s in r <==> exists e :: e in events && e.symbol == s
    ensures forall i, j :: 0 <= i < j < |r| ==> r[i] != r[j]
  {
    if events == [] then []
    else
      var n := |events| - 1;
      assert events == events[..n] + [events[n]];
      var r := Symbols(events[..n]);
      if events[n].symbol in r then r else r + [events[n].symbol]
  }

  function OfSymbol(events: seq<MarketEvent>, symbol: string): (r: seq<MarketEvent>)
    ensures forall e :: e in r <==> e in events && e.symbol == symbol
  {
    Filter(events, (e: MarketEvent) => e.symbol == symbol)
  }

  function ConsumeGroups(st: State, events: seq<MarketEvent>, symbols: seq<string>, lookback: real,
                         wall: WallClock): Outcome
    requires forall s :: s in symbols ==> OfSymbol(events, s) != []
    decreases symbols
  {
    if symbols == [] then Outcome(st, {}, [])
    else
      var first := ConsumeSymbol(st, symbols[0], OfSymbol(events, symbols[0]), lookback, wall);
      var rest := ConsumeGroups(first.st, events, symbols[1..], lookback, wall);
      rest.(produced := first.produced + rest.produced)
  }

  lemma SymbolsHaveEvents(events: seq<MarketEvent>)
    ensures forall s :: s in Symbols(events) ==> OfSymbol(events, s) != []
  {
    forall s | s in Symbols(events)
      ensures OfSymbol(events, s) != []
    {
      var e :| e in events && e.symbol == s;
      assert e in OfSymbol(events, s);
    }
  }

  function ConsumeBatch(st: State, events: seq<MarketEvent>, lookback: real, wall: WallClock): Outcome {
    SymbolsHaveEvents(events);
    ConsumeGroups(st, events, Symbols(events), lookback, wall)
  }
}
