/** The signal composer as the class it is: four dictionaries updated in place (signals/composer.py). */
module SignalComposer {
  import opened Common
  import opened Domain
  import opened Cluster
  import opened ComposerModel
  import opened ComposerInvariant
  import opened ComposerBatch
  import opened ComposerSymbol
  import opened ComposerTheorems
  import opened ComposerHistory

  /** The position of a slot in a symbol's listing. */
  function SlotRank(k: Key): nat {
    (if k.lineage == Tape then 0 else 3) + (if k.direction == NONE then 0 else if k.direction == UP then 1 else 2)
  }

  function Slots(symbol: string): (r: seq<Key>)
    ensures forall k: Key :: k in r <==> k.symbol == symbol
    ensures forall i, j :: 0 <= i < j < |r| ==> SlotRank(r[i]) < SlotRank(r[j])
  {
    var r := [Key(symbol, Tape, NONE), Key(symbol, Tape, UP), Key(symbol, Tape, DOWN),
              Key(symbol, Vwap, NONE), Key(symbol, Vwap, UP), Key(symbol, Vwap, DOWN)];
    assert forall i :: 0 <= i < 6 ==> r[i].symbol == symbol && SlotRank(r[i]) == i;
    assert forall k: Key :: k.symbol == symbol ==> k == r[SlotRank(k)];
    r
  }

  function Present(active: map<Key, Signal>, keys: seq<Key>): seq<Signal> {
    if keys == [] then []
    else (if keys[0] in active then [active[keys[0]]] else []) + Present(active, keys[1..])
  }

  ghost predicate Listed(active: map<Key, Signal>, keys: seq<Key>, s: Signal) {
    exists k :: k in active && k in keys && active[k] == s
  }

  lemma {:induction false} PresentMembers(active: map<Key, Signal>, keys: seq<Key>, s: Signal)
    ensures s in Present(active, keys) <==> Listed(active, keys, s)
  {
    if keys != [] {
      PresentMembers(active, keys[1..], s);
      assert keys == [keys[0]] + keys[1..];
      if Listed(active, keys, s) && !Listed(active, keys[1..], s) {
        var k :| k in active && k in keys && active[k] == s;
        assert k == keys[0];
      } else if Listed(active, keys[1..], s) {
        var k :| k in active && k in keys[1..] && active[k] == s;
        assert k in keys;
      }
    }
  }

  ghost predicate Ascending(r: seq<Signal>) {
    && (forall i :: 0 <= i < |r| ==> r[i].members != [])
    && forall i, j :: 0 <= i < j < |r| ==> SlotRank(KeyOf(r[i])) < SlotRank(KeyOf(r[j]))
  }

  lemma AscendingCons(s: Signal, rest: seq<Signal>)
    requires Ascending(rest) && s.members != []
    requires forall t :: t in rest ==> t.members != [] && SlotRank(KeyOf(s)) < SlotRank(KeyOf(t))
    ensures Ascending([s] + rest)
  {
    var r := [s] + rest;
    forall i, j | 0 <= i < j < |r|
      ensures SlotRank(KeyOf(r[i])) < SlotRank(KeyOf(r[j]))
    {
      assert r[j] == rest[j - 1] && rest[j - 1] in rest;
      assert i > 0 ==> r[i] == rest[i - 1];
    }
  }

  lemma LaterSlots(keys: seq<Key>, k: Key)
    requires keys != [] && k in keys[1..]
    requires forall i, j :: 0 <= i < j < |keys| ==> SlotRank(keys[i]) < SlotRank(keys[j])
    ensures k in keys && SlotRank(keys[0]) < SlotRank(k)
  {
    var i :| 0 <= i < |keys[1..]| && keys[1..][i] == k;
    assert keys[i + 1] == k;
  }

  lemma OwnSlot(k: Key, s: Signal)
    requires SignalOk(k, s)
    ensures s.members != [] && KeyOf(s) == k
  {
    assert s.members[0] in s.members;
  }

  lemma {:induction false} PresentAscends(active: map<Key, Signal>, keys: seq<Key>)
    requires SignalsOk(active)
    requires forall i, j :: 0 <= i < j < |keys| ==> SlotRank(keys[i]) < SlotRank(keys[j])
    ensures Ascending(Present(active, keys))
    ensures forall s :: s in Present(active, keys) ==> s.members != [] && KeyOf(s) in keys
  {
    if keys != [] {
      PresentAscends(active, keys[1..]);
      var rest := Present(active, keys[1..]);
      forall t | t in rest
        ensures KeyOf(t) in keys && SlotRank(keys[0]) < SlotRank(KeyOf(t))
      {
        LaterSlots(keys, KeyOf(t));
      }
      if keys[0] in active {
        OwnSlot(keys[0], active[keys[0]]);
        AscendingCons(active[keys[0]], rest);
      } else {
        assert Present(active, keys) == rest;
      }
    }
  }

  lemma PresentOfSymbol(active: map<Key, Signal>, symbol: string)
    requires SignalsOk(active)
    ensures var r := Present(active, Slots(symbol));
            && (forall s :: s in r <==> exists k :: k in active && k.symbol == symbol && active[k] == s)
            && Ascending(r)
  {
    PresentAscends(active, Slots(symbol));
    forall s
      ensures s in Present(active, Slots(symbol)) <==> exists k :: k in active && k.symbol == symbol && active[k] == s
    {
      PresentMembers(active, Slots(symbol), s);
    }
  }

  ghost function Vacated(home: map<int, Key>, members: seq<MarketEvent>, key: Key): map<int, Key> {
    map e | e in home && !(home[e] == key && e in IdsOf(members)) :: home[e]
  }

  lemma NoMembers(home: map<int, Key>, members: seq<MarketEvent>, key: Key)
    requires members == []
    ensures Rehome(home, members, key) == home && Vacated(home, members, key) == home
  {
    assert IdsOf(members) == {};
  }

  lemma RehomeStep(home: map<int, Key>, done: seq<MarketEvent>, e: MarketEvent, key: Key)
    ensures Rehome(home, done + [e], key) == Rehome(home, done, key)[e.id := key]
  {
    assert IdsOf(done + [e]) == IdsOf(done) + {e.id};
  }

  lemma VacatedStep(home: map<int, Key>, done: seq<MarketEvent>, e: MarketEvent, key: Key)
    ensures var was := Vacated(home, done, key);
            Vacated(home, done + [e], key) == if e.id in was && was[e.id] == key then was - {e.id} else was
  {
    assert IdsOf(done + [e]) == IdsOf(done) + {e.id};
  }

  /** The homes left after the listed expired slots have been cleared. */
  ghost function Unclaimed(st: State, done: set<Key>): map<int, Key> {
    map e | e in st.home
            && !(st.home[e] in done && st.home[e] in st.active && e in IdsOf(st.active[st.home[e]].members))
      :: st.home[e]
  }

  lemma PruneStep(st: State, done: set<Key>, key: Key)
    requires key in st.active && key !in done
    ensures st.active - (done + {key}) == (st.active - done) - {key}
    ensures st.traces - SignalIds(st.active, done + {key})
            == (st.traces - SignalIds(st.active, done)) - {st.active[key].id}
    ensures Vacated(Unclaimed(st, done), st.active[key].members, key) == Unclaimed(st, done + {key})
  {
    UnclaimedStep(st, done, key);
    assert SignalIds(st.active, done + {key}) == SignalIds(st.active, done) + {st.active[key].id};
  }

  lemma UnclaimedStep(st: State, done: set<Key>, key: Key)
    requires key in st.active && key !in done
    ensures Vacated(Unclaimed(st, done), st.active[key].members, key) == Unclaimed(st, done + {key})
  {
  }

  function Prepend(produced: seq<Produced>, out: Outcome): Outcome {
    out.(produced := produced + out.produced)
  }

  lemma PrependTwice(a: seq<Produced>, b: seq<Produced>, out: Outcome)
    ensures Prepend(a, Prepend(b, out)) == Prepend(a + b, out)
  {
    assert a + (b + out.produced) == (a + b) + out.produced;
  }

  lemma ComposeAllStep(st: State, stolen: StolenSet, symbol: string, lineage: Lineage, eps: seq<Episode>, i: nat,
                       newIds: set<int>, tick: Tick)
    requires i < |eps| && eps[i].members != []
    ensures ComposeAll(st, stolen, symbol, lineage, eps[i..], newIds, tick)
            == if !HasNew(eps[i], newIds) then ComposeAll(st, stolen, symbol, lineage, eps[i + 1..], newIds, tick)
               else
                 var c := ComposeEpisode(st, stolen, Key(symbol, lineage, eps[i].direction), eps[i].members, tick);
                 Prepend([c.made], ComposeAll(c.st, c.stolen, symbol, lineage, eps[i + 1..], newIds, tick))
  {
    assert eps[i..][0] == eps[i] && eps[i..][1..] == eps[i + 1..];
  }

  lemma ConsumeGroupsStep(st: State, events: seq<MarketEvent>, order: seq<string>, j: nat, lookback: real,
                          wall: WallClock)
    requires j < |order|
    requires forall s :: s in order ==> OfSymbol(events, s) != []
    ensures order[j] in order
    ensures var first := ConsumeSymbol(st, order[j], OfSymbol(events, order[j]), lookback, wall);
            ConsumeGroups(st, events, order[j..], lookback, wall)
            == Prepend(first.produced, ConsumeGroups(first.st, events, order[j + 1..], lookback, wall))
  {
    assert order[j..][0] == order[j] && order[j..][1..] == order[j + 1..];
  }

  lemma EpisodesPartitioned(st: State, symbol: string, lineage: Lineage, batch: seq<MarketEvent>)
    ensures WellPartitioned(EpisodesFor(st, symbol, lineage, batch))
  {
    var noneTarget := NoneTargetFor(st, symbol, lineage, batch);
    PartitionIsWellFormed(ChosenFor(st, symbol, lineage, batch), noneTarget);
  }

  ghost predicate Holds(order: seq<string>, bySymbol: map<string, seq<MarketEvent>>,
                        group: string -> seq<MarketEvent>) {
    && (forall s :: s in bySymbol <==> s in order)
    && forall s :: s in bySymbol ==> bySymbol[s] == group(s)
  }

  lemma HoldsStep(order: seq<string>, bySymbol: map<string, seq<MarketEvent>>, event: MarketEvent,
                  before: string -> seq<MarketEvent>, after: string -> seq<MarketEvent>)
    requires Holds(order, bySymbol, before)
    requires after(event.symbol) == before(event.symbol) + [event]
    requires event.symbol !in order ==> before(event.symbol) == []
    requires forall t :: t != event.symbol ==> after(t) == before(t)
    ensures event.symbol in bySymbol ==>
              Holds(order, bySymbol[event.symbol := bySymbol[event.symbol] + [event]], after)
    ensures event.symbol !in bySymbol ==>
              Holds(order + [event.symbol], bySymbol[event.symbol := [event]], after)
  {
    assert [] + [event] == [event];
  }

  /** The order of first appearance and the groups of a list of events. */
  ghost predicate Grouped(order: seq<string>, bySymbol: map<string, seq<MarketEvent>>, done: seq<MarketEvent>) {
    order == Symbols(done) && Holds(order, bySymbol, s => OfSymbol(done, s))
  }

  lemma GroupedStep(order: seq<string>, bySymbol: map<string, seq<MarketEvent>>, done: seq<MarketEvent>,
                    event: MarketEvent)
    requires Grouped(order, bySymbol, done)
    ensures event.symbol in bySymbol ==>
              Grouped(order, bySymbol[event.symbol := bySymbol[event.symbol] + [event]], done + [event])
    ensures event.symbol !in bySymbol ==>
              Grouped(order + [event.symbol], bySymbol[event.symbol := [event]], done + [event])
  {
    SymbolsOneMore(done, event);
    OfSymbolOneMore(done, event);
    HoldsStep(order, bySymbol, event, s => OfSymbol(done, s), s => OfSymbol(done + [event], s));
  }

  /** Groups a batch by symbol, remembering the order of first appearance. */
  method GroupBySymbol(events: seq<MarketEvent>) returns (order: seq<string>, bySymbol: map<string, seq<MarketEvent>>)
    ensures Grouped(order, bySymbol, events)
  {
    order, bySymbol := [], map[];
    for i := 0 to |events|
      invariant Grouped(order, bySymbol, events[..i])
    {
      var event := events[i];
      assert events[..i + 1] == events[..i] + [event];
      GroupedStep(order, bySymbol, events[..i], event);
      if event.symbol !in bySymbol {
        order := order + [event.symbol];
        bySymbol := bySymbol[event.symbol := [event]];
      } else {
        bySymbol := bySymbol[event.symbol := bySymbol[event.symbol] + [event]];
      }
    }
    assert events[..|events|] == events;
  }

  lemma SymbolsOneMore(events: seq<MarketEvent>, event: MarketEvent)
    ensures var r := Symbols(events);
            Symbols(events + [event]) == if event.symbol in r then r else r + [event.symbol]
  {
    assert (events + [event])[..|events|] == events;
  }

  lemma OfSymbolOneMore(events: seq<MarketEvent>, event: MarketEvent)
    ensures OfSymbol(events + [event], event.symbol) == OfSymbol(events, event.symbol) + [event]
    ensures event.symbol !in Symbols(events) ==> OfSymbol(events, event.symbol) == []
    ensures forall t :: t != event.symbol ==> OfSymbol(events + [event], t) == OfSymbol(events, t)
  {
    forall t: string
      ensures OfSymbol(events + [event], t) == OfSymbol(events, t) + if t == event.symbol then [event] else []
    {
      FilterConcat(events, [event], (e: MarketEvent) => e.symbol == t);
    }
    if OfSymbol(events, event.symbol) != [] {
      assert OfSymbol(events, event.symbol)[0] in events;
    }
  }

  class Composer {
    const lookback: real
    var accepted: map<string, seq<MarketEvent>>
    var active: map<Key, Signal>
    var traces: map<nat, SignalTrace>
    var home: map<int, Key>
    var nextId: nat

    /** Every event the composer was ever given. */
    ghost var told: set<MarketEvent>

    ghost function St(): State
      reads this
    {
      State(accepted, active, traces, home, nextId)
    }

    /** Distinct identities, exact traces, members that belong to their slot, and nothing but told events. */
    ghost predicate Valid()
      reads this
    {
      Inv(St()) && From(St(), told)
    }

    constructor (lookback: real)
      ensures this.lookback == lookback && St() == EMPTY && told == {} && Valid()
    {
      this.lookback := lookback;
      accepted, active, traces, home, nextId := map[], map[], map[], map[], 0;
      told := {};
    }

    /** The active episodes of a symbol, tape before vwap and NONE, UP, DOWN within each. */
    function ActiveSignals(symbol: string): (r: seq<Signal>)
      requires Valid()
      reads this
      ensures forall s :: s in r <==> exists k :: k in active && k.symbol == symbol && active[k] == s
      ensures Ascending(r)
    {
      PresentOfSymbol(active, symbol);
      Present(active, Slots(symbol))
    }

    lemma UpdatesAreTraced(symbol: string)
      requires Valid()
      ensures forall s :: s in ActiveSignals(symbol) ==> s.id in traces && traces[s.id] == TraceOf(s)
    {
    }

    /** Look-up never misses for the id of an active episode, and yields that episode's own trace. */
    method TraceFor(signalId: nat) returns (trace: SignalTrace)
      requires signalId in traces
      ensures trace == traces[signalId]
      ensures Valid() ==> exists k :: k in active && active[k].id == signalId && trace == TraceOf(active[k])
    {
      trace := traces[signalId];
      assert Valid() ==> HasId(active, signalId);
    }

    method PruneActiveAt(now: real)
      modifies `active, `traces, `home
      ensures St() == PruneActive(old(St()), now - lookback)
    {
      var cutoff := now - lookback;
      ghost var was := St();
      var expired := set k | k in active && active[k].marketTs < cutoff;
      var todo := expired;
      while todo != {}
        invariant todo <= expired == ExpiredKeys(was, cutoff)
        invariant active == was.active - (expired - todo)
        invariant traces == was.traces - SignalIds(was.active, expired - todo)
        invariant home == Unclaimed(was, expired - todo)
        invariant accepted == was.accepted && nextId == was.nextId
        decreases todo
      {
        var key :| key in todo;
        ghost var done := expired - todo;
        assert expired - (todo - {key}) == done + {key};
        var signal := active[key];
        active := active - {key};
        traces := traces - {signal.id};
        PruneStep(was, done, key);
        Vacate(signal.members, key);
        todo := todo - {key};
      }
      assert expired - todo == expired;
      assert home == PruneActive(was, cutoff).home;
    }

    /** Members still at home at the key lose their home. */
    method Vacate(members: seq<MarketEvent>, key: Key)
      modifies `home
      ensures home == Vacated(old(home), members, key)
    {
      ghost var before := home;
      NoMembers(before, members[..0], key);
      for i := 0 to |members|
        invariant home == Vacated(before, members[..i], key)
      {
        assert members[..i + 1] == members[..i] + [members[i]];
        VacatedStep(before, members[..i], members[i], key);
        var eventId := members[i].id;
        if eventId in home && home[eventId] == key {
          home := home - {eventId};
        }
      }
      assert members[..|members|] == members;
    }

    method ResolveSlot(symbol: string, lineage: Lineage, direction: Direction, now: real, wall: WallClock,
                       stolen: StolenSet)
      returns (stolen': StolenSet, id: nat, created: real)
      modifies `active, `home, `nextId
      ensures Identity(St(), stolen', id, created)
              == ResolveIdentity(old(St()), stolen, Key(symbol, lineage, direction), Tick(now, lookback, wall))
    {
      var cutoff := now - lookback;
      stolen' := stolen;
      var key := Key(symbol, lineage, direction);
      if key in active && active[key].marketTs >= cutoff {
        return stolen', active[key].id, active[key].createdTs;
      }
      var none := Key(symbol, lineage, NONE);
      if direction != NONE && (symbol, lineage) !in stolen {
        if none in active && active[none].marketTs >= cutoff {
          var victim := active[none];
          active := active - {none};
          stolen' := stolen' + {(symbol, lineage)};
          Settle(victim.members, key);
          return stolen', victim.id, victim.createdTs;
        }
      }
      id, created := nextId, wall(nextId);
      nextId := nextId + 1;
    }

    /** Every member event is at home at the key. */
    method Settle(members: seq<MarketEvent>, key: Key)
      modifies `home
      ensures home == Rehome(old(home), members, key)
    {
      ghost var was := home;
      NoMembers(was, members[..0], key);
      for i := 0 to |members|
        invariant home == Rehome(was, members[..i], key)
      {
        assert members[..i + 1] == members[..i] + [members[i]];
        RehomeStep(was, members[..i], members[i], key);
        home := home[members[i].id := key];
      }
      assert members[..|members|] == members;
    }

    method Compose(symbol: string, lineage: Lineage, direction: Direction, members: seq<MarketEvent>,
                   now: real, wall: WallClock, stolen: StolenSet)
      returns (stolen': StolenSet, made: Produced)
      requires members != []
      modifies this
      ensures told == old(told)
      ensures Composed(St(), stolen', made)
              == ComposeEpisode(old(St()), stolen, Key(symbol, lineage, direction), members, Tick(now, lookback, wall))
    {
      var id, created;
      stolen', id, created := ResolveSlot(symbol, lineage, direction, now, wall, stolen);
      var key := Key(symbol, lineage, direction);
      var signal := BuildSignal(id, key, members, created);
      active := active[key := signal];
      Settle(members, key);
      var trace := TraceOf(signal);
      traces := traces[signal.id := trace];
      made := Produced(signal, trace);
    }

    method SelectEvents(symbol: string, lineage: Lineage, recent: seq<MarketEvent>, batch: seq<MarketEvent>,
                        noneTarget: Direction) returns (selected: seq<MarketEvent>)
      ensures selected == EventsForPartition(home, symbol, lineage, recent, batch, noneTarget)
    {
      var batchIds := IdsOf(batch);
      selected := [];
      ghost var homes := home;
      ghost var keep := (e: MarketEvent) => Selected(homes, symbol, lineage, batchIds, noneTarget, e);
      assert EventsForPartition(home, symbol, lineage, recent, batch, noneTarget) == Filter(recent, keep);
      for i := 0 to |recent|
        invariant selected == Filter(recent[..i], keep)
      {
        var event := recent[i];
        assert recent[..i + 1] == recent[..i] + [event];
        FilterConcat(recent[..i], [event], keep);
        if event.direction != NONE {
          selected := selected + [event];
          continue;
        }
        if event.id !in home {
          if event.id in batchIds {
            selected := selected + [event];
          }
          continue;
        }
        var h := home[event.id];
        if h.symbol != symbol || h.lineage != lineage {
          continue;
        }
        if h.direction == noneTarget {
          selected := selected + [event];
        } else if h.direction == NONE && noneTarget in {UP, DOWN} {
          selected := selected + [event];
        }
      }
      assert recent[..|recent|] == recent;
    }

    method EpisodesOf(symbol: string, lineage: Lineage, batch: seq<MarketEvent>) returns (eps: seq<Episode>)
      ensures eps == EpisodesFor(St(), symbol, lineage, batch)
    {
      var lineageRecent := InLineage(if symbol in accepted then accepted[symbol] else [], lineage);
      var lineageBatch := InLineage(batch, lineage);
      var live := set k | k in active && k.symbol == symbol && k.lineage == lineage :: k.direction;
      var noneTarget := ResolveNoneTarget(lineageBatch, lineageRecent, live);
      var chosen := SelectEvents(symbol, lineage, lineageRecent, lineageBatch, noneTarget);
      eps := PartitionLineageEpisodes(chosen, noneTarget);
    }

    method ComposeEach(symbol: string, lineage: Lineage, eps: seq<Episode>, newIds: set<int>, now: real,
                       wall: WallClock,
                       stolen: StolenSet)
      returns (stolen': StolenSet, produced: seq<Produced>)
      requires WellPartitioned(eps)
      modifies this
      ensures told == old(told)
      ensures Outcome(St(), stolen', produced)
              == ComposeAll(old(St()), stolen, symbol, lineage, eps, newIds, Tick(now, lookback, wall))
    {
      stolen', produced := stolen, [];
      ghost var tick := Tick(now, lookback, wall);
      ghost var all := ComposeAll(St(), stolen, symbol, lineage, eps, newIds, tick);
      assert eps[0..] == eps;
      for i := 0 to |eps|
        invariant told == old(told)
        invariant all == Prepend(produced, ComposeAll(St(), stolen', symbol, lineage, eps[i..], newIds, tick))
      {
        assert WellFormed(eps[i]);
        ComposeAllStep(St(), stolen', symbol, lineage, eps, i, newIds, tick);
        if HasNew(eps[i], newIds) {
          var made;
          stolen', made := Compose(symbol, lineage, eps[i].direction, eps[i].members, now, wall, stolen');
          PrependTwice(produced, [made], ComposeAll(St(), stolen', symbol, lineage, eps[i + 1..], newIds, tick));
          produced := produced + [made];
        }
      }
    }

    method ConsumeLineageOf(symbol: string, lineage: Lineage, batch: seq<MarketEvent>, now: real, wall: WallClock,
                            stolen: StolenSet)
      returns (stolen': StolenSet, produced: seq<Produced>)
      modifies this
      ensures told == old(told)
      ensures Outcome(St(), stolen', produced)
              == ConsumeLineage(old(St()), stolen, symbol, lineage, batch, Tick(now, lookback, wall))
    {
      if InLineage(batch, lineage) == [] {
        return stolen, [];
      }
      var eps := EpisodesOf(symbol, lineage, batch);
      EpisodesPartitioned(St(), symbol, lineage, batch);
      stolen', produced := ComposeEach(symbol, lineage, eps, IdsOf(batch), now, wall, stolen);
    }

    method AdmitBatch(symbol: string, batch: seq<MarketEvent>, now: real)
      modifies this
      ensures told == old(told)
      ensures forall wall :: St() == Admit(old(St()), symbol, batch, Tick(now, lookback, wall))
    {
      var history := (if symbol in accepted then accepted[symbol] else []) + batch;
      accepted := accepted[symbol := Recent(history, now - lookback)];
      PruneActiveAt(now);
    }

    method ConsumeForSymbol(symbol: string, batch: seq<MarketEvent>, wall: WallClock) returns (produced: seq<Produced>)
      requires batch != []
      modifies this
      ensures told == old(told)
      ensures var out := ConsumeSymbol(old(St()), symbol, batch, lookback, wall);
              St() == out.st && produced == out.produced
    {
      var now := MaxTs(batch);
      AdmitBatch(symbol, batch, now);
      var stolen: StolenSet, more;
      stolen, produced := ConsumeLineageOf(symbol, Tape, batch, now, wall, {});
      stolen, more := ConsumeLineageOf(symbol, Vwap, batch, now, wall, stolen);
      produced := produced + more;
    }

    method ConsumeEach(events: seq<MarketEvent>, order: seq<string>, bySymbol: map<string, seq<MarketEvent>>,
                       wall: WallClock)
      returns (produced: seq<Produced>)
      requires forall s :: s in order ==> s in bySymbol && bySymbol[s] == OfSymbol(events, s) != []
      modifies this
      ensures told == old(told)
      ensures var out := ConsumeGroups(old(St()), events, order, lookback, wall);
              St() == out.st && produced == out.produced
    {
      produced := [];
      ghost var all := ConsumeGroups(St(), events, order, lookback, wall);
      assert order[0..] == order;
      for j := 0 to |order|
        invariant told == old(told)
        invariant all == Prepend(produced, ConsumeGroups(St(), events, order[j..], lookback, wall))
      {
        assert order[j] in order;
        ConsumeGroupsStep(St(), events, order, j, lookback, wall);
        var made := ConsumeForSymbol(order[j], bySymbol[order[j]], wall);
        PrependTwice(produced, made, ConsumeGroups(St(), events, order[j + 1..], lookback, wall));
        produced := produced + made;
      }
    }

    /** Composes a batch symbol by symbol, in order of first appearance. */
    method ConsumeAll(events: seq<MarketEvent>, wall: WallClock) returns (produced: seq<Produced>)
      requires Valid()
      modifies this
      ensures var out := ConsumeBatch(old(St()), events, lookback, wall);
              St() == out.st && produced == out.produced
      ensures told == old(told) + EventsOf(events)
      ensures Valid() && DistinctProduced(produced) && NoneShared(produced)
    {
      AnyBatch(St(), events, lookback, wall);
      BatchFrom(St(), events, lookback, wall, told);
      SymbolsHaveEvents(events);
      var order, bySymbol := GroupBySymbol(events);
      produced := ConsumeEach(events, order, bySymbol, wall);
      told := told + EventsOf(events);
    }

    /** Composes one event and finds its signal; None if no produced signal has the event. */
    method ConsumeOneEvent(event: MarketEvent, wall: WallClock) returns (found: Option<Produced>)
      requires Valid()
      modifies this
      ensures Valid() && St() == ConsumeBatch(old(St()), [event], lookback, wall).st
      ensures found.Some? ==> event.id in IdsOf(found.value.signal.members)
      ensures told == old(told) + {event}
      ensures !Used(old(told), event.id) && lookback >= 0.0 ==> found.Some?
    {
      if !Used(told, event.id) && lookback >= 0.0 {
        NewIsFound(St(), told, event, lookback, wall);
      }
      JustOne(event);
      var produced := ConsumeAll([event], wall);
      found := FindSignal(produced, event);
    }

    /** A tick without accepted events: only the look-back moves. */
    method PruneQuiet(symbol: string, now: real)
      requires Valid()
      modifies this
      ensures St() == Prune(old(St()), symbol, Tick(now, lookback, STOPPED))
      ensures Valid() && told == old(told) && AllLive(St(), now - lookback)
    {
      PruneKeeps(St(), symbol, Tick(now, lookback, STOPPED));
      PruneFrom(St(), symbol, Tick(now, lookback, STOPPED), told);
      DropOld(symbol, now);
    }

    method DropOld(symbol: string, now: real)
      modifies this
      ensures told == old(told)
      ensures St() == Prune(old(St()), symbol, Tick(now, lookback, STOPPED))
    {
      var history := if symbol in accepted then accepted[symbol] else [];
      accepted := accepted[symbol := Recent(history, now - lookback)];
      PruneActiveAt(now);
    }
  }

  method FindSignal(produced: seq<Produced>, event: MarketEvent) returns (found: Option<Produced>)
    ensures found.Some? ==> found.value in produced && event.id in IdsOf(found.value.signal.members)
    ensures found.Some? <==> HoldsId(produced, event.id)
  {
    for i := 0 to |produced|
      invariant forall j :: 0 <= j < i ==> event.id !in IdsOf(produced[j].signal.members)
    {
      if event.id in IdsOf(produced[i].signal.members) {
        return Some(produced[i]);
      }
    }
    found := None;
  }
}
