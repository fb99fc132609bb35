/** The composer's guarantees for any batch and any run. */
module ComposerTheorems {
  import opened Common
  import opened Domain
  import opened Cluster
  import opened ComposerModel
  import opened ComposerInvariant
  import opened ComposerBatch
  import opened ComposerSymbol
  import opened ComposerFresh

  // ---- Batches of several symbols ----

  /** Symbols a batch is grouped by: pairwise different, each with events. */
  ghost predicate Groups(events: seq<MarketEvent>, symbols: seq<string>) {
    && (forall i, j :: 0 <= i < j < |symbols| ==> symbols[i] != symbols[j])
    && forall s :: s in symbols ==> OfSymbol(events, s) != []
  }

  function SymbolCutoff(events: seq<MarketEvent>, symbol: string, lookback: real): real
    requires OfSymbol(events, symbol) != []
  {
    MaxTs(OfSymbol(events, symbol)) - lookback
  }

  lemma TailGroups(events: seq<MarketEvent>, symbols: seq<string>)
    requires Groups(events, symbols) && symbols != []
    ensures Groups(events, symbols[1..]) && symbols[0] !in symbols[1..] && symbols[0] in symbols
    ensures OneSymbol(OfSymbol(events, symbols[0]), symbols[0])
  {
    assert forall s :: s in symbols[1..] ==> s in symbols;
  }

  /** The invariant survives any batch: whatever the events, ids and timestamps. */
  lemma {:induction false} GroupsKeep(st: State, events: seq<MarketEvent>, symbols: seq<string>, lookback: real,
                                      wall: WallClock)
    requires Inv(st) && Groups(events, symbols)
    ensures var out := ConsumeGroups(st, events, symbols, lookback, wall); Inv(out.st) && Evolves(st, out.st)
    decreases symbols
  {
    if symbols != [] {
      TailGroups(events, symbols);
      var batch := OfSymbol(events, symbols[0]);
      ConsumeSymbolKeeps(st, symbols[0], batch, lookback, wall);
      var first := ConsumeSymbol(st, symbols[0], batch, lookback, wall);
      GroupsKeep(first.st, events, symbols[1..], lookback, wall);
      EvolvesTransitive(st, first.st, ConsumeGroups(first.st, events, symbols[1..], lookback, wall).st);
    }
  }

  /** The signal is within the look-back of every listed symbol's newest event. */
  ghost predicate OutlivesAll(s: Signal, events: seq<MarketEvent>, symbols: seq<string>, lookback: real)
    requires forall x :: x in symbols ==> OfSymbol(events, x) != []
  {
    forall x :: x in symbols ==> s.marketTs >= SymbolCutoff(events, x, lookback)
  }

  /** Later symbols of a batch can only age an episode of another symbol out. */
  lemma {:induction false} LaterGroupsOnlyAge(st: State, events: seq<MarketEvent>, symbols: seq<string>,
                                              lookback: real, wall: WallClock, k: Key)
    requires Inv(st) && Groups(events, symbols) && k.symbol !in symbols
    ensures var post := ConsumeGroups(st, events, symbols, lookback, wall).st;
            && (k in post.active <==> (k in st.active && OutlivesAll(st.active[k], events, symbols, lookback)))
            && (k in post.active ==> post.active[k] == st.active[k])
    decreases symbols
  {
    if symbols != [] {
      TailGroups(events, symbols);
      var batch := OfSymbol(events, symbols[0]);
      ConsumeSymbolKeeps(st, symbols[0], batch, lookback, wall);
      OtherSymbolsOnlyAge(st, symbols[0], batch, lookback, wall, k);
      var first := ConsumeSymbol(st, symbols[0], batch, lookback, wall);
      LaterGroupsOnlyAge(first.st, events, symbols[1..], lookback, wall, k);
      assert forall s :: s in symbols <==> s == symbols[0] || s in symbols[1..];
    }
  }

  /** Each produced signal's id is new or was held by the same symbol before. */
  ghost predicate IdsStayInSymbol(pre: State, produced: seq<Produced>) {
    forall p :: p in produced ==> p.signal.id >= pre.nextId || HeldBy(pre, p.signal.id, p.signal.symbol)
  }

  ghost predicate HeldBy(st: State, id: nat, symbol: string) {
    exists k :: k in st.active && k.symbol == symbol && st.active[k].id == id
  }

  lemma PlacedIdsStay(pre: State, post: State, produced: seq<Produced>)
    requires Evolves(pre, post)
    requires forall p :: p in produced ==> Placed(post, p)
    ensures IdsStayInSymbol(pre, produced)
  {
    forall p | p in produced && p.signal.id < pre.nextId
      ensures HeldBy(pre, p.signal.id, p.signal.symbol)
    {
      var k := KeyOf(p.signal);
      assert Inherits(pre, k, post.active[k]);
      var from := if k in pre.active && pre.active[k].id == p.signal.id then k else NoneKey(k.symbol, k.lineage);
      assert from in pre.active && from.symbol == p.signal.symbol && pre.active[from].id == p.signal.id;
    }
  }

  lemma IdsStayThrough(a: State, b: State, produced: seq<Produced>)
    requires Evolves(a, b) && IdsStayInSymbol(b, produced)
    ensures IdsStayInSymbol(a, produced)
  {
    forall p | p in produced && p.signal.id < a.nextId
      ensures HeldBy(a, p.signal.id, p.signal.symbol)
    {
      assert HeldBy(b, p.signal.id, p.signal.symbol);
      var k :| k in b.active && k.symbol == p.signal.symbol && b.active[k].id == p.signal.id;
      assert Inherits(a, k, b.active[k]);
      var from := if k in a.active && a.active[k].id == p.signal.id then k else NoneKey(k.symbol, k.lineage);
      assert from in a.active && from.symbol == p.signal.symbol && a.active[from].id == p.signal.id;
    }
  }

  ghost predicate DistinctProduced(produced: seq<Produced>) {
    forall i, j :: 0 <= i < j < |produced| ==> produced[i].signal.id != produced[j].signal.id
  }

  lemma PlacedAreDistinct(st: State, produced: seq<Produced>)
    requires IdsOk(st) && DistinctKeys(produced)
    requires forall p :: p in produced ==> Placed(st, p)
    ensures DistinctProduced(produced)
  {
    forall i, j | 0 <= i < j < |produced|
      ensures produced[i].signal.id != produced[j].signal.id
    {
      assert produced[i] in produced && produced[j] in produced;
      assert KeyOf(produced[i].signal) != KeyOf(produced[j].signal);
    }
  }

  lemma ConcatDistinct(mid: State, symbol: string, first: seq<Produced>, rest: seq<Produced>)
    requires IdsOk(mid) && DistinctProduced(first) && DistinctProduced(rest)
    requires forall p :: p in first ==> Placed(mid, p) && p.signal.symbol == symbol
    requires forall p :: p in rest ==> p.signal.symbol != symbol
    requires IdsStayInSymbol(mid, rest)
    ensures DistinctProduced(first + rest)
  {
    var all := first + rest;
    forall i, j | 0 <= i < j < |all|
      ensures all[i].signal.id != all[j].signal.id
    {
      var n := |first|;
      if j >= n && i < n {
        assert all[i] == first[i] && all[j] == rest[j - n];
        assert all[i] in first && all[j] in rest;
        var k := KeyOf(all[i].signal);
        assert mid.active[k].id == all[i].signal.id < mid.nextId;
        if HeldBy(mid, all[j].signal.id, all[j].signal.symbol) {
          var k2 :| k2 in mid.active && k2.symbol == all[j].signal.symbol && mid.active[k2].id == all[j].signal.id;
          assert k2 != k;
        }
      } else if j < n {
        assert all[i] == first[i] && all[j] == first[j];
      } else {
        assert all[i] == rest[i - n] && all[j] == rest[j - n];
      }
    }
  }

  /** All signals of one batch carry different ids, whatever the events and timestamps. */
  lemma {:induction false} GroupsDistinct(st: State, events: seq<MarketEvent>, symbols: seq<string>, lookback: real,
                                          wall: WallClock)
    requires Inv(st) && Groups(events, symbols)
    ensures var out := ConsumeGroups(st, events, symbols, lookback, wall);
            && DistinctProduced(out.produced) && IdsStayInSymbol(st, out.produced)
            && forall p :: p in out.produced ==> p.signal.symbol in symbols
    decreases symbols
  {
    if symbols != [] {
      TailGroups(events, symbols);
      var batch := OfSymbol(events, symbols[0]);
      ConsumeSymbolKeeps(st, symbols[0], batch, lookback, wall);
      var first := ConsumeSymbol(st, symbols[0], batch, lookback, wall);
      GroupsDistinct(first.st, events, symbols[1..], lookback, wall);
      var rest := ConsumeGroups(first.st, events, symbols[1..], lookback, wall);
      PlacedAreDistinct(first.st, first.produced);
      ConcatDistinct(first.st, symbols[0], first.produced, rest.produced);
      PlacedIdsStay(st, first.st, first.produced);
      IdsStayThrough(st, first.st, rest.produced);
    }
  }

  // ---- What a batch produces ----

  lemma PlacedMember(st: State, p: Produced, e: MarketEvent)
    requires Inv(st) && Placed(st, p) && e in p.signal.members
    ensures KeyOf(p.signal) == Key(e.symbol, LineageOf(e.kind), p.signal.direction)
    ensures e.symbol == p.signal.symbol && p.signal.marketTs >= e.marketTs
  {
    var k := KeyOf(p.signal);
    assert SignalOk(k, st.active[k]);
    var i :| 0 <= i < |p.signal.members| && p.signal.members[i] == e;
    assert i < |p.signal.members| - 1 ==> Before(e, Last(p.signal.members));
  }

  /** Every member of a produced signal belongs to the signal's symbol and is within that symbol's look-back. */
  lemma {:induction false} GroupsMembers(st: State, events: seq<MarketEvent>, symbols: seq<string>, lookback: real,
                                         wall: WallClock,
                      p: Produced, e: MarketEvent)
    requires Inv(st) && Groups(events, symbols)
    requires p in ConsumeGroups(st, events, symbols, lookback, wall).produced && e in p.signal.members
    ensures e.symbol == p.signal.symbol && e.symbol in symbols
    ensures e.marketTs >= SymbolCutoff(events, e.symbol, lookback)
    ensures multiset(p.signal.members)[e] == multiset(AcceptedOf(st, e.symbol) + OfSymbol(events, e.symbol))[e]
    decreases symbols
  {
    TailGroups(events, symbols);
    var batch := OfSymbol(events, symbols[0]);
    ConsumeSymbolKeeps(st, symbols[0], batch, lookback, wall);
    var first := ConsumeSymbol(st, symbols[0], batch, lookback, wall);
    if p in first.produced {
      PlacedMember(first.st, p, e);
      SymbolDisjoint(st, symbols[0], batch, lookback, wall, p, p, e);
    } else {
      GroupsMembers(first.st, events, symbols[1..], lookback, wall, p, e);
      OtherSymbolsOnlyAge(st, symbols[0], batch, lookback, wall, Key(e.symbol, Tape, UP));
    }
  }

  /** No event is a member of two of the signals. */
  ghost predicate NoneShared(produced: seq<Produced>) {
    forall i, j, e :: 0 <= i < j < |produced| && e in produced[i].signal.members ==> e !in produced[j].signal.members
  }

  lemma SymbolNoneShared(st: State, symbol: string, batch: seq<MarketEvent>, lookback: real, wall: WallClock)
    requires batch != [] && OneSymbol(batch, symbol) && Inv(st)
    ensures NoneShared(ConsumeSymbol(st, symbol, batch, lookback, wall).produced)
  {
    var out := ConsumeSymbol(st, symbol, batch, lookback, wall);
    ConsumeSymbolKeeps(st, symbol, batch, lookback, wall);
    forall i, j, e | 0 <= i < j < |out.produced| && e in out.produced[i].signal.members
      ensures e !in out.produced[j].signal.members
    {
      if e in out.produced[j].signal.members {
        PlacedMember(out.st, out.produced[i], e);
        PlacedMember(out.st, out.produced[j], e);
        SymbolDisjoint(st, symbol, batch, lookback, wall, out.produced[i], out.produced[j], e);
      }
    }
  }

  lemma ConcatNoneShared(first: seq<Produced>, rest: seq<Produced>, symbol: string)
    requires NoneShared(first) && NoneShared(rest)
    requires forall p, e :: p in first && e in p.signal.members ==> e.symbol == symbol
    requires forall p, e :: p in rest && e in p.signal.members ==> e.symbol != symbol
    ensures NoneShared(first + rest)
  {
    var all := first + rest;
    forall i, j, e | 0 <= i < j < |all| && e in all[i].signal.members
      ensures e !in all[j].signal.members
    {
      var n := |first|;
      if j < n {
        assert all[i] == first[i] && all[j] == first[j];
      } else if i >= n {
        assert all[i] == rest[i - n] && all[j] == rest[j - n];
      } else {
        assert all[i] == first[i] && first[i] in first;
        assert all[j] == rest[j - n] && rest[j - n] in rest;
        assert e.symbol == symbol;
      }
    }
  }

  lemma {:induction false} GroupsNoneShared(st: State, events: seq<MarketEvent>, symbols: seq<string>, lookback: real,
                                            wall: WallClock)
    requires Inv(st) && Groups(events, symbols)
    ensures NoneShared(ConsumeGroups(st, events, symbols, lookback, wall).produced)
    decreases symbols
  {
    if symbols != [] {
      TailGroups(events, symbols);
      var batch := OfSymbol(events, symbols[0]);
      ConsumeSymbolKeeps(st, symbols[0], batch, lookback, wall);
      var first := ConsumeSymbol(st, symbols[0], batch, lookback, wall);
      var rest := ConsumeGroups(first.st, events, symbols[1..], lookback, wall);
      forall p, e | p in first.produced && e in p.signal.members
        ensures e.symbol == symbols[0]
      {
        PlacedMember(first.st, p, e);
      }
      forall p, e | p in rest.produced && e in p.signal.members
        ensures e.symbol != symbols[0]
      {
        GroupsMembers(first.st, events, symbols[1..], lookback, wall, p, e);
      }
      SymbolNoneShared(st, symbols[0], batch, lookback, wall);
      GroupsNoneShared(first.st, events, symbols[1..], lookback, wall);
      ConcatNoneShared(first.produced, rest.produced, symbols[0]);
    }
  }

  /** A fresh event is composed exactly when it is within its own symbol's look-back. */
  lemma {:induction false} GroupsCompose(st: State, events: seq<MarketEvent>, symbols: seq<string>, lookback: real,
                                         wall: WallClock, e: MarketEvent)
    requires Inv(st) && Groups(events, symbols)
    requires e in events && e.symbol in symbols && FreshIn(st, e) && OnlyHolder(events, e)
    ensures IsMember(ConsumeGroups(st, events, symbols, lookback, wall).produced, e)
            <==> e.marketTs >= SymbolCutoff(events, e.symbol, lookback)
    decreases symbols
  {
    TailGroups(events, symbols);
    var batch := OfSymbol(events, symbols[0]);
    ConsumeSymbolKeeps(st, symbols[0], batch, lookback, wall);
    var first := ConsumeSymbol(st, symbols[0], batch, lookback, wall);
    var rest := ConsumeGroups(first.st, events, symbols[1..], lookback, wall);
    var made := ConsumeGroups(st, events, symbols, lookback, wall).produced;
    assert made == first.produced + rest.produced;
    if IsMember(made, e) {
      var p :| p in made && e in p.signal.members;
      GroupsMembers(st, events, symbols, lookback, wall, p, e);
    }
    if e.marketTs >= SymbolCutoff(events, e.symbol, lookback) {
      if e.symbol == symbols[0] {
        SymbolComposes(st, symbols[0], batch, lookback, wall, e);
        var p :| p in first.produced && e in p.signal.members;
        assert p in made;
      } else {
        SymbolKeepsFresh(st, symbols[0], batch, lookback, wall, e);
        GroupsCompose(first.st, events, symbols[1..], lookback, wall, e);
        var p :| p in rest.produced && e in p.signal.members;
        assert p in made;
      }
    }
  }

  ghost predicate IsMember(produced: seq<Produced>, e: MarketEvent) {
    exists p :: p in produced && e in p.signal.members
  }

  lemma SymbolsAreGroups(events: seq<MarketEvent>)
    ensures Groups(events, Symbols(events))
  {
    SymbolsHaveEvents(events);
  }

  /** A batch of events that the composer has not seen and whose ids are pairwise different. */
  ghost predicate FreshBatch(st: State, events: seq<MarketEvent>) {
    && (forall e :: e in events ==> FreshIn(st, e) && OnlyHolder(events, e) && e !in AcceptedOf(st, e.symbol))
    && forall e :: e in events ==> multiset(events)[e] == 1
  }

  /** Every batch keeps the invariant, hands out pairwise different ids and composes disjoint signals. */
  lemma AnyBatch(st: State, events: seq<MarketEvent>, lookback: real, wall: WallClock)
    requires Inv(st)
    ensures var out := ConsumeBatch(st, events, lookback, wall);
            && Inv(out.st) && Evolves(st, out.st)
            && DistinctProduced(out.produced) && NoneShared(out.produced)
  {
    SymbolsAreGroups(events);
    GroupsKeep(st, events, Symbols(events), lookback, wall);
    GroupsDistinct(st, events, Symbols(events), lookback, wall);
    GroupsNoneShared(st, events, Symbols(events), lookback, wall);
  }

  /** A fresh event is in exactly one produced signal, once, if it is within its symbol's look-back; otherwise
      in none. */
  lemma FreshEventOnce(st: State, events: seq<MarketEvent>, lookback: real, wall: WallClock, e: MarketEvent)
    requires Inv(st) && FreshBatch(st, events) && e in events
    ensures OfSymbol(events, e.symbol) != []
    ensures var made := ConsumeBatch(st, events, lookback, wall).produced;
            && (IsMember(made, e) <==> e.marketTs >= SymbolCutoff(events, e.symbol, lookback))
            && forall p :: p in made && e in p.signal.members ==> multiset(p.signal.members)[e] == 1
  {
    SymbolsAreGroups(events);
    var symbols := Symbols(events);
    assert e in OfSymbol(events, e.symbol);
    GroupsCompose(st, events, symbols, lookback, wall, e);
    var made := ConsumeBatch(st, events, lookback, wall).produced;
    forall p | p in made && e in p.signal.members
      ensures multiset(p.signal.members)[e] == 1
    {
      GroupsMembers(st, events, symbols, lookback, wall, p, e);
      FilterMultiset(events, (x: MarketEvent) => x.symbol == e.symbol, e);
    }
  }

  // ---- Which produced signals are still active when the batch is done ----

  /** The symbols processed after `symbol`. */
  function After(symbols: seq<string>, symbol: string): (r: seq<string>)
    ensures forall s :: s in r ==> s in symbols
  {
    if symbols == [] then []
    else if symbols[0] == symbol then symbols[1..]
    else
      var r := After(symbols[1..], symbol);
      assert forall s :: s in symbols[1..] ==> s in symbols;
      r
  }

  /** A produced signal is active at the end exactly when it is within the look-back of every later symbol of the
      batch: pruning uses each symbol's own clock on every symbol's episodes. */
  lemma {:induction false} StillActive(st: State, events: seq<MarketEvent>, symbols: seq<string>, lookback: real,
                                       wall: WallClock, p: Produced)
    requires Inv(st) && Groups(events, symbols)
    requires p in ConsumeGroups(st, events, symbols, lookback, wall).produced
    ensures Placed(ConsumeGroups(st, events, symbols, lookback, wall).st, p)
            <==> OutlivesAll(p.signal, events, After(symbols, p.signal.symbol), lookback)
    decreases symbols
  {
    TailGroups(events, symbols);
    var batch := OfSymbol(events, symbols[0]);
    ConsumeSymbolKeeps(st, symbols[0], batch, lookback, wall);
    var first := ConsumeSymbol(st, symbols[0], batch, lookback, wall);
    var rest := ConsumeGroups(first.st, events, symbols[1..], lookback, wall);
    GroupsDistinct(first.st, events, symbols[1..], lookback, wall);
    if p in first.produced {
      LaterGroupsOnlyAge(first.st, events, symbols[1..], lookback, wall, KeyOf(p.signal));
    } else {
      assert p in rest.produced;
      StillActive(first.st, events, symbols[1..], lookback, wall, p);
    }
  }

  lemma {:induction false} AfterExcludes(symbols: seq<string>, symbol: string)
    requires forall i, j :: 0 <= i < j < |symbols| ==> symbols[i] != symbols[j]
    ensures symbol !in After(symbols, symbol)
  {
    if symbols != [] && symbols[0] != symbol {
      AfterExcludes(symbols[1..], symbol);
    }
  }

  /** A batch of one symbol, which is what a market tick submits, leaves all its signals active. */
  lemma OneSymbolStaysActive(st: State, events: seq<MarketEvent>, lookback: real, wall: WallClock, symbol: string)
    requires Inv(st) && OneSymbol(events, symbol)
    ensures var out := ConsumeBatch(st, events, lookback, wall);
            forall p :: p in out.produced ==> Placed(out.st, p) && p.signal.symbol == symbol
  {
    SymbolsAreGroups(events);
    var symbols := Symbols(events);
    var out := ConsumeBatch(st, events, lookback, wall);
    AfterExcludes(symbols, symbol);
    GroupsDistinct(st, events, symbols, lookback, wall);
    forall p | p in out.produced
      ensures Placed(out.st, p)
    {
      StillActive(st, events, symbols, lookback, wall, p);
    }
  }

  /** Consuming a single fresh event finds its signal exactly when the look-back is not negative. */
  lemma ConsumeOne(st: State, event: MarketEvent, lookback: real, wall: WallClock)
    requires Inv(st) && FreshBatch(st, [event])
    ensures IsMember(ConsumeBatch(st, [event], lookback, wall).produced, event) <==> lookback >= 0.0
  {
    FreshEventOnce(st, [event], lookback, wall, event);
    assert forall e :: e in OfSymbol([event], event.symbol) ==> e == event;
  }
}
