/** Episode identity over whole runs of the composer. */
module ComposerRuns {
  import opened Common
  import opened Domain
  import opened Cluster
  import opened ComposerModel
  import opened ComposerInvariant
  import opened ComposerBatch
  import opened ComposerSymbol
  import opened ComposerTheorems

  /** One call of the composer for one symbol: a batch of its events, or a quiet tick that only prunes. */
  datatype Op =
    | Consume(symbol: string, batch: seq<MarketEvent>, wall: WallClock)
    | Quiet(symbol: string, now: real)
  {
    ghost predicate Valid() {
      Consume? ==> batch != [] && OneSymbol(batch, symbol)
    }

    function Clock(): real
      requires Valid()
    {
      if Consume? then MaxTs(batch) else now
    }
  }

  function Step(st: State, op: Op, lookback: real): State
    requires op.Valid()
  {
    match op
    case Consume(symbol, batch, wall) => ConsumeSymbol(st, symbol, batch, lookback, wall).st
    case Quiet(symbol, now) => Prune(st, symbol, Tick(now, lookback, STOPPED))
  }

  ghost predicate ValidOps(ops: seq<Op>) {
    forall op :: op in ops ==> op.Valid()
  }

  function Run(st: State, ops: seq<Op>, lookback: real): State
    requires ValidOps(ops)
    decreases ops
  {
    if ops == [] then st
    else
      assert ops[0] in ops && forall op :: op in ops[1..] ==> op in ops;
      Run(Step(st, ops[0], lookback), ops[1..], lookback)
  }

  lemma {:induction false} RunSplit(st: State, a: seq<Op>, b: seq<Op>, lookback: real)
    requires ValidOps(a) && ValidOps(b)
    ensures ValidOps(a + b) && Run(st, a + b, lookback) == Run(Run(st, a, lookback), b, lookback)
    decreases a
  {
    if a == [] {
      assert a + b == b;
    } else {
      assert (a + b)[0] == a[0] && (a + b)[1..] == a[1..] + b;
      assert forall op :: op in a[1..] ==> op in a;
      RunSplit(Step(st, a[0], lookback), a[1..], b, lookback);
    }
  }

  lemma RunOneMore(st: State, ops: seq<Op>, op: Op, lookback: real)
    requires ValidOps(ops) && op.Valid()
    ensures ValidOps(ops + [op]) && Run(st, ops + [op], lookback) == Step(Run(st, ops, lookback), op, lookback)
  {
    RunSplit(st, ops, [op], lookback);
    assert [op][1..] == [] && [op][0] == op;
  }

  // ---- The invariant over runs ----

  lemma StepKeeps(st: State, op: Op, lookback: real)
    requires op.Valid() && Inv(st)
    ensures var post := Step(st, op, lookback); Inv(post) && Evolves(st, post) && AllLive(post, op.Clock() - lookback)
  {
    match op
    case Consume(symbol, batch, wall) => ConsumeSymbolKeeps(st, symbol, batch, lookback, wall);
    case Quiet(symbol, now) => PruneKeeps(st, symbol, Tick(now, lookback, STOPPED));
  }

  lemma {:induction false} RunKeeps(st: State, ops: seq<Op>, lookback: real)
    requires ValidOps(ops) && Inv(st)
    ensures var post := Run(st, ops, lookback); Inv(post) && Evolves(st, post)
    decreases ops
  {
    if ops != [] {
      assert ops[0] in ops && forall op :: op in ops[1..] ==> op in ops;
      var mid := Step(st, ops[0], lookback);
      StepKeeps(st, ops[0], lookback);
      RunKeeps(mid, ops[1..], lookback);
      EvolvesTransitive(st, mid, Run(mid, ops[1..], lookback));
    }
  }

  lemma EmptyIsFine()
    ensures Inv(EMPTY)
  {
  }

  /** Every state the composer can reach from the empty one satisfies the invariant. */
  lemma ReachableIsFine(ops: seq<Op>, lookback: real)
    requires ValidOps(ops)
    ensures Inv(Run(EMPTY, ops, lookback))
  {
    EmptyIsFine();
    RunKeeps(EMPTY, ops, lookback);
  }

  /** A multi-symbol batch is the run of its symbols' batches. */
  function OpsOf(events: seq<MarketEvent>, symbols: seq<string>, wall: WallClock): seq<Op> {
    seq(|symbols|, i requires 0 <= i < |symbols| => Consume(symbols[i], OfSymbol(events, symbols[i]), wall))
  }

  lemma {:induction false} BatchIsRun(st: State, events: seq<MarketEvent>, symbols: seq<string>, lookback: real,
                                      wall: WallClock)
    requires forall s :: s in symbols ==> OfSymbol(events, s) != []
    ensures ValidOps(OpsOf(events, symbols, wall))
    ensures ConsumeGroups(st, events, symbols, lookback, wall).st == Run(st, OpsOf(events, symbols, wall), lookback)
    decreases symbols
  {
    var ops := OpsOf(events, symbols, wall);
    forall op | op in ops
      ensures op.Valid()
    {
      var i :| 0 <= i < |ops| && ops[i] == op;
      assert symbols[i] in symbols;
    }
    if symbols != [] {
      assert symbols[0] in symbols && forall s :: s in symbols[1..] ==> s in symbols;
      assert ops[1..] == OpsOf(events, symbols[1..], wall);
      BatchIsRun(Step(st, ops[0], lookback), events, symbols[1..], lookback, wall);
    }
  }

  // ---- Identity ----

  /** An id that has been handed out and is no longer active never becomes active again. */
  lemma IdNeverReturns(st: State, ops: seq<Op>, lookback: real, id: nat)
    requires ValidOps(ops) && Inv(st)
    requires id < st.nextId && !HasId(st.active, id)
    ensures !HasId(Run(st, ops, lookback).active, id)
  {
    RunKeeps(st, ops, lookback);
    EvolvesDropsId(st, Run(st, ops, lookback), id);
  }

  /** An id that stays active keeps its creation time, and its slot unless it moves from NONE to a direction of the
      same symbol and lineage. */
  lemma IdMovesOnlyFromNone(st: State, ops: seq<Op>, lookback: real, k: Key, k': Key)
    requires ValidOps(ops) && Inv(st)
    requires k in st.active && k' in Run(st, ops, lookback).active
    requires st.active[k].id == Run(st, ops, lookback).active[k'].id
    ensures Run(st, ops, lookback).active[k'].createdTs == st.active[k].createdTs
    ensures k == k' || (k == NoneKey(k'.symbol, k'.lineage) && k'.direction != NONE)
  {
    RunKeeps(st, ops, lookback);
    assert Inherits(st, k', Run(st, ops, lookback).active[k']);
  }

  /** Over any run an id changes its slot at most once. */
  lemma IdMovesAtMostOnce(st: State, ops: seq<Op>, more: seq<Op>, lookback: real, k0: Key, k1: Key, k2: Key)
    requires ValidOps(ops) && ValidOps(more) && Inv(st)
    requires k0 in st.active && k1 in Run(st, ops, lookback).active
    requires k2 in Run(Run(st, ops, lookback), more, lookback).active
    requires st.active[k0].id == Run(st, ops, lookback).active[k1].id
    requires st.active[k0].id == Run(Run(st, ops, lookback), more, lookback).active[k2].id
    ensures k0 == k1 || k1 == k2
  {
    RunKeeps(st, ops, lookback);
    IdMovesOnlyFromNone(st, ops, lookback, k0, k1);
    IdMovesOnlyFromNone(Run(st, ops, lookback), more, lookback, k1, k2);
  }

  // ---- Continuity ----

  lemma ComposeKeepsId(st: State, stolen: StolenSet, key: Key, members: seq<MarketEvent>, tick: Tick, id: nat)
    requires AllLive(st, tick.Cutoff()) && members != [] && HasId(st.active, id)
    ensures HasId(ComposeEpisode(st, stolen, key, members, tick).st.active, id)
  {
    ResolveFrame(st, stolen, key, tick);
    var post := ComposeEpisode(st, stolen, key, members, tick).st;
    var k :| k in st.active && st.active[k].id == id;
    var to := if k in post.active && post.active[k].id == id then k else key;
    assert to in post.active && post.active[to].id == id;
  }

  lemma {:induction false} ComposeAllKeepsId(st: State, stolen: StolenSet, symbol: string, lineage: Lineage,
                                             eps: seq<Episode>,
                          newIds: set<int>, tick: Tick, id: nat)
    requires Inv(st) && AllLive(st, tick.Cutoff()) && HasId(st.active, id)
    requires Composable(eps, symbol, lineage, tick.Cutoff())
    ensures HasId(ComposeAll(st, stolen, symbol, lineage, eps, newIds, tick).st.active, id)
    decreases eps
  {
    if eps != [] {
      TailIsComposable(eps, symbol, lineage, tick.Cutoff());
      if !HasNew(eps[0], newIds) {
        ComposeAllKeepsId(st, stolen, symbol, lineage, eps[1..], newIds, tick, id);
      } else {
        var key := Key(symbol, lineage, eps[0].direction);
        var c := ComposeEpisode(st, stolen, key, eps[0].members, tick);
        ComposeKeeps(st, stolen, key, eps[0].members, tick);
        ComposeKeepsId(st, stolen, key, eps[0].members, tick, id);
        ComposeAllKeepsId(c.st, c.stolen, symbol, lineage, eps[1..], newIds, tick, id);
      }
    }
  }

  lemma LineageKeepsId(st: State, stolen: StolenSet, symbol: string, lineage: Lineage, batch: seq<MarketEvent>,
                       tick: Tick, id: nat)
    requires Inv(st) && AllLive(st, tick.Cutoff()) && WithinLookback(st, symbol, tick.Cutoff())
    requires HasId(st.active, id)
    ensures HasId(ConsumeLineage(st, stolen, symbol, lineage, batch, tick).st.active, id)
  {
    if InLineage(batch, lineage) != [] {
      EpisodesAreComposable(st, symbol, lineage, batch, tick.Cutoff());
      ComposeAllKeepsId(st, stolen, symbol, lineage, EpisodesFor(st, symbol, lineage, batch), IdsOf(batch), tick, id);
    }
  }

  lemma AdmitKeepsId(st: State, symbol: string, batch: seq<MarketEvent>, tick: Tick, k: Key)
    requires IdsOk(st) && k in st.active
    ensures HasId(Admit(st, symbol, batch, tick).active, st.active[k].id) <==> st.active[k].marketTs >= tick.Cutoff()
  {
    var post := Admit(st, symbol, batch, tick);
    if st.active[k].marketTs >= tick.Cutoff() {
      assert k in post.active && post.active[k].id == st.active[k].id;
    }
  }

  lemma ConsumeKeepsId(st: State, symbol: string, batch: seq<MarketEvent>, lookback: real, wall: WallClock, id: nat)
    requires batch != [] && OneSymbol(batch, symbol) && Inv(st)
    requires HasId(Admit(st, symbol, batch, SymbolTick(batch, lookback, wall)).active, id)
    ensures HasId(ConsumeSymbol(st, symbol, batch, lookback, wall).st.active, id)
  {
    var tick := SymbolTick(batch, lookback, wall);
    var admitted := Admit(st, symbol, batch, tick);
    AdmitKeeps(st, symbol, batch, tick);
    AdmittedRecent(st, symbol, batch, tick);
    ConsumeLineageKeeps(admitted, {}, symbol, Tape, batch, tick);
    LineageKeepsId(admitted, {}, symbol, Tape, batch, tick, id);
    var tape := Tape0(st, symbol, batch, tick);
    LineageKeepsId(tape.st, tape.stolen, symbol, Vwap, batch, tick, id);
  }

  /** From an admitted state on, an id that was dropped stays dropped. */
  lemma ConsumeDropsId(st: State, symbol: string, batch: seq<MarketEvent>, lookback: real, wall: WallClock, id: nat)
    requires batch != [] && OneSymbol(batch, symbol) && Inv(st) && id < st.nextId
    requires !HasId(Admit(st, symbol, batch, SymbolTick(batch, lookback, wall)).active, id)
    ensures !HasId(ConsumeSymbol(st, symbol, batch, lookback, wall).st.active, id)
  {
    var tick := SymbolTick(batch, lookback, wall);
    var admitted := Admit(st, symbol, batch, tick);
    AdmitKeeps(st, symbol, batch, tick);
    AdmittedRecent(st, symbol, batch, tick);
    ConsumeLineageKeeps(admitted, {}, symbol, Tape, batch, tick);
    var tape := Tape0(st, symbol, batch, tick);
    ConsumeLineageKeeps(tape.st, tape.stolen, symbol, Vwap, batch, tick);
    var post := Vwap0(st, symbol, batch, tick).st;
    EvolvesTransitive(admitted, tape.st, post);
    EvolvesDropsId(admitted, post, id);
  }

  /** The episode of an active slot survives a call exactly when its newest event is within the look-back of the
      call's clock. This holds for every slot, whichever symbol the call is for. */
  lemma IdentitySurvivesStep(st: State, op: Op, lookback: real, k: Key)
    requires op.Valid() && Inv(st) && k in st.active
    ensures HasId(Step(st, op, lookback).active, st.active[k].id)
            <==> st.active[k].marketTs >= op.Clock() - lookback
  {
    var id := st.active[k].id;
    match op
    case Consume(symbol, batch, wall) =>
      var tick := SymbolTick(batch, lookback, wall);
      AdmitKeepsId(st, symbol, batch, tick, k);
      if st.active[k].marketTs >= op.Clock() - lookback {
        ConsumeKeepsId(st, symbol, batch, lookback, wall, id);
      } else {
        ConsumeDropsId(st, symbol, batch, lookback, wall, id);
      }
    case Quiet(symbol, now) =>
      var tick := Tick(now, lookback, STOPPED);
      assert AcceptedOf(st, symbol) + [] == AcceptedOf(st, symbol);
      AdmitKeepsId(st, symbol, [], tick, k);
  }

  /** No call of the run comes with a clock that leaves the id's episode behind the look-back. Nothing is asked of the
      state after the last call. */
  ghost predicate NeverBehind(st: State, ops: seq<Op>, lookback: real, id: nat)
    requires ValidOps(ops)
    decreases ops
  {
    if ops == [] then true
    else
      assert ops[0] in ops && forall op :: op in ops[1..] ==> op in ops;
      && (forall k :: k in st.active && st.active[k].id == id ==> st.active[k].marketTs >= ops[0].Clock() - lookback)
      && NeverBehind(Step(st, ops[0], lookback), ops[1..], lookback, id)
  }

  /** An active episode survives a run exactly when no call of the run leaves it behind the look-back. */
  lemma {:induction false} IdentitySurvivesRun(st: State, ops: seq<Op>, lookback: real, id: nat)
    requires ValidOps(ops) && Inv(st) && HasId(st.active, id)
    ensures HasId(Run(st, ops, lookback).active, id) <==> NeverBehind(st, ops, lookback, id)
    decreases ops
  {
    if ops != [] {
      assert ops[0] in ops && forall op :: op in ops[1..] ==> op in ops;
      var mid := Step(st, ops[0], lookback);
      var k :| k in st.active && st.active[k].id == id;
      StepKeeps(st, ops[0], lookback);
      IdentitySurvivesStep(st, ops[0], lookback, k);
      if HasId(mid.active, id) {
        IdentitySurvivesRun(mid, ops[1..], lookback, id);
      } else {
        IdNeverReturns(mid, ops[1..], lookback, id);
      }
    }
  }

  // ---- Directional slots ----

  /** The slot holds the episode it held before: same id, same creation time. */
  ghost predicate SameEpisode(st: State, post: State, k: Key)
    requires k in st.active
  {
    k in post.active && post.active[k].id == st.active[k].id && post.active[k].createdTs == st.active[k].createdTs
  }

  /** A directional slot never hands its episode to another slot. */
  lemma DirectionalStays(st: State, post: State, k: Key)
    requires Inv(st) && Evolves(st, post) && k in st.active && k.direction != NONE
    ensures HasId(post.active, st.active[k].id) <==> SameEpisode(st, post, k)
  {
    if HasId(post.active, st.active[k].id) {
      var k' :| k' in post.active && post.active[k'].id == st.active[k].id;
      assert Inherits(st, k', post.active[k']);
    }
  }

  /** A call keeps a directional slot's episode in place exactly when it is within the look-back of the call's clock. */
  lemma SlotSurvivesStep(st: State, op: Op, lookback: real, k: Key)
    requires op.Valid() && Inv(st) && k in st.active && k.direction != NONE
    ensures SameEpisode(st, Step(st, op, lookback), k) <==> st.active[k].marketTs >= op.Clock() - lookback
  {
    StepKeeps(st, op, lookback);
    IdentitySurvivesStep(st, op, lookback, k);
    DirectionalStays(st, Step(st, op, lookback), k);
  }

  /** At each call the slot's episode is within the look-back of the call's clock. */
  ghost predicate SlotNeverBehind(st: State, ops: seq<Op>, lookback: real, k: Key)
    requires ValidOps(ops)
    decreases ops
  {
    if ops == [] then true
    else
      assert ops[0] in ops && forall op :: op in ops[1..] ==> op in ops;
      && (k in st.active ==> st.active[k].marketTs >= ops[0].Clock() - lookback)
      && SlotNeverBehind(Step(st, ops[0], lookback), ops[1..], lookback, k)
  }

  /** A directional slot keeps its id over a run exactly when each composition comes within the look-back. */
  lemma {:induction false} SlotSurvivesRun(st: State, ops: seq<Op>, lookback: real, k: Key)
    requires ValidOps(ops) && Inv(st) && k in st.active && k.direction != NONE
    ensures SameEpisode(st, Run(st, ops, lookback), k) <==> SlotNeverBehind(st, ops, lookback, k)
    decreases ops
  {
    if ops != [] {
      assert ops[0] in ops && forall op :: op in ops[1..] ==> op in ops;
      var mid := Step(st, ops[0], lookback);
      StepKeeps(st, ops[0], lookback);
      SlotSurvivesStep(st, ops[0], lookback, k);
      DirectionalStays(st, mid, k);
      if SameEpisode(st, mid, k) {
        SlotSurvivesRun(mid, ops[1..], lookback, k);
      } else {
        IdNeverReturns(mid, ops[1..], lookback, st.active[k].id);
        NotHeldNotSame(st, Run(mid, ops[1..], lookback), k);
      }
    }
  }

  lemma NotHeldNotSame(st: State, post: State, k: Key)
    requires k in st.active && !HasId(post.active, st.active[k].id)
    ensures !SameEpisode(st, post, k)
  {
  }
}
