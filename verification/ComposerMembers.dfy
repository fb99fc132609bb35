/** Which events an upward or downward episode holds: after any run, those its symbol's look-back held when the episode
    was last composed. */
module ComposerMembers {
  import opened Common
  import opened Domain
  import opened Cluster
  import opened ComposerModel
  import opened ComposerInvariant
  import opened ComposerBatch
  import opened ComposerSymbol
  import opened ComposerRuns
  import opened ComposerSlots
  import opened ComposerHistory

  // ---- One batch ----

  /** A NONE event that is not at home in another slot than the one NONE events go to. */
  predicate Unplaced(s: State, symbol: string, lineage: Lineage, target: Direction, m: MarketEvent) {
    || m.id !in s.home
    || s.home[m.id] == Key(symbol, lineage, target)
    || (s.home[m.id] == NoneKey(symbol, lineage) && target != NONE)
  }

  /** An event within the look-back that goes to the slot: a NONE event only if NONE events go there. */
  predicate GoesTo(s: State, symbol: string, lineage: Lineage, batch: seq<MarketEvent>, cutoff: real, d: Direction,
                   m: MarketEvent)
  {
    && LineageOf(m.kind) == lineage && m.marketTs >= cutoff
    && if m.direction == NONE
       then NoneTargetFor(s, symbol, lineage, batch) == d && Unplaced(s, symbol, lineage, d, m)
       else m.direction == d
  }

  /** The batch composes the slot: one of its events goes there. */
  predicate Composes(s: State, symbol: string, lineage: Lineage, batch: seq<MarketEvent>, cutoff: real, d: Direction) {
    exists m :: m in batch && GoesTo(s, symbol, lineage, batch, cutoff, d, m)
  }

  lemma DirectionalIsChosen(s: State, symbol: string, lineage: Lineage, batch: seq<MarketEvent>, e: MarketEvent)
    requires e.direction != NONE
    ensures e in ChosenFor(s, symbol, lineage, batch) <==> e in AcceptedOf(s, symbol) && LineageOf(e.kind) == lineage
  {
    assert e in ChosenFor(s, symbol, lineage, batch) <==> e in InLineage(AcceptedOf(s, symbol), lineage);
  }

  lemma UndirectedIsChosen(s: State, symbol: string, lineage: Lineage, batch: seq<MarketEvent>, m: MarketEvent)
    requires m.direction == NONE && m in batch
    ensures m in ChosenFor(s, symbol, lineage, batch)
            <==> && m in AcceptedOf(s, symbol) && LineageOf(m.kind) == lineage
                 && Unplaced(s, symbol, lineage, NoneTargetFor(s, symbol, lineage, batch), m)
  {
    var target := NoneTargetFor(s, symbol, lineage, batch);
    assert m in InLineage(AcceptedOf(s, symbol), lineage)
           <==> m in AcceptedOf(s, symbol) && LineageOf(m.kind) == lineage;
    if LineageOf(m.kind) == lineage {
      assert m in InLineage(batch, lineage);
    }
  }

  lemma GoesThere(s: State, symbol: string, lineage: Lineage, batch: seq<MarketEvent>, cutoff: real, d: Direction,
                  m: MarketEvent)
    requires m in batch && (m in AcceptedOf(s, symbol) <==> m.marketTs >= cutoff)
    ensures m in ChosenFor(s, symbol, lineage, batch) && Destination(m, NoneTargetFor(s, symbol, lineage, batch)) == d
            <==> GoesTo(s, symbol, lineage, batch, cutoff, d, m)
  {
    if m.direction == NONE {
      UndirectedIsChosen(s, symbol, lineage, batch, m);
    } else {
      DirectionalIsChosen(s, symbol, lineage, batch, m);
    }
  }

  lemma ComposesExactly(st: State, s: State, symbol: string, batch: seq<MarketEvent>, tick: Tick, lineage: Lineage,
                        d: Direction)
    requires s == Admit(st, symbol, batch, tick) && NamedApart(st, symbol, batch)
    ensures Recomposed(s, symbol, lineage, batch, d) <==> Composes(s, symbol, lineage, batch, tick.Cutoff(), d)
  {
    AdmittedRecent(st, symbol, batch, tick);
    AdmittedApart(st, symbol, batch, tick);
    forall m | m in batch
      ensures m in ChosenFor(s, symbol, lineage, batch)
              && Destination(m, NoneTargetFor(s, symbol, lineage, batch)) == d
              <==> GoesTo(s, symbol, lineage, batch, tick.Cutoff(), d, m)
    {
      assert m in AcceptedOf(s, symbol) <==> m.marketTs >= tick.Cutoff();
      GoesThere(s, symbol, lineage, batch, tick.Cutoff(), d, m);
    }
    forall m | m in ChosenFor(s, symbol, lineage, batch) && m.id in IdsOf(batch)
      ensures m in batch
    {
      NewIsOfTheBatch(AcceptedOf(s, symbol), batch, m);
    }
  }

  lemma NewIsOfTheBatch(held: seq<MarketEvent>, batch: seq<MarketEvent>, m: MarketEvent)
    requires m in held && m.id in IdsOf(batch) && IdsAgree(held + batch)
    ensures m in batch
  {
    var x :| x in batch && x.id == m.id;
    assert x in held + batch && m in held + batch;
  }

  lemma ComposedJoins(st: State, s: State, symbol: string, batch: seq<MarketEvent>, tick: Tick, lineage: Lineage,
                      d: Direction, e: MarketEvent)
    requires s == Admit(st, symbol, batch, tick) && NamedApart(st, symbol, batch)
    requires Composes(s, symbol, lineage, batch, tick.Cutoff(), d)
    ensures Joins(s, symbol, lineage, batch, d, e) || Stays(s, symbol, lineage, batch, d, e)
            <==> e in ChosenFor(s, symbol, lineage, batch)
                 && Destination(e, NoneTargetFor(s, symbol, lineage, batch)) == d
  {
    ComposesExactly(st, s, symbol, batch, tick, lineage, d);
  }

  lemma AdmittedExactly(st: State, s: State, symbol: string, batch: seq<MarketEvent>, tick: Tick, e: MarketEvent)
    requires s == Admit(st, symbol, batch, tick)
    ensures e in AcceptedOf(s, symbol) <==> (e in AcceptedOf(st, symbol) || e in batch) && e.marketTs >= tick.Cutoff()
  {
    AdmittedRecent(st, symbol, batch, tick);
  }

  /** If the batch composes an upward or downward slot, the slot's events with a direction are afterwards exactly those
      of its lineage and direction that the symbol's look-back holds, from whichever batch. */
  lemma DirectionalMembers(st: State, symbol: string, batch: seq<MarketEvent>, lookback: real, wall: WallClock,
                           lineage: Lineage, d: Direction, e: MarketEvent)
    requires batch != [] && OneSymbol(batch, symbol) && Inv(st) && NamedApart(st, symbol, batch)
    requires d != NONE && e.direction != NONE
    requires Composes(Admit(st, symbol, batch, SymbolTick(batch, lookback, wall)), symbol, lineage, batch,
                      MaxTs(batch) - lookback, d)
    ensures ActiveIn(ConsumeSymbol(st, symbol, batch, lookback, wall).st, Key(symbol, lineage, d), e)
            <==> && (e in AcceptedOf(st, symbol) || e in batch) && e.marketTs >= MaxTs(batch) - lookback
                 && LineageOf(e.kind) == lineage && e.direction == d
  {
    var tick := SymbolTick(batch, lookback, wall);
    DirectionalJoins(st, Admit(st, symbol, batch, tick), symbol, batch, tick, lineage, d, e);
    BatchLeaves(st, symbol, batch, lookback, wall, lineage, d, e);
  }

  lemma DirectionalJoins(st: State, s: State, symbol: string, batch: seq<MarketEvent>, tick: Tick, lineage: Lineage,
                         d: Direction, e: MarketEvent)
    requires s == Admit(st, symbol, batch, tick) && NamedApart(st, symbol, batch) && d != NONE && e.direction != NONE
    requires Composes(s, symbol, lineage, batch, tick.Cutoff(), d)
    ensures Joins(s, symbol, lineage, batch, d, e) || Stays(s, symbol, lineage, batch, d, e)
            <==> && (e in AcceptedOf(st, symbol) || e in batch) && e.marketTs >= tick.Cutoff()
                 && LineageOf(e.kind) == lineage && e.direction == d
  {
    AdmittedExactly(st, s, symbol, batch, tick, e);
    ComposedJoins(st, s, symbol, batch, tick, lineage, d, e);
    DirectionalIsChosen(s, symbol, lineage, batch, e);
  }

  /** A NONE event that takes part in a batch: one of the batch not at home elsewhere, or an earlier one at home in the
      slot NONE events go to, or in the NONE slot while they go to another. */
  predicate TakesPart(s: State, symbol: string, lineage: Lineage, target: Direction, batch: seq<MarketEvent>,
                      m: MarketEvent)
  {
    (m in batch || m.id in s.home) && Unplaced(s, symbol, lineage, target, m)
  }

  lemma HeldIsChosen(s: State, symbol: string, lineage: Lineage, batch: seq<MarketEvent>, m: MarketEvent)
    requires m.direction == NONE && m !in batch && IdsAgree(AcceptedOf(s, symbol) + batch)
    ensures m in ChosenFor(s, symbol, lineage, batch)
            <==> && m in AcceptedOf(s, symbol) && LineageOf(m.kind) == lineage
                 && m.id in s.home && Unplaced(s, symbol, lineage, NoneTargetFor(s, symbol, lineage, batch), m)
  {
    assert m in ChosenFor(s, symbol, lineage, batch) ==> m in InLineage(AcceptedOf(s, symbol), lineage);
    if m in AcceptedOf(s, symbol) && LineageOf(m.kind) == lineage {
      assert m in InLineage(AcceptedOf(s, symbol), lineage);
      if x :| x in InLineage(batch, lineage) && x.id == m.id {
        NewIsOfTheBatch(AcceptedOf(s, symbol), batch, m);
      }
    }
  }

  lemma UndirectedJoins(st: State, s: State, symbol: string, batch: seq<MarketEvent>, tick: Tick, lineage: Lineage,
                        d: Direction, m: MarketEvent)
    requires s == Admit(st, symbol, batch, tick) && NamedApart(st, symbol, batch) && m.direction == NONE
    requires Composes(s, symbol, lineage, batch, tick.Cutoff(), d)
    ensures Joins(s, symbol, lineage, batch, d, m) || Stays(s, symbol, lineage, batch, d, m)
            <==> && (m in AcceptedOf(st, symbol) || m in batch) && m.marketTs >= tick.Cutoff()
                 && LineageOf(m.kind) == lineage && NoneTargetFor(s, symbol, lineage, batch) == d
                 && TakesPart(s, symbol, lineage, d, batch, m)
  {
    AdmittedExactly(st, s, symbol, batch, tick, m);
    AdmittedApart(st, symbol, batch, tick);
    ComposedJoins(st, s, symbol, batch, tick, lineage, d, m);
    if m in batch {
      UndirectedIsChosen(s, symbol, lineage, batch, m);
    } else {
      HeldIsChosen(s, symbol, lineage, batch, m);
    }
  }

  /** If the batch composes a slot, its NONE events are afterwards exactly those the look-back holds that take part, and
      none at all unless NONE events go to this slot. */
  lemma UndirectedMembers(st: State, symbol: string, batch: seq<MarketEvent>, lookback: real, wall: WallClock,
                          lineage: Lineage, d: Direction, m: MarketEvent)
    requires batch != [] && OneSymbol(batch, symbol) && Inv(st) && NamedApart(st, symbol, batch) && m.direction == NONE
    requires Composes(Admit(st, symbol, batch, SymbolTick(batch, lookback, wall)), symbol, lineage, batch,
                      MaxTs(batch) - lookback, d)
    ensures var s := Admit(st, symbol, batch, SymbolTick(batch, lookback, wall));
            ActiveIn(ConsumeSymbol(st, symbol, batch, lookback, wall).st, Key(symbol, lineage, d), m)
            <==> && (m in AcceptedOf(st, symbol) || m in batch) && m.marketTs >= MaxTs(batch) - lookback
                 && LineageOf(m.kind) == lineage && NoneTargetFor(s, symbol, lineage, batch) == d
                 && TakesPart(s, symbol, lineage, d, batch, m)
  {
    var tick := SymbolTick(batch, lookback, wall);
    UndirectedJoins(st, Admit(st, symbol, batch, tick), symbol, batch, tick, lineage, d, m);
    BatchLeaves(st, symbol, batch, lookback, wall, lineage, d, m);
  }

  // ---- Where NONE events go ----

  /** The batch has an event of the lineage and direction. */
  ghost predicate Points(events: seq<MarketEvent>, lineage: Lineage, d: Direction) {
    d != NONE && exists e :: e in events && LineageOf(e.kind) == lineage && e.direction == d
  }

  lemma PointsMeaning(events: seq<MarketEvent>, lineage: Lineage, d: Direction)
    ensures d in DirectionsOf(InLineage(events, lineage)) <==> Points(events, lineage, d)
  {
    if d in DirectionsOf(InLineage(events, lineage)) {
      var e :| e in InLineage(events, lineage) && e.direction == d;
    }
    if Points(events, lineage, d) {
      var e :| e in events && LineageOf(e.kind) == lineage && e.direction == d;
      assert e in InLineage(events, lineage);
    }
  }

  lemma OnlyOne(dirs: set<Direction>, d: Direction)
    requires NONE !in dirs
    ensures d != NONE ==> (dirs == {d} <==> d in dirs && Opposite(d) !in dirs)
    ensures dirs == {} <==> UP !in dirs && DOWN !in dirs
  {
    if d != NONE && d in dirs && Opposite(d) !in dirs {
      forall x | x in dirs
        ensures x == d
      {
      }
    }
    assert forall x :: x in dirs ==> x == UP || x == DOWN;
  }

  function Opposite(d: Direction): Direction {
    match d
    case UP => DOWN
    case DOWN => UP
    case NONE => NONE
  }

  /** NONE events of a lineage go upward (or downward) exactly when the batch has only upward (downward) events
      of it, or has neither and of the two only the upward (downward) direction is seen in the look-back or is
      active there. */
  lemma TargetMeaning(s: State, symbol: string, lineage: Lineage, batch: seq<MarketEvent>, d: Direction)
    requires d != NONE
    ensures var seen := (x: Direction) =>
              Points(AcceptedOf(s, symbol), lineage, x) || Key(symbol, lineage, x) in s.active;
            NoneTargetFor(s, symbol, lineage, batch) == d
            <==> || (Points(batch, lineage, d) && !Points(batch, lineage, Opposite(d)))
                 || (&& !Points(batch, lineage, d) && !Points(batch, lineage, Opposite(d))
                     && seen(d) && !seen(Opposite(d)))
  {
    var dirs, held := DirectionsOf(InLineage(batch, lineage)), DirectionsOf(InLineage(AcceptedOf(s, symbol), lineage));
    var live := LiveDirections(s, symbol, lineage);
    NoneTargetMeaning(InLineage(batch, lineage), InLineage(AcceptedOf(s, symbol), lineage), live, d);
    PointsMeaning(batch, lineage, d);
    PointsMeaning(batch, lineage, Opposite(d));
    PointsMeaning(AcceptedOf(s, symbol), lineage, d);
    PointsMeaning(AcceptedOf(s, symbol), lineage, Opposite(d));
    LiveMeaning(s, symbol, lineage, d);
    LiveMeaning(s, symbol, lineage, Opposite(d));
    OnlyOne(dirs, d);
    OnlyOne(held + (live - {NONE}), d);
  }

  lemma LiveMeaning(s: State, symbol: string, lineage: Lineage, d: Direction)
    ensures d in LiveDirections(s, symbol, lineage) <==> Key(symbol, lineage, d) in s.active
  {
    if k :| k in s.active && k.symbol == symbol && k.lineage == lineage && k.direction == d {
      assert k == Key(symbol, lineage, d);
    }
  }

  // ---- What a symbol's look-back holds after a run ----

  /** The call brings the event. */
  predicate Brings(op: Op, symbol: string, e: MarketEvent) {
    op.Consume? && op.symbol == symbol && e in op.batch
  }

  /** The clock of the symbol's call leaves the event within the look-back; calls of other symbols do not matter. */
  predicate Spares(op: Op, symbol: string, lookback: real, e: MarketEvent)
    requires op.Valid()
  {
    op.symbol == symbol ==> e.marketTs >= op.Clock() - lookback
  }

  /** Some call brought the event, and from then on every call of the symbol left it within the look-back. */
  ghost predicate Held(ops: seq<Op>, symbol: string, lookback: real, e: MarketEvent)
    requires ValidOps(ops)
  {
    exists i: nat :: HeldSince(ops, symbol, lookback, e, i)
  }

  /** The i-th call brought the event, and from then on it was spared. */
  ghost predicate HeldSince(ops: seq<Op>, symbol: string, lookback: real, e: MarketEvent, i: nat)
    requires ValidOps(ops)
  {
    i < |ops| && Brings(ops[i], symbol, e) && forall j :: i <= j < |ops| ==> Spares(ops[j], symbol, lookback, e)
  }

  lemma HeldSinceNext(ops: seq<Op>, op: Op, symbol: string, lookback: real, e: MarketEvent, i: nat)
    requires ValidOps(ops) && op.Valid()
    ensures ValidOps(ops + [op])
    ensures i < |ops| ==>
              (HeldSince(ops + [op], symbol, lookback, e, i)
               <==> HeldSince(ops, symbol, lookback, e, i) && Spares(op, symbol, lookback, e))
    ensures HeldSince(ops + [op], symbol, lookback, e, |ops|)
            <==> Brings(op, symbol, e) && Spares(op, symbol, lookback, e)
  {
    var all := ops + [op];
    assert all[|ops|] == op && forall j :: 0 <= j < |ops| ==> all[j] == ops[j];
  }

  lemma HeldNext(ops: seq<Op>, op: Op, symbol: string, lookback: real, e: MarketEvent)
    requires ValidOps(ops) && op.Valid()
    ensures ValidOps(ops + [op])
    ensures Held(ops + [op], symbol, lookback, e)
            <==> (Held(ops, symbol, lookback, e) || Brings(op, symbol, e)) && Spares(op, symbol, lookback, e)
  {
    forall i: nat
      ensures HeldSince(ops + [op], symbol, lookback, e, i)
              <==> (if i == |ops| then Brings(op, symbol, e) else HeldSince(ops, symbol, lookback, e, i))
                   && Spares(op, symbol, lookback, e)
    {
      HeldSinceNext(ops, op, symbol, lookback, e, i);
    }
    if Brings(op, symbol, e) && Spares(op, symbol, lookback, e) {
      assert HeldSince(ops + [op], symbol, lookback, e, |ops|);
    }
  }

  lemma SymbolAccepts(st: State, symbol: string, batch: seq<MarketEvent>, lookback: real, wall: WallClock)
    requires batch != [] && OneSymbol(batch, symbol) && Inv(st)
    ensures ConsumeSymbol(st, symbol, batch, lookback, wall).st.accepted
            == Admit(st, symbol, batch, SymbolTick(batch, lookback, wall)).accepted
  {
    var tick := SymbolTick(batch, lookback, wall);
    AdmitKeeps(st, symbol, batch, tick);
    AdmittedRecent(st, symbol, batch, tick);
    ConsumeLineageKeeps(Admit(st, symbol, batch, tick), {}, symbol, Tape, batch, tick);
    var tape := Tape0(st, symbol, batch, tick);
    ConsumeLineageKeeps(tape.st, tape.stolen, symbol, Vwap, batch, tick);
  }

  lemma BatchAccepts(st: State, own: string, batch: seq<MarketEvent>, lookback: real, wall: WallClock, symbol: string,
                     e: MarketEvent)
    requires batch != [] && OneSymbol(batch, own) && Inv(st)
    ensures var post := ConsumeSymbol(st, own, batch, lookback, wall).st;
            e in AcceptedOf(post, symbol)
            <==> if symbol == own then (e in AcceptedOf(st, own) || e in batch) && e.marketTs >= MaxTs(batch) - lookback
                 else e in AcceptedOf(st, symbol)
  {
    SymbolAccepts(st, own, batch, lookback, wall);
    AdmittedRecent(st, own, batch, SymbolTick(batch, lookback, wall));
  }

  lemma QuietAccepts(st: State, own: string, tick: Tick, symbol: string, e: MarketEvent)
    ensures e in AcceptedOf(Prune(st, own, tick), symbol)
            <==> e in AcceptedOf(st, symbol) && (symbol == own ==> e.marketTs >= tick.Cutoff())
  {
  }

  lemma StepAccepts(st: State, op: Op, symbol: string, lookback: real, e: MarketEvent)
    requires op.Valid() && Inv(st)
    ensures e in AcceptedOf(Step(st, op, lookback), symbol)
            <==> (e in AcceptedOf(st, symbol) || Brings(op, symbol, e)) && Spares(op, symbol, lookback, e)
  {
    match op
    case Consume(own, batch, wall) => BatchAccepts(st, own, batch, lookback, wall, symbol, e);
    case Quiet(own, now) => QuietAccepts(st, own, Tick(now, lookback, STOPPED), symbol, e);
  }

  /** After any run a symbol's look-back holds exactly the events brought by some call and spared by every call of the
      symbol since. */
  lemma {:induction false} AcceptedIsHeld(ops: seq<Op>, symbol: string, lookback: real, e: MarketEvent)
    requires ValidOps(ops)
    ensures e in AcceptedOf(Run(EMPTY, ops, lookback), symbol) <==> Held(ops, symbol, lookback, e)
    decreases |ops|
  {
    if ops != [] {
      var before, op := ops[..|ops| - 1], Last(ops);
      assert ops == before + [op] && op in ops && forall o :: o in before ==> o in ops;
      AcceptedIsHeld(before, symbol, lookback, e);
      ReachableIsFine(before, lookback);
      RunOneMore(EMPTY, before, op, lookback);
      StepAccepts(Run(EMPTY, before, lookback), op, symbol, lookback, e);
      HeldNext(before, op, symbol, lookback, e);
    }
  }

  // ---- Calls that do not compose the slot ----

  ghost predicate ComposesSlot(st: State, op: Op, lookback: real, k: Key)
    requires op.Valid()
  {
    && op.Consume? && op.symbol == k.symbol
    && Composes(Admit(st, op.symbol, op.batch, SymbolTick(op.batch, lookback, op.wall)), k.symbol, k.lineage, op.batch,
                MaxTs(op.batch) - lookback, k.direction)
  }

  /** If the slot is still there it holds what it held. */
  ghost predicate SameMembers(st: State, post: State, k: Key) {
    k in post.active ==> k in st.active && forall e :: ActiveIn(post, k, e) <==> ActiveIn(st, k, e)
  }

  lemma PrunedIsSame(st: State, s: State, post: State, k: Key, cutoff: real)
    requires s == PruneActive(st, cutoff) && Inv(post)
    requires forall e :: ActiveIn(post, k, e) <==> ActiveIn(s, k, e)
    ensures SameMembers(st, post, k)
  {
    if k in post.active {
      assert SignalOk(k, post.active[k]);
      var e := Last(post.active[k].members);
      assert ActiveIn(post, k, e);
    }
  }

  lemma IdleBatchIsSame(st: State, symbol: string, batch: seq<MarketEvent>, lookback: real, wall: WallClock, k: Key)
    requires batch != [] && OneSymbol(batch, symbol) && Inv(st) && NamedApart(st, symbol, batch)
    requires k.symbol == symbol && k.direction != NONE && !ComposesSlot(st, Consume(symbol, batch, wall), lookback, k)
    ensures SameMembers(st, ConsumeSymbol(st, symbol, batch, lookback, wall).st, k)
  {
    var tick := SymbolTick(batch, lookback, wall);
    var s := Admit(st, symbol, batch, tick);
    var mid := st.(accepted := st.accepted[symbol := Recent(AcceptedOf(st, symbol) + batch, tick.Cutoff())]);
    var post := ConsumeSymbol(st, symbol, batch, lookback, wall).st;
    ComposesExactly(st, s, symbol, batch, tick, k.lineage, k.direction);
    forall e
      ensures ActiveIn(post, k, e) <==> ActiveIn(s, k, e)
    {
      BatchLeaves(st, symbol, batch, lookback, wall, k.lineage, k.direction, e);
    }
    ConsumeSymbolKeeps(st, symbol, batch, lookback, wall);
    PrunedIsSame(mid, s, post, k, tick.Cutoff());
  }

  lemma IdleStepIsSame(st: State, op: Op, lookback: real, k: Key)
    requires op.Valid() && Inv(st) && k.direction != NONE && !ComposesSlot(st, op, lookback, k)
    requires op.Consume? ==> NamedApart(st, op.symbol, op.batch)
    ensures SameMembers(st, Step(st, op, lookback), k)
  {
    match op
    case Consume(symbol, batch, wall) =>
      if symbol == k.symbol {
        IdleBatchIsSame(st, symbol, batch, lookback, wall, k);
      } else {
        OtherSymbolsOnlyAge(st, symbol, batch, lookback, wall, k);
      }
    case Quiet(_, _) =>
  }

  // ---- Over runs ----

  /** How many calls there were when the slot was last composed. */
  ghost function LastComposed(ops: seq<Op>, lookback: real, k: Key): (n: nat)
    requires ValidOps(ops)
    ensures n <= |ops|
    decreases |ops|
  {
    if ops == [] then 0
    else
      assert Last(ops) in ops && forall o :: o in ops[..|ops| - 1] ==> o in ops;
      if ComposesSlot(Run(EMPTY, ops[..|ops| - 1], lookback), Last(ops), lookback, k) then |ops|
      else LastComposed(ops[..|ops| - 1], lookback, k)
  }

  /** What an upward or downward slot should hold of the events with a direction. */
  ghost predicate Belongs(ops: seq<Op>, lookback: real, k: Key, e: MarketEvent)
    requires ValidOps(ops)
  {
    Held(ops, k.symbol, lookback, e) && LineageOf(e.kind) == k.lineage && e.direction == k.direction
  }

  lemma PastConcat(ops: seq<Op>, op: Op)
    ensures Past(ops + [op]) == Past(ops) + EventsIn(op)
  {
    if ops == [] {
      assert [op][1..] == [] && [] + [op] == [op];
    } else {
      assert (ops + [op])[0] == ops[0] && (ops + [op])[1..] == ops[1..] + [op];
      PastConcat(ops[1..], op);
    }
  }

  /** The composing call of a run. */
  lemma ComposedHolds(before: seq<Op>, op: Op, lookback: real, k: Key, e: MarketEvent)
    requires ValidOps(before) && op.Valid() && NamesApart(Past(before) + EventsIn(op))
    requires k.direction != NONE && e.direction != NONE
    requires ComposesSlot(Run(EMPTY, before, lookback), op, lookback, k)
    ensures ValidOps(before + [op])
    ensures ActiveIn(Step(Run(EMPTY, before, lookback), op, lookback), k, e)
            <==> Belongs(before + [op], lookback, k, e)
  {
    var st := Run(EMPTY, before, lookback);
    ReachableIsFrom(before, lookback);
    PastIsNamedApart(st, Past(before), op.symbol, op.batch);
    DirectionalMembers(st, op.symbol, op.batch, lookback, op.wall, k.lineage, k.direction, e);
    AcceptedIsHeld(before, k.symbol, lookback, e);
    HeldNext(before, op, k.symbol, lookback, e);
  }

  lemma IdleStepHolds(before: seq<Op>, op: Op, lookback: real, k: Key)
    requires ValidOps(before) && op.Valid() && NamesApart(Past(before) + EventsIn(op)) && k.direction != NONE
    requires !ComposesSlot(Run(EMPTY, before, lookback), op, lookback, k)
    ensures SameMembers(Run(EMPTY, before, lookback), Step(Run(EMPTY, before, lookback), op, lookback), k)
  {
    ReachableIsFrom(before, lookback);
    if op.Consume? {
      PastIsNamedApart(Run(EMPTY, before, lookback), Past(before), op.symbol, op.batch);
    }
    IdleStepIsSame(Run(EMPTY, before, lookback), op, lookback, k);
  }

  /** The slot, if it is there, holds what belongs to it after these calls. */
  ghost predicate HoldsAfter(st: State, ops: seq<Op>, lookback: real, k: Key, e: MarketEvent)
    requires ValidOps(ops)
  {
    k in st.active ==> (ActiveIn(st, k, e) <==> Belongs(ops, lookback, k, e))
  }

  ghost predicate HoldsOwn(ops: seq<Op>, lookback: real, k: Key, e: MarketEvent)
    requires ValidOps(ops)
  {
    HoldsAfter(Run(EMPTY, ops, lookback), ops[..LastComposed(ops, lookback, k)], lookback, k, e)
  }

  lemma SameHolds(st: State, post: State, ops: seq<Op>, lookback: real, k: Key, e: MarketEvent)
    requires ValidOps(ops) && SameMembers(st, post, k) && HoldsAfter(st, ops, lookback, k, e)
    ensures HoldsAfter(post, ops, lookback, k, e)
  {
  }

  lemma LastComposedNext(before: seq<Op>, op: Op, lookback: real, k: Key)
    requires ValidOps(before) && op.Valid()
    ensures ValidOps(before + [op])
    ensures LastComposed(before + [op], lookback, k)
            == if ComposesSlot(Run(EMPTY, before, lookback), op, lookback, k) then |before| + 1
               else LastComposed(before, lookback, k)
  {
    assert (before + [op])[..|before|] == before && Last(before + [op]) == op;
  }

  lemma HoldsComposed(before: seq<Op>, op: Op, all: seq<Op>, lookback: real, k: Key, e: MarketEvent)
    requires ValidOps(before) && op.Valid() && NamesApart(Past(before) + EventsIn(op)) && all == before + [op]
    requires k.direction != NONE && e.direction != NONE
    requires ComposesSlot(Run(EMPTY, before, lookback), op, lookback, k)
    ensures ValidOps(all) && HoldsAfter(Run(EMPTY, all, lookback), all, lookback, k, e)
  {
    RunOneMore(EMPTY, before, op, lookback);
    ComposedHolds(before, op, lookback, k, e);
  }

  lemma HoldsIdle(before: seq<Op>, op: Op, all: seq<Op>, past: seq<Op>, lookback: real, k: Key, e: MarketEvent)
    requires ValidOps(before) && op.Valid() && NamesApart(Past(before) + EventsIn(op)) && all == before + [op]
    requires k.direction != NONE && !ComposesSlot(Run(EMPTY, before, lookback), op, lookback, k)
    requires ValidOps(past) && HoldsAfter(Run(EMPTY, before, lookback), past, lookback, k, e)
    ensures ValidOps(all) && HoldsAfter(Run(EMPTY, all, lookback), past, lookback, k, e)
  {
    RunOneMore(EMPTY, before, op, lookback);
    IdleStepHolds(before, op, lookback, k);
    SameHolds(Run(EMPTY, before, lookback), Run(EMPTY, all, lookback), past, lookback, k, e);
  }

  lemma HoldsNext(before: seq<Op>, op: Op, all: seq<Op>, lookback: real, k: Key, e: MarketEvent)
    requires ValidOps(before) && op.Valid() && NamesApart(Past(before) + EventsIn(op)) && all == before + [op]
    requires k.direction != NONE && e.direction != NONE && HoldsOwn(before, lookback, k, e)
    ensures ValidOps(all) && HoldsOwn(all, lookback, k, e)
  {
    LastComposedNext(before, op, lookback, k);
    if ComposesSlot(Run(EMPTY, before, lookback), op, lookback, k) {
      assert all[..|all|] == all;
      HoldsComposed(before, op, all, lookback, k, e);
    } else {
      var n := LastComposed(before, lookback, k);
      assert all[..n] == before[..n];
      HoldsIdle(before, op, all, before[..n], lookback, k, e);
    }
  }

  /** After any run: the events with a direction in an active upward or downward slot are exactly those of its symbol,
      lineage and direction that the look-back held when the slot was last composed. */
  lemma {:induction false} SlotHolds(ops: seq<Op>, lookback: real, k: Key, e: MarketEvent)
    requires ValidOps(ops) && NamesApart(Past(ops)) && k.direction != NONE && e.direction != NONE
    ensures HoldsOwn(ops, lookback, k, e)
    decreases |ops|
  {
    if ops != [] {
      var before, op := ops[..|ops| - 1], Last(ops);
      assert ops == before + [op] && op in ops && forall o :: o in before ==> o in ops;
      PastConcat(before, op);
      SlotHolds(before, lookback, k, e);
      HoldsNext(before, op, ops, lookback, k, e);
    }
  }
}
