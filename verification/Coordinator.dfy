/** The annotation registry and the sidecar coordinator as classes (intelligence/registry.py, coordinator.py). Each
    public method is one atomic step, or for a tick a sequence of steps without an await in between. */
module Coordinator {
  import opened Common
  import opened Domain
  import opened Router
  import opened SidecarModel
  import opened SidecarInvariant
  import opened SidecarRuns

  class AnnotationRegistry {
    var rows: map<nat, Row>

    constructor ()
      ensures rows == map[]
    {
      rows := map[];
    }

    method Put(id: nat, row: Row)
      modifies this
      ensures rows == old(rows)[id := row]
    {
      rows := rows[id := row];
    }

    method Drop(id: nat)
      modifies this
      ensures rows == old(rows) - {id}
    {
      rows := rows - {id};
    }

    /** Keeps exactly the rows of active episodes. */
    method Prune(active: set<nat>)
      modifies this
      ensures rows == ActiveRows(old(rows), active)
    {
      var stale := set i | i in rows && i !in active;
      ghost var was := rows;
      var todo := stale;
      while todo != {}
        invariant todo <= stale
        invariant rows == was - (stale - todo)
        decreases todo
      {
        var key :| key in todo;
        rows := rows - {key};
        todo := todo - {key};
      }
    }
  }

  // ---- Ticks ----

  datatype TraceFacts = TraceFacts(
    eventTypes: set<string>,
    change1m: Option<real>,
    change5m: Option<real>,
    volumeRatio5m: Option<real>)

  datatype TickSignal = TickSignal(id: nat, priority: Priority, expiresAt: Option<real>)

  /** One symbol's result of a market tick. */
  datatype TickRow = TickRow(feed: FeedStatus, signals: seq<TickSignal>, traces: map<nat, TraceFacts>, alerts: set<nat>)

  predicate Expired(s: TickSignal, now: real) {
    s.expiresAt.Some? && now >= s.expiresAt.value
  }

  function ReportedIds(rows: seq<TickRow>): set<nat> {
    set r, s | r in rows && s in r.signals :: s.id
  }

  function ExpiredIds(rows: seq<TickRow>, now: real): set<nat> {
    set r, s | r in rows && s in r.signals && Expired(s, now) :: s.id
  }

  /** The episodes a tick leaves active. */
  function CurrentActive(rows: seq<TickRow>, given: Option<set<nat>>, now: real): set<nat> {
    (if given.Some? then given.value else ReportedIds(rows)) - ExpiredIds(rows, now)
  }

  function FactsOf(row: TickRow, s: TickSignal): Facts
    requires s.id in row.traces
  {
    var t := row.traces[s.id];
    Facts(s.id, s.priority, t.eventTypes, t.change1m, t.change5m, t.volumeRatio5m, row.feed, s.id in row.alerts)
  }

  function RowFacts(row: TickRow, signals: seq<TickSignal>): seq<Facts> {
    if signals == [] then []
    else (if signals[0].id in row.traces then [FactsOf(row, signals[0])] else []) + RowFacts(row, signals[1..])
  }

  /** The requests of a tick, row by row and signal by signal; a signal without a trace makes none. */
  function TickFacts(rows: seq<TickRow>): seq<Facts> {
    if rows == [] then [] else RowFacts(rows[0], rows[0].signals) + TickFacts(rows[1..])
  }

  function RequestAll(cfg: Config, st: State, facts: seq<Facts>): State
    decreases facts
  {
    if facts == [] then st else RequestAll(cfg, Request(cfg, st, facts[0]), facts[1..])
  }

  function TickSteps(rows: seq<TickRow>, given: Option<set<nat>>, now: real): seq<Step> {
    [RetireStep(CurrentActive(rows, given, now))] + RequestSteps(TickFacts(rows))
  }

  function RequestSteps(facts: seq<Facts>): seq<Step> {
    seq(|facts|, i requires 0 <= i < |facts| => RequestStep(facts[i]))
  }

  lemma {:induction false} RequestsAreRun(cfg: Config, st: State, facts: seq<Facts>)
    ensures IsRun(cfg, st, RequestSteps(facts))
    ensures After(cfg, st, RequestSteps(facts)) == RequestAll(cfg, st, facts)
    decreases facts
  {
    if facts != [] {
      assert RequestSteps(facts)[1..] == RequestSteps(facts[1..]);
      RequestsAreRun(cfg, Request(cfg, st, facts[0]), facts[1..]);
    }
  }

  /** A tick is a run: retiring, then its requests. */
  lemma TickIsRun(cfg: Config, st: State, rows: seq<TickRow>, given: Option<set<nat>>, now: real)
    ensures IsRun(cfg, st, TickSteps(rows, given, now))
    ensures After(cfg, st, TickSteps(rows, given, now))
            == RequestAll(cfg, Retire(st, CurrentActive(rows, given, now)), TickFacts(rows))
  {
    var steps := TickSteps(rows, given, now);
    assert steps[1..] == RequestSteps(TickFacts(rows));
    RequestsAreRun(cfg, Retire(st, CurrentActive(rows, given, now)), TickFacts(rows));
  }

  /** The fact reports a signal of the row that has a trace. */
  ghost predicate Reports(f: Facts, row: TickRow, s: TickSignal) {
    && s in row.signals && s.id in row.traces && f.id == s.id && f.priority == s.priority && f.feed == row.feed
    && (f.alertEdge <==> s.id in row.alerts)
    && f.eventTypes == row.traces[s.id].eventTypes
    && (f.change1m, f.change5m, f.volumeRatio5m)
       == (row.traces[s.id].change1m, row.traces[s.id].change5m, row.traces[s.id].volumeRatio5m)
  }

  lemma {:induction false} RowReports(row: TickRow, signals: seq<TickSignal>, f: Facts)
    requires forall s :: s in signals ==> s in row.signals
    ensures f in RowFacts(row, signals) <==> exists s :: s in signals && Reports(f, row, s)
  {
    if signals != [] {
      assert signals == [signals[0]] + signals[1..];
      RowReports(row, signals[1..], f);
      if s :| s in signals && Reports(f, row, s) && s !in signals[1..] {
        assert f == FactsOf(row, s);
      }
      if signals[0].id in row.traces {
        assert Reports(FactsOf(row, signals[0]), row, signals[0]);
      }
    }
  }

  /** A tick asks for exactly the signals that have a trace, with what the row and the trace say of them. */
  lemma {:induction false} TickReports(rows: seq<TickRow>, f: Facts)
    ensures f in TickFacts(rows) <==> exists r, s :: r in rows && Reports(f, r, s)
  {
    if rows != [] {
      assert rows == [rows[0]] + rows[1..];
      TickReports(rows[1..], f);
      RowReports(rows[0], rows[0].signals, f);
    }
  }

  lemma {:induction false} RowInOrder(row: TickRow, a: seq<TickSignal>, b: seq<TickSignal>)
    ensures RowFacts(row, a + b) == RowFacts(row, a) + RowFacts(row, b)
  {
    if a == [] {
      assert a + b == b;
    } else {
      assert (a + b)[0] == a[0] && (a + b)[1..] == a[1..] + b;
      RowInOrder(row, a[1..], b);
      ConcatAssoc(if a[0].id in row.traces then [FactsOf(row, a[0])] else [], RowFacts(row, a[1..]), RowFacts(row, b));
    }
  }

  /** Requests come row by row and, within a row, signal by signal: what is listed first is asked for first. */
  lemma {:induction false} TickInOrder(a: seq<TickRow>, b: seq<TickRow>)
    ensures TickFacts(a + b) == TickFacts(a) + TickFacts(b)
  {
    if a == [] {
      assert a + b == b;
    } else {
      assert (a + b)[0] == a[0] && (a + b)[1..] == a[1..] + b;
      TickInOrder(a[1..], b);
      ConcatAssoc(RowFacts(a[0], a[0].signals), TickFacts(a[1..]), TickFacts(b));
    }
  }

  /** A tick leaves an episode active exactly when it is given, or reported if nothing is given, and no reported
      signal of its id has expired. */
  lemma ActiveMeaning(rows: seq<TickRow>, given: Option<set<nat>>, now: real, id: nat)
    ensures id in CurrentActive(rows, given, now)
            <==> && (if given.Some? then id in given.value
                     else exists r, s :: r in rows && s in r.signals && s.id == id)
                 && forall r, s :: r in rows && s in r.signals && s.id == id ==>
                      s.expiresAt.None? || now < s.expiresAt.value
  {
  }

  lemma {:induction false} RequestAllConcat(cfg: Config, st: State, a: seq<Facts>, b: seq<Facts>)
    ensures RequestAll(cfg, st, a + b) == RequestAll(cfg, RequestAll(cfg, st, a), b)
    decreases a
  {
    if a == [] {
      assert a + b == b;
    } else {
      assert (a + b)[1..] == a[1..] + b;
      RequestAllConcat(cfg, Request(cfg, st, a[0]), a[1..], b);
    }
  }

  // ---- Retiring in any order ----

  /** The state after the listed inactive episodes have been invalidated. */
  ghost function RetirePart(st: State, done: set<nat>): State {
    Forget(st.(generation := Bumped(st, done), registry := st.registry - done), Idle(st, done))
  }

  function Idle(st: State, done: set<nat>): set<nat> {
    set i | i in done && Get(st.pending, i) == 0
  }

  function Bumped(st: State, done: set<nat>): map<nat, nat> {
    st.generation + map i | i in done :: Get(st.generation, i) + 1
  }

  lemma IdleOneMore(st: State, done: set<nat>, id: nat)
    ensures Idle(st, done + {id}) == Idle(st, done) + if Get(st.pending, id) == 0 then {id} else {}
  {
  }

  lemma MinusTwice<V>(m: map<nat, V>, a: set<nat>, b: set<nat>)
    ensures (m - a) - b == m - (a + b)
  {
  }

  lemma BumpedOneMore(st: State, done: set<nat>, id: nat)
    requires id !in done
    ensures (Bumped(st, done) - Idle(st, done))[id := Get(st.generation, id) + 1]
            == Bumped(st, done + {id}) - Idle(st, done)
  {
  }

  lemma RetireOneMore(st: State, done: set<nat>, id: nat)
    requires id !in done && id !in st.active
    ensures Invalidate(RetirePart(st, done), id) == RetirePart(st, done + {id})
  {
    var idle := Idle(st, done);
    var more := if Get(st.pending, id) == 0 then {id} else {};
    IdleOneMore(st, done, id);
    BumpedOneMore(st, done, id);
    MinusTwice(st.registry, done, {id});
    MinusTwice(st.calls, idle, more);
    MinusTwice(st.lastPriority, idle, more);
    MinusTwice(st.pending, idle, more);
    MinusTwice(Bumped(st, done + {id}), idle, more);
    var part := RetirePart(st, done);
    assert Get(part.pending, id) == Get(st.pending, id);
    assert Get(part.generation, id) == Get(st.generation, id);
    InvalidateFields(part, id);
    var post := Invalidate(part, id);
    assert post.generation == Bumped(st, done + {id}) - (idle + more);
    assert post == RetirePart(st, done + {id});
  }

  lemma InvalidateFields(st: State, id: nat)
    requires id !in st.active
    ensures var more := if Get(st.pending, id) == 0 then {id} else {};
            Invalidate(st, id)
            == st.(generation := st.generation[id := Get(st.generation, id) + 1] - more,
                   registry := st.registry - {id}, calls := st.calls - more,
                   lastPriority := st.lastPriority - more, pending := st.pending - more)
  {
    MinusNone(st.calls);
    MinusNone(st.lastPriority);
    MinusNone(st.pending);
    MinusNone(st.generation[id := Get(st.generation, id) + 1]);
  }

  lemma MinusNone<V>(m: map<nat, V>)
    ensures m - {} == m
  {
  }

  lemma RetireNone(st: State)
    ensures forall none: set<nat> :: none == {} ==> RetirePart(st, none) == st
  {
    assert Bumped(st, {}) == st.generation;
    assert Idle(st, {}) == {};
    assert st.registry - {} == st.registry && st.calls - {} == st.calls && st.lastPriority - {} == st.lastPriority;
    assert st.generation - {} == st.generation && st.pending - {} == st.pending;
  }

  lemma RetireAll(st: State, active: set<nat>)
    ensures var pruned := st.(active := active, registry := ActiveRows(st.registry, active));
            RetirePart(pruned, Gone(pruned, active)) == Retire(st, active)
  {
    var pruned := st.(active := active, registry := ActiveRows(st.registry, active));
    assert pruned.registry - Gone(pruned, active) == pruned.registry;
  }

  lemma EnqueueFields(cfg: Config, st: State, post: State, id: nat, priority: Priority)
    requires !Full(cfg, st)
    requires post.active == st.active && post.running == st.running
    requires post.queue == st.queue + [NewWork(st, id, priority)]
    requires post.generation == st.generation[id := Get(st.generation, id) + 1]
    requires post.calls == st.calls[id := Get(st.calls, id) + 1]
    requires post.lastPriority == st.lastPriority[id := priority]
    requires post.pending == st.pending[id := Get(st.pending, id) + 1]
    requires post.stats == st.stats.(submitted := st.stats.submitted + 1)
    requires post.registry == st.registry[id := Row(st.stats.submitted, Get(st.generation, id) + 1, Queued, NoReason,
                                                    Get(st.calls, id) + 1)]
    ensures post == Enqueue(cfg, st, id, priority)
  {
  }

  class IntelligenceCoordinator {
    const cfg: Config
    const registry: AnnotationRegistry
    var active: set<nat>
    var calls: map<nat, nat>
    var lastPriority: map<nat, Priority>
    var generation: map<nat, nat>
    var pending: map<nat, nat>
    var queue: seq<Work>
    var running: seq<Work>
    var stats: Stats

    ghost function St(): State
      reads this, registry
    {
      State(active, calls, lastPriority, generation, pending, registry.rows, queue, running, stats)
    }

    ghost predicate Valid()
      reads this, registry
    {
      cfg.Valid() && Inv(cfg, St())
    }

    constructor (queueSize: int, concurrency: int, policy: Policy, budget: Budget)
      ensures cfg == Config(queueSize, if concurrency >= 1 then concurrency else 1, policy, budget)
      ensures St() == EMPTY && Valid() && fresh(registry)
    {
      cfg := Config(queueSize, if concurrency >= 1 then concurrency else 1, policy, budget);
      registry := new AnnotationRegistry();
      active, calls, lastPriority, generation, pending := {}, map[], map[], map[], map[];
      queue, running, stats := [], [], EMPTY.stats;
      new;
      EmptyIsFine(cfg);
    }

    method TrackedEpisodeCount() returns (n: nat)
      requires Valid()
      ensures n == |Tracked(St())|
      ensures n <= |active| + |queue| + |running|
    {
      TrackedIsBounded(cfg, St());
      n := |calls.Keys + generation.Keys + lastPriority.Keys + pending.Keys|;
    }

    method ForgetIfDone(id: nat)
      modifies `calls, `lastPriority, `generation, `pending
      ensures St() == MaybeForget(old(St()), id)
    {
      if id in active {
        return;
      }
      if id in pending && pending[id] > 0 {
        return;
      }
      calls := calls - {id};
      lastPriority := lastPriority - {id};
      generation := generation - {id};
      pending := pending - {id};
    }

    method InvalidateEpisode(id: nat)
      modifies this, registry
      ensures St() == Invalidate(old(St()), id)
    {
      generation := generation[id := Get(generation, id) + 1];
      registry.Drop(id);
      ForgetIfDone(id);
    }

    method RetireInactive(current: set<nat>)
      modifies this, registry
      ensures St() == Retire(old(St()), current)
    {
      RetireAll(St(), current);
      active := current;
      registry.Prune(active);
      assert St() == old(St()).(active := current, registry := ActiveRows(old(St()).registry, current));
      var gone := (calls.Keys + generation.Keys + lastPriority.Keys + pending.Keys + registry.rows.Keys) - active;
      InvalidateEach(gone);
    }

    /** Invalidates the given episodes, in whatever order they come. */
    method InvalidateEach(gone: set<nat>)
      requires gone !! active
      modifies this, registry
      ensures St() == RetirePart(old(St()), gone)
    {
      ghost var was := St();
      var todo := gone;
      RetireNone(was);
      while todo != {}
        invariant todo <= gone
        invariant St() == RetirePart(was, gone - todo)
        decreases todo
      {
        var id :| id in todo;
        RetireOneMore(was, gone - todo, id);
        assert gone - (todo - {id}) == (gone - todo) + {id};
        InvalidateEpisode(id);
        todo := todo - {id};
      }
      assert gone - todo == gone;
    }

    method Release(id: nat)
      modifies `calls, `lastPriority, `generation, `pending
      ensures St() == ReleasePending(old(St()), id)
    {
      var count: int := Get(pending, id);
      var remaining := count - 1;
      if remaining <= 0 {
        pending := pending - {id};
      } else {
        pending := pending[id := remaining];
      }
      ForgetIfDone(id);
    }

    method EnqueueWork(id: nat, priority: Priority) returns (queued: bool)
      modifies this, registry
      ensures queued == !Full(cfg, old(St()))
      ensures St() == Enqueue(cfg, old(St()), id, priority)
    {
      var work := Work(stats.submitted, id, Get(generation, id) + 1, priority);
      if cfg.queueSize > 0 && |queue| >= cfg.queueSize {
        stats := stats.(dropped := stats.dropped + 1);
        return false;
      }
      ghost var was := St();
      queue := queue + [work];
      generation := generation[id := work.generation];
      CountRequest(id, priority);
      registry.Put(id, Row(work.serial, work.generation, Queued, NoReason, calls[id]));
      EnqueueFields(cfg, was, St(), id, priority);
      queued := true;
    }

    method CountRequest(id: nat, priority: Priority)
      modifies `calls, `lastPriority, `pending, `stats
      ensures calls == old(calls)[id := Get(old(calls), id) + 1]
      ensures lastPriority == old(lastPriority)[id := priority]
      ensures pending == old(pending)[id := Get(old(pending), id) + 1]
      ensures stats == old(stats).(submitted := old(stats).submitted + 1)
    {
      calls := calls[id := Get(calls, id) + 1];
      lastPriority := lastPriority[id := priority];
      pending := pending[id := Get(pending, id) + 1];
      stats := stats.(submitted := stats.submitted + 1);
    }

    method Consider(facts: Facts)
      modifies this, registry
      ensures St() == Request(cfg, old(St()), facts)
    {
      var payload := Input(
        facts.id, facts.priority, facts.eventTypes, facts.change1m, facts.change5m, facts.volumeRatio5m, facts.feed,
        facts.alertEdge,
        Get(calls, facts.id),
        if facts.id in lastPriority then Some(lastPriority[facts.id]) else None,
        facts.id !in active);
      assert payload == InputOf(St(), facts);
      var decision := NeedIntelligence(payload, cfg.policy, cfg.budget);
      if !decision.requested {
        stats := stats.(suppressed := stats.suppressed + 1);
        return;
      }
      var _ := EnqueueWork(facts.id, facts.priority);
    }

    method ConsiderRow(row: TickRow)
      modifies this, registry
      ensures St() == RequestAll(cfg, old(St()), RowFacts(row, row.signals))
    {
      ghost var goal := RequestAll(cfg, St(), RowFacts(row, row.signals));
      assert row.signals[0..] == row.signals;
      for j := 0 to |row.signals|
        invariant RequestAll(cfg, St(), RowFacts(row, row.signals[j..])) == goal
      {
        var s := row.signals[j];
        assert row.signals[j..][0] == s && row.signals[j..][1..] == row.signals[j + 1..];
        if s.id in row.traces {
          ghost var rest := RowFacts(row, row.signals[j + 1..]);
          assert ([FactsOf(row, s)] + rest)[1..] == rest;
          Consider(FactsOf(row, s));
        } else {
          assert [] + RowFacts(row, row.signals[j + 1..]) == RowFacts(row, row.signals[j + 1..]);
        }
      }
    }

    /** One market tick, from retiring to the last request, without a suspension point. */
    method ObserveTick(rows: seq<TickRow>, given: Option<set<nat>>, now: real)
      requires Valid()
      modifies this, registry
      ensures IsRun(cfg, old(St()), TickSteps(rows, given, now))
      ensures St() == After(cfg, old(St()), TickSteps(rows, given, now))
      ensures Valid() && active == CurrentActive(rows, given, now)
    {
      TickIsRun(cfg, St(), rows, given, now);
      RunKeeps(cfg, St(), TickSteps(rows, given, now));
      RequestsKeepActive(cfg, Retire(St(), CurrentActive(rows, given, now)), TickFacts(rows));
      var current := if given.Some? then given.value else ReportedIds(rows);
      current := current - ExpiredIds(rows, now);
      RetireInactive(current);
      ghost var goal := RequestAll(cfg, St(), TickFacts(rows));
      assert rows[0..] == rows;
      for i := 0 to |rows|
        invariant RequestAll(cfg, St(), TickFacts(rows[i..])) == goal
      {
        assert rows[i..][0] == rows[i] && rows[i..][1..] == rows[i + 1..];
        RequestAllConcat(cfg, St(), RowFacts(rows[i], rows[i].signals), TickFacts(rows[i + 1..]));
        ConsiderRow(rows[i]);
      }
    }

    /** A worker takes the head of the queue: stale work is discarded unseen, live work is sent to the provider. */
    method TakeNext() returns (sent: bool)
      requires Valid() && queue != [] && |running| < cfg.concurrency
      modifies this, registry
      ensures sent == IsLive(old(St()), old(queue[0]))
      ensures St() == Next(cfg, old(St()), StartStep)
      ensures Valid()
      ensures !sent ==> registry.rows == old(registry.rows) && stats.modelCalls == old(stats.modelCalls)
    {
      StepKeeps(cfg, St(), StartStep);
      sent := TakeHead();
    }

    method TakeHead() returns (sent: bool)
      requires queue != []
      modifies this, registry
      ensures sent == IsLive(old(St()), old(queue[0]))
      ensures St() == Start(old(St()))
      ensures !sent ==> registry.rows == old(registry.rows) && stats.modelCalls == old(stats.modelCalls)
    {
      var work := queue[0];
      queue := queue[1..];
      if work.id in active && work.id in generation && generation[work.id] == work.generation {
        running := running + [work];
        stats := stats.(modelCalls := stats.modelCalls + 1);
        registry.Put(work.id, Row(work.serial, work.generation, Running, NoReason,
                                  Get(calls, work.id)));
        return true;
      }
      stats := stats.(stale := stats.stale + 1);
      Release(work.id);
      sent := false;
    }

    method SettleWork(work: Work, outcome: Outcome)
      modifies this, registry
      ensures St() == Settle(old(St()), work, outcome)
    {
      var live := work.id in active && work.id in generation && generation[work.id] == work.generation;
      var modelCalls := Get(calls, work.id);
      match outcome
      case Success =>
        if live {
          stats := stats.(enriched := stats.enriched + 1);
          registry.Put(work.id, Row(work.serial, work.generation, Enriched, NoReason, modelCalls));
        } else {
          stats := stats.(stale := stats.stale + 1);
        }
      case Failure(reason) =>
        stats := stats.(fallbacks := stats.fallbacks + 1);
        if live {
          stats := stats.(fallbacksStored := stats.fallbacksStored + 1);
          registry.Put(work.id, Row(work.serial, work.generation, Fallback, reason, modelCalls));
        } else {
          stats := stats.(stale := stats.stale + 1);
        }
      case Cancelled =>
        stats := stats.(stale := stats.stale + 1);
    }

    /** A provider call ends, in any way, while the coordinator is open. */
    method Complete(slot: nat, outcome: Outcome)
      requires Valid() && slot < |running|
      modifies this, registry
      ensures St() == Next(cfg, old(St()), FinishStep(slot, outcome))
      ensures Valid()
      ensures !IsLive(old(St()), old(running[slot])) ==> registry.rows == old(registry.rows)
    {
      StepKeeps(cfg, St(), FinishStep(slot, outcome));
      var work := running[slot];
      running := running[..slot] + running[slot + 1..];
      SettleWork(work, outcome);
      Release(work.id);
    }
  }

  lemma {:induction false} RequestsKeepActive(cfg: Config, st: State, facts: seq<Facts>)
    ensures RequestAll(cfg, st, facts).active == st.active
    decreases facts
  {
    if facts != [] {
      RequestsKeepActive(cfg, Request(cfg, st, facts[0]), facts[1..]);
    }
  }
}
