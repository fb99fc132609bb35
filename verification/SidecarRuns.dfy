/** Guarantees over every interleaving of ticks and workers. */
module SidecarRuns {
  import opened Common
  import opened Domain
  import opened Router
  import opened SidecarModel
  import opened SidecarInvariant

  // ---- How one step moves works and rows ----

  function StatusRank(s: Status): nat {
    match s
    case Queued => 0
    case Running => 1
    case Enriched => 2
    case Fallback => 2
  }

  /** A row afterwards is a newer request's, or the same request's, unchanged or further along. */
  ghost predicate RowAdvances(st: State, post: State, id: nat)
    requires id in post.registry
  {
    || post.registry[id].serial >= st.stats.submitted
    || (&& id in st.registry
        && st.registry[id].serial == post.registry[id].serial
        && (st.registry[id] == post.registry[id]
            || StatusRank(st.registry[id].status) < StatusRank(post.registry[id].status)))
  }

  ghost predicate Progress(st: State, post: State) {
    && st.stats.submitted <= post.stats.submitted
    && (forall u :: Out(post, u) ==>
          || (Out(st, u) && (IsLive(post, u) ==> IsLive(st, u)))
          || u.serial >= st.stats.submitted)
    && (forall id :: id in post.registry ==> RowAdvances(st, post, id))
  }

  lemma RetireProgress(cfg: Config, st: State, active: set<nat>)
    requires Inv(cfg, st)
    ensures Progress(st, Retire(st, active))
  {
    RetireShape(st, active);
    forall u | Out(Retire(st, active), u)
      ensures Out(st, u) && (IsLive(Retire(st, active), u) ==> IsLive(st, u))
    {
      assert Out(st, u);
    }
  }

  lemma EnqueueProgress(cfg: Config, st: State, id: nat, priority: Priority)
    requires Inv(cfg, st)
    ensures Progress(st, Enqueue(cfg, st, id, priority))
  {
    var post := Enqueue(cfg, st, id, priority);
    forall u | Out(post, u) && u.serial < st.stats.submitted
      ensures Out(st, u) && (IsLive(post, u) ==> IsLive(st, u))
    {
      assert Out(st, u);
    }
  }

  lemma ReleaseProgress(st: State, id: nat)
    requires OneOver(st, id) && KeysOk(st)
    ensures Progress(st, ReleasePending(st, id))
  {
    ReleaseShape(st, id);
  }

  lemma DropHeadProgress(st: State)
    requires OrderOk(st) && st.queue != []
    ensures Progress(st, WithoutHead(st))
  {
    forall u | Out(WithoutHead(st), u)
      ensures Out(st, u)
    {
      WithoutHeadOut(st, u);
    }
  }

  lemma StartStaleProgress(cfg: Config, st: State)
    requires Inv(cfg, st) && st.queue != [] && !IsLive(st, st.queue[0])
    ensures Progress(st, Start(st))
  {
    DropHeadKeeps(cfg, st);
    DropHeadProgress(st);
    ReleaseProgress(WithoutHead(st), st.queue[0].id);
    assert Start(st) == ReleasePending(WithoutHead(st), st.queue[0].id);
    ProgressTransitive(st, WithoutHead(st), Start(st));
  }

  lemma StartLiveProgress(cfg: Config, st: State)
    requires Inv(cfg, st) && st.queue != [] && IsLive(st, st.queue[0])
    ensures Progress(st, Start(st))
  {
    assert st.queue[0] in st.queue && Shows(st, st.queue[0], Queued);
    StartLiveRegistry(st);
    forall u | Out(Start(st), u)
      ensures Out(st, u)
    {
      StartLiveOut(st, u);
    }
  }

  lemma StartProgress(cfg: Config, st: State)
    requires cfg.Valid() && Inv(cfg, st) && Enabled(cfg, st, StartStep)
    ensures Progress(st, Start(st))
  {
    if IsLive(st, st.queue[0]) {
      StartLiveProgress(cfg, st);
    } else {
      StartStaleProgress(cfg, st);
    }
  }

  /** A finishing work only moves its own row, and only while it is live. */
  lemma SettleAdvances(cfg: Config, st: State, slot: nat, outcome: Outcome)
    requires Inv(cfg, st) && slot < |st.running|
    ensures var left := Settle(WithoutSlot(st, slot), st.running[slot], outcome);
            forall id :: id in left.registry ==> RowAdvances(st, left, id)
  {
    var w := st.running[slot];
    assert w in st.running;
    assert IsLive(st, w) ==> Shows(st, w, Running);
  }

  lemma SettleProgress(cfg: Config, st: State, slot: nat, outcome: Outcome)
    requires Inv(cfg, st) && slot < |st.running|
    ensures Progress(st, Settle(WithoutSlot(st, slot), st.running[slot], outcome))
  {
    SettleAdvances(cfg, st, slot, outcome);
    SettleShape(WithoutSlot(st, slot), st.running[slot], outcome);
    forall u | Out(WithoutSlot(st, slot), u)
      ensures Out(st, u)
    {
      WithoutMember(st.running, slot, u);
    }
  }

  lemma FinishProgress(cfg: Config, st: State, slot: nat, outcome: Outcome)
    requires Inv(cfg, st) && slot < |st.running|
    ensures Progress(st, Finish(st, slot, outcome))
  {
    var w := st.running[slot];
    RemoveKeeps(cfg, st, slot, outcome);
    SettleProgress(cfg, st, slot, outcome);
    ReleaseProgress(Settle(WithoutSlot(st, slot), w, outcome), w.id);
    ProgressTransitive(st, Settle(WithoutSlot(st, slot), w, outcome), Finish(st, slot, outcome));
  }

  lemma StepProgress(cfg: Config, st: State, step: Step)
    requires cfg.Valid() && Inv(cfg, st) && Enabled(cfg, st, step)
    ensures Progress(st, Next(cfg, st, step))
  {
    match step
    case RetireStep(active) => RetireProgress(cfg, st, active);
    case RequestStep(facts) =>
      if Requested(cfg, st, facts) {
        EnqueueProgress(cfg, st, facts.id, facts.priority);
      }
    case StartStep => StartProgress(cfg, st);
    case FinishStep(slot, outcome) => FinishProgress(cfg, st, slot, outcome);
  }

  lemma ProgressTransitive(a: State, b: State, c: State)
    requires Progress(a, b) && Progress(b, c)
    ensures Progress(a, c)
  {
    forall id | id in c.registry
      ensures RowAdvances(a, c, id)
    {
      assert RowAdvances(b, c, id);
      if c.registry[id].serial < a.stats.submitted {
        assert RowAdvances(a, b, id);
      }
    }
  }

  /** Over any run every registry row belongs to a later request than the run's start knows, or to the same request
      of the same episode, whose status has only moved forward: queued, running, then enriched or fallback. */
  lemma {:induction false} RunProgress(cfg: Config, st: State, steps: seq<Step>)
    requires cfg.Valid() && Inv(cfg, st) && IsRun(cfg, st, steps)
    ensures Progress(st, After(cfg, st, steps))
    decreases steps
  {
    if steps != [] {
      var mid := Next(cfg, st, steps[0]);
      StepKeeps(cfg, st, steps[0]);
      StepProgress(cfg, st, steps[0]);
      RunProgress(cfg, mid, steps[1..]);
      ProgressTransitive(st, mid, After(cfg, mid, steps[1..]));
    }
  }

  // ---- Stale work ----

  /** The request with this serial is not live, and no row shows it. */
  ghost predicate Dead(st: State, serial: nat) {
    && serial < st.stats.submitted
    && (forall u :: Out(st, u) && u.serial == serial ==> !IsLive(st, u))
    && (forall id :: id in st.registry ==> st.registry[id].serial != serial)
  }

  lemma StaleIsDead(cfg: Config, st: State, w: Work)
    requires Inv(cfg, st) && Out(st, w) && !IsLive(st, w)
    ensures Dead(st, w.serial)
  {
    forall u | Out(st, u) && u.serial == w.serial
      ensures !IsLive(st, u)
    {
      SameSerialSameWork(st, u, w);
    }
  }

  /** Stale work never comes back: whatever the interleaving, once an outstanding request is superseded or its episode
      retired, it is never live again and no registry row is ever its, even if the episode's id turns active again. */
  lemma StaleNeverReturns(cfg: Config, st: State, steps: seq<Step>, w: Work)
    requires cfg.Valid() && Inv(cfg, st) && IsRun(cfg, st, steps)
    requires Out(st, w) && !IsLive(st, w)
    ensures Dead(After(cfg, st, steps), w.serial)
  {
    StaleIsDead(cfg, st, w);
    RunProgress(cfg, st, steps);
  }

  /** Retiring an episode, or requesting for it again, makes all its earlier requests stale. */
  lemma RetiredIsStale(cfg: Config, st: State, active: set<nat>, w: Work)
    requires Inv(cfg, st) && Out(st, w) && w.id !in active
    ensures Out(Retire(st, active), w) && !IsLive(Retire(st, active), w)
  {
    RetireShape(st, active);
  }

  lemma SupersededIsStale(cfg: Config, st: State, f: Facts, w: Work)
    requires Inv(cfg, st) && Out(st, w) && w.id == f.id
    requires Requested(cfg, st, f) && !Full(cfg, st)
    ensures Out(Request(cfg, st, f), w) && !IsLive(Request(cfg, st, f), w)
  {
  }

  /** At most one outstanding request per episode is live, in every reachable state. */
  lemma OneLiveAlways(cfg: Config, steps: seq<Step>, u: Work, w: Work)
    requires cfg.Valid() && IsRun(cfg, EMPTY, steps)
    requires var st := After(cfg, EMPTY, steps);
             Out(st, u) && Out(st, w) && IsLive(st, u) && IsLive(st, w) && u.id == w.id
    ensures u == w
  {
    EmptyIsFine(cfg);
    RunKeeps(cfg, EMPTY, steps);
    OneLivePerEpisode(After(cfg, EMPTY, steps), u, w);
  }

  // ---- No leaks ----

  function WorkIds(ws: seq<Work>): (r: set<nat>)
    ensures forall id :: id in r <==> exists w :: w in ws && w.id == id
    ensures |r| <= |ws|
  {
    if ws == [] then {}
    else
      assert ws == [ws[0]] + ws[1..];
      var rest := WorkIds(ws[1..]);
      assert |{ws[0].id} + rest| <= 1 + |rest|;
      {ws[0].id} + rest
  }

  lemma {:induction false} CountedIsMember(ws: seq<Work>, id: nat)
    requires Count(ws, id) > 0
    ensures id in WorkIds(ws)
  {
    if ws[0].id != id {
      CountedIsMember(ws[1..], id);
    }
    assert ws == [ws[0]] + ws[1..];
  }

  lemma SubsetSize<T>(a: set<T>, b: set<T>)
    requires a <= b
    ensures |a| <= |b|
  {
    assert b == a + (b - a);
  }

  /** Bookkeeping is bounded: as many episodes are remembered as are active or have work outstanding. */
  lemma TrackedIsBounded(cfg: Config, st: State)
    requires Inv(cfg, st)
    ensures |Tracked(st)| <= |st.active| + |st.queue| + |st.running|
    ensures cfg.queueSize > 0 ==> |Tracked(st)| <= |st.active| + cfg.queueSize + cfg.concurrency
  {
    var queued := WorkIds(st.queue);
    var running := WorkIds(st.running);
    forall id | id in Tracked(st)
      ensures id in st.active + queued + running
    {
      if id in st.pending {
        assert Get(st.pending, id) > 0;
        if Count(st.running, id) > 0 {
          CountedIsMember(st.running, id);
        } else {
          CountedIsMember(st.queue, id);
        }
      }
    }
    SubsetSize(Tracked(st), st.active + queued + running);
    assert |st.active + queued| <= |st.active| + |queued|;
    assert |st.active + queued + running| <= |st.active + queued| + |running|;
  }

  /** What a queue and its workers still have to do. */
  function Load(st: State): nat {
    2 * |st.queue| + |st.running|
  }

  predicate WorkerStep(step: Step) {
    step.StartStep? || step.FinishStep?
  }

  /** Workers never change the active set, and never touch an active episode's call counter. */
  ghost predicate CallsKept(st: State, post: State) {
    && post.active == st.active
    && (forall i :: i in post.calls ==> i in st.calls && post.calls[i] == st.calls[i])
    && (forall i :: i in st.calls && i in st.active ==> i in post.calls)
  }

  lemma ReleaseKeepsCalls(st: State, id: nat)
    ensures var post := ReleasePending(st, id);
            CallsKept(st, post) && post.queue == st.queue && post.running == st.running
  {
  }

  lemma StartKeepsCalls(st: State)
    requires st.queue != []
    ensures CallsKept(st, Start(st)) && Load(Start(st)) < Load(st)
  {
    if !IsLive(st, st.queue[0]) {
      ReleaseKeepsCalls(WithoutHead(st), st.queue[0].id);
      assert Start(st) == ReleasePending(WithoutHead(st), st.queue[0].id);
    }
  }

  lemma FinishKeepsCalls(st: State, slot: nat, outcome: Outcome)
    requires slot < |st.running|
    ensures CallsKept(st, Finish(st, slot, outcome)) && Load(Finish(st, slot, outcome)) < Load(st)
  {
    var w := st.running[slot];
    var left := Settle(WithoutSlot(st, slot), w, outcome);
    SettleShape(WithoutSlot(st, slot), w, outcome);
    ReleaseKeepsCalls(left, w.id);
  }

  lemma WorkerKeepsCalls(cfg: Config, st: State, step: Step)
    requires WorkerStep(step) && Enabled(cfg, st, step)
    ensures CallsKept(st, Next(cfg, st, step)) && Load(Next(cfg, st, step)) < Load(st)
  {
    match step
    case StartStep => StartKeepsCalls(st);
    case FinishStep(slot, outcome) => FinishKeepsCalls(st, slot, outcome);
  }

  /** While anything is outstanding some worker step is possible. */
  lemma WorkersCanMove(cfg: Config, st: State)
    requires cfg.Valid() && Load(st) > 0
    ensures Enabled(cfg, st, StartStep) || Enabled(cfg, st, FinishStep(0, Cancelled))
  {
  }

  /** Workers alone drain everything in at most Load steps; and once nothing is active and nothing is outstanding,
      nothing is remembered. */
  lemma {:induction false} WorkersDrain(cfg: Config, st: State, steps: seq<Step>)
    requires cfg.Valid() && Inv(cfg, st) && IsRun(cfg, st, steps)
    requires forall step :: step in steps ==> WorkerStep(step)
    ensures |steps| + Load(After(cfg, st, steps)) <= Load(st)
    ensures st.active == {} && Load(After(cfg, st, steps)) == 0 ==> Tracked(After(cfg, st, steps)) == {}
    decreases steps
  {
    if steps != [] {
      assert steps[0] in steps && forall step :: step in steps[1..] ==> step in steps;
      WorkerKeepsCalls(cfg, st, steps[0]);
      StepKeeps(cfg, st, steps[0]);
      WorkersDrain(cfg, Next(cfg, st, steps[0]), steps[1..]);
    } else {
      TrackedIsBounded(cfg, st);
    }
  }

  /** In every reachable state each request submitted is queued, running, or ended in exactly one of three ways; the
      pending counters count the works; and only active episodes are shown. */
  lemma WorkIsConserved(cfg: Config, steps: seq<Step>, id: nat)
    requires cfg.Valid() && IsRun(cfg, EMPTY, steps)
    ensures var st := After(cfg, EMPTY, steps);
            && st.stats.submitted
               == |st.queue| + |st.running| + st.stats.enriched + st.stats.fallbacksStored + st.stats.stale
            && st.stats.modelCalls <= st.stats.submitted
            && Get(st.pending, id) == Count(st.running, id) + Count(st.queue, id)
            && (id in st.registry ==> id in st.active)
            && (id in Tracked(st) ==> id in st.active || Get(st.pending, id) > 0)
  {
    EmptyIsFine(cfg);
    RunKeeps(cfg, EMPTY, steps);
  }

  // ---- Call budget ----

  predicate Submits(cfg: Config, st: State, step: Step, id: nat) {
    step.RequestStep? && step.facts.id == id && Requested(cfg, st, step.facts) && !Full(cfg, st)
  }

  /** How often a run submits a request for an episode. */
  function Submissions(cfg: Config, st: State, steps: seq<Step>, id: nat): nat
    requires IsRun(cfg, st, steps)
    decreases steps
  {
    if steps == [] then 0
    else
      (if Submits(cfg, st, steps[0], id) then 1 else 0) + Submissions(cfg, Next(cfg, st, steps[0]), steps[1..], id)
  }

  /** The run never lets go of the episode's entries once it has them. */
  ghost predicate Remembered(cfg: Config, st: State, steps: seq<Step>, id: nat)
    requires IsRun(cfg, st, steps)
    decreases steps
  {
    steps == []
    || ((id in st.calls ==> id in Next(cfg, st, steps[0]).calls)
        && Remembered(cfg, Next(cfg, st, steps[0]), steps[1..], id))
  }

  lemma StepCounts(cfg: Config, st: State, step: Step, id: nat)
    requires cfg.Valid() && Inv(cfg, st) && Enabled(cfg, st, step)
    requires id in st.calls ==> id in Next(cfg, st, step).calls
    ensures Get(Next(cfg, st, step).calls, id) == Get(st.calls, id) + if Submits(cfg, st, step, id) then 1 else 0
  {
    match step
    case RetireStep(active) => RetireShape(st, active);
    case RequestStep(_) =>
    case StartStep => WorkerKeepsCalls(cfg, st, step);
    case FinishStep(_, _) => WorkerKeepsCalls(cfg, st, step);
  }

  /** Between creation and forgetting of an episode's entries its call counter is the number of requests submitted. */
  lemma {:induction false} CallsAreSubmissions(cfg: Config, st: State, steps: seq<Step>, id: nat)
    requires cfg.Valid() && Inv(cfg, st) && IsRun(cfg, st, steps) && Remembered(cfg, st, steps, id)
    ensures Get(After(cfg, st, steps).calls, id) == Get(st.calls, id) + Submissions(cfg, st, steps, id)
    decreases steps
  {
    if steps != [] {
      StepKeeps(cfg, st, steps[0]);
      StepCounts(cfg, st, steps[0], id);
      CallsAreSubmissions(cfg, Next(cfg, st, steps[0]), steps[1..], id);
    }
  }

  /** So at most max_calls requests are submitted, plus one when recall is allowed. */
  lemma BudgetHolds(cfg: Config, st: State, steps: seq<Step>, id: nat)
    requires cfg.Valid() && Inv(cfg, st) && IsRun(cfg, st, steps) && Remembered(cfg, st, steps, id)
    requires id !in st.calls
    ensures Submissions(cfg, st, steps, id) <= Cap(cfg.budget)
  {
    CallsAreSubmissions(cfg, st, steps, id);
    RunKeeps(cfg, st, steps);
  }

  /** After a step an episode's entries are there exactly when they were there or were just created, and the episode is
      active or has work outstanding. */
  lemma StepRemembers(cfg: Config, st: State, step: Step, id: nat)
    requires cfg.Valid() && Inv(cfg, st) && Enabled(cfg, st, step) && id in st.calls
    ensures var post := Next(cfg, st, step);
            id in post.calls <==> id in post.active || HasWork(post, id)
  {
    StepKeeps(cfg, st, step);
    PendingIsWork(cfg, Next(cfg, st, step), id);
    match step
    case RetireStep(active) => RetireForgets(cfg, st, active, id);
    case RequestStep(_) =>
    case StartStep => StartForgets(cfg, st, id);
    case FinishStep(slot, outcome) => FinishForgets(cfg, st, slot, outcome, id);
  }

  /** A request of the episode is queued or running. */
  predicate HasWork(st: State, id: nat) {
    exists w :: w in Outstanding(st) && w.id == id
  }

  lemma {:induction false} CountedExactly(ws: seq<Work>, id: nat)
    ensures Count(ws, id) > 0 <==> exists w :: w in ws && w.id == id
  {
    if ws != [] {
      CountedExactly(ws[1..], id);
      assert ws == [ws[0]] + ws[1..];
    }
  }

  lemma PendingIsWork(cfg: Config, st: State, id: nat)
    requires Inv(cfg, st)
    ensures id in st.pending <==> HasWork(st, id)
    ensures Get(st.pending, id) > 0 <==> HasWork(st, id)
  {
    CountConcat(st.running, st.queue, id);
    CountedExactly(Outstanding(st), id);
  }

  lemma RetireForgets(cfg: Config, st: State, active: set<nat>, id: nat)
    requires Inv(cfg, st) && id in st.calls
    ensures var post := Retire(st, active); id in post.calls <==> id in post.active || id in post.pending
  {
  }

  lemma ReleaseForgets(st: State, id: nat, other: nat)
    requires other in st.calls && KeysOk(st)
    requires other != id ==> other in st.active || other in st.pending
    requires forall i :: i in st.pending ==> st.pending[i] > 0
    ensures var post := ReleasePending(st, id); other in post.calls <==> other in post.active || other in post.pending
  {
  }

  lemma StartForgets(cfg: Config, st: State, id: nat)
    requires Inv(cfg, st) && st.queue != [] && id in st.calls
    ensures id in Start(st).calls <==> id in Start(st).active || id in Start(st).pending
  {
    if !IsLive(st, st.queue[0]) {
      ReleaseForgets(WithoutHead(st), st.queue[0].id, id);
      assert Start(st) == ReleasePending(WithoutHead(st), st.queue[0].id);
    }
  }

  lemma FinishForgets(cfg: Config, st: State, slot: nat, outcome: Outcome, id: nat)
    requires Inv(cfg, st) && slot < |st.running| && id in st.calls
    ensures var post := Finish(st, slot, outcome); id in post.calls <==> id in post.active || id in post.pending
  {
    var w := st.running[slot];
    var left := Settle(WithoutSlot(st, slot), w, outcome);
    SettleShape(WithoutSlot(st, slot), w, outcome);
    SettleKeepsKeys(WithoutSlot(st, slot), w, outcome);
    ReleaseForgets(left, w.id, id);
  }

  lemma SettleKeepsKeys(st: State, w: Work, outcome: Outcome)
    requires KeysOk(st)
    ensures KeysOk(Settle(st, w, outcome))
  {
  }

  /** After each step of the run an episode that had entries is active or has work outstanding. */
  ghost predicate NeverIdle(cfg: Config, st: State, steps: seq<Step>, id: nat)
    requires IsRun(cfg, st, steps)
    decreases steps
  {
    steps == []
    || (var post := Next(cfg, st, steps[0]);
        && (id in st.calls ==> id in post.active || HasWork(post, id))
        && NeverIdle(cfg, post, steps[1..], id))
  }

  /** A run remembers an episode exactly when the episode is never inactive and without work at the same time. */
  lemma {:induction false} RememberedMeaning(cfg: Config, st: State, steps: seq<Step>, id: nat)
    requires cfg.Valid() && Inv(cfg, st) && IsRun(cfg, st, steps)
    ensures Remembered(cfg, st, steps, id) <==> NeverIdle(cfg, st, steps, id)
    decreases steps
  {
    if steps != [] {
      StepKeeps(cfg, st, steps[0]);
      if id in st.calls {
        StepRemembers(cfg, st, steps[0], id);
      }
      RememberedMeaning(cfg, Next(cfg, st, steps[0]), steps[1..], id);
    }
  }

  /** An episode that every tick of the run keeps active is remembered, so the bound holds for as long as it lives. */
  lemma {:induction false} ActiveIsRemembered(cfg: Config, st: State, steps: seq<Step>, id: nat)
    requires cfg.Valid() && Inv(cfg, st) && IsRun(cfg, st, steps) && id in st.active
    requires forall step :: step in steps && step.RetireStep? ==> id in step.active
    ensures Remembered(cfg, st, steps, id)
    decreases steps
  {
    if steps != [] {
      assert steps[0] in steps && forall step :: step in steps[1..] ==> step in steps;
      StepKeeps(cfg, st, steps[0]);
      StepKeepsActive(cfg, st, steps[0], id);
      ActiveIsRemembered(cfg, Next(cfg, st, steps[0]), steps[1..], id);
    }
  }

  lemma StepKeepsActive(cfg: Config, st: State, step: Step, id: nat)
    requires Inv(cfg, st) && Enabled(cfg, st, step) && id in st.active
    requires step.RetireStep? ==> id in step.active
    ensures var post := Next(cfg, st, step); id in post.active && (id in st.calls ==> id in post.calls)
  {
    match step
    case RetireStep(active) => RetireShape(st, active);
    case RequestStep(_) =>
    case StartStep => WorkerKeepsCalls(cfg, st, step);
    case FinishStep(_, _) => WorkerKeepsCalls(cfg, st, step);
  }

  /** A request beyond max_calls is a single recall and strictly more urgent than the last one submitted. */
  lemma RecallIsMoreUrgent(cfg: Config, st: State, f: Facts)
    requires Inv(cfg, st) && Requested(cfg, st, f) && Get(st.calls, f.id) >= cfg.budget.maxCalls
    ensures cfg.budget.allowRecall && Get(st.calls, f.id) == cfg.budget.maxCalls
    ensures f.id in st.lastPriority && Rank(f.priority) > Rank(st.lastPriority[f.id])
  {
    assert f.id in st.calls <==> f.id in st.lastPriority;
    GrantedIsUnderCap(cfg.budget, Get(st.calls, f.id), f.priority, LastOf(st, f.id));
  }

  // ---- The bound is per period of activity, not per id ----

  /** What the router asks of a signal besides an active episode and its budget. */
  predicate Requestable(cfg: Config, f: Facts) {
    && (cfg.policy.requireAlertEdge ==> f.alertEdge)
    && f.feed !in {STALE, DISCONNECTED}
    && !(f.change1m.None? && f.change5m.None? && f.volumeRatio5m.None?)
    && Candidate(InputOf(EMPTY, f), cfg.policy)
  }

  lemma RequestedExactly(cfg: Config, st: State, f: Facts)
    ensures Requested(cfg, st, f)
            <==> f.id in st.active && Requestable(cfg, f)
                 && BudgetAllows(cfg.budget, Get(st.calls, f.id), f.priority, LastOf(st, f.id))
  {
    assert Candidate(InputOf(st, f), cfg.policy) == Candidate(InputOf(EMPTY, f), cfg.policy);
  }

  /** The episode turns active again and its signal is reported. */
  function Return(st: State, f: Facts): seq<Step> {
    [RetireStep(st.active + {f.id})] + [RequestStep(f)]
  }

  lemma {:induction false} RunConcat(cfg: Config, st: State, a: seq<Step>, b: seq<Step>, id: nat)
    requires IsRun(cfg, st, a) && IsRun(cfg, After(cfg, st, a), b)
    ensures IsRun(cfg, st, a + b) && After(cfg, st, a + b) == After(cfg, After(cfg, st, a), b)
    ensures Submissions(cfg, st, a + b, id) == Submissions(cfg, st, a, id) + Submissions(cfg, After(cfg, st, a), b, id)
    decreases a
  {
    if a == [] {
      assert a + b == b;
    } else {
      assert (a + b)[0] == a[0] && (a + b)[1..] == a[1..] + b;
      RunConcat(cfg, Next(cfg, st, a[0]), a[1..], b, id);
    }
  }

  lemma OneStep(cfg: Config, st: State, step: Step, id: nat)
    requires Enabled(cfg, st, step)
    ensures IsRun(cfg, st, [step]) && After(cfg, st, [step]) == Next(cfg, st, step)
    ensures Submissions(cfg, st, [step], id) == if Submits(cfg, st, step, id) then 1 else 0
  {
    assert [step][1..] == [];
    assert IsRun(cfg, Next(cfg, st, step), []);
  }

  /** From any reachable state that has forgotten an id, a router-worthy signal of that id is submitted again. */
  lemma ForgottenIsCalledAgain(cfg: Config, st: State, f: Facts)
    requires cfg.Valid() && Inv(cfg, st) && f.id !in st.calls && Requestable(cfg, f)
    requires cfg.budget.maxCalls >= 1 && !Full(cfg, st)
    ensures IsRun(cfg, st, Return(st, f)) && Submissions(cfg, st, Return(st, f), f.id) == 1
    ensures After(cfg, st, Return(st, f)).stats.submitted == st.stats.submitted + 1
  {
    var back := Retire(st, st.active + {f.id});
    OneStep(cfg, st, RetireStep(st.active + {f.id}), f.id);
    RequestedExactly(cfg, back, f);
    OneStep(cfg, back, RequestStep(f), f.id);
    RunConcat(cfg, st, [RetireStep(st.active + {f.id})], [RequestStep(f)], f.id);
  }

  /** So over a whole run the calls of an id have no bound of their own: any run that ends with the id forgotten goes on
      to one more. */
  lemma ForgettingRenewsBudget(cfg: Config, steps: seq<Step>, f: Facts)
    requires cfg.Valid() && IsRun(cfg, EMPTY, steps) && f.id !in After(cfg, EMPTY, steps).calls
    requires Requestable(cfg, f) && cfg.budget.maxCalls >= 1 && !Full(cfg, After(cfg, EMPTY, steps))
    ensures var more := steps + Return(After(cfg, EMPTY, steps), f);
            IsRun(cfg, EMPTY, more)
            && Submissions(cfg, EMPTY, more, f.id) == Submissions(cfg, EMPTY, steps, f.id) + 1
  {
    EmptyIsFine(cfg);
    RunKeeps(cfg, EMPTY, steps);
    var st := After(cfg, EMPTY, steps);
    ForgottenIsCalledAgain(cfg, st, f);
    RunConcat(cfg, EMPTY, steps, Return(st, f), f.id);
  }
}
