/** What the registry and the counters show is how the provider's calls ended, over every run. */
module SidecarOutcomes {
  import opened Common
  import opened Domain
  import opened Router
  import opened SidecarModel
  import opened SidecarInvariant
  import opened SidecarRuns

  // ---- One call ----

  /** A live call that ends leaves its own row: enriched without a reason after a success, fallback with the reason
      after a failure. A call that was cancelled or is no longer live changes no row. */
  lemma FinishShows(st: State, slot: nat, outcome: Outcome)
    requires slot < |st.running|
    ensures var w, post := st.running[slot], Finish(st, slot, outcome);
            && (IsLive(st, w) && outcome.Success? ==>
                  post.registry
                  == st.registry[w.id := Row(w.serial, w.generation, Enriched, NoReason, Get(st.calls, w.id))])
            && (IsLive(st, w) && outcome.Failure? ==>
                  post.registry
                  == st.registry[w.id := Row(w.serial, w.generation, Fallback, outcome.reason, Get(st.calls, w.id))])
            && (!IsLive(st, w) || outcome.Cancelled? ==> post.registry == st.registry)
  {
  }

  /** Starting live work shows it as running; discarding stale work shows nothing. */
  lemma StartShows(st: State)
    requires st.queue != []
    ensures var w, post := st.queue[0], Start(st);
            && (IsLive(st, w) ==>
                  post.registry
                  == st.registry[w.id := Row(w.serial, w.generation, Running, NoReason, Get(st.calls, w.id))])
            && (!IsLive(st, w) ==> post.registry == st.registry)
  {
  }

  // ---- Which outcome a row shows ----

  /** The end a row shows, if it shows one. */
  function Shown(row: Row): Option<Outcome> {
    match row.status
    case Enriched => Some(Success)
    case Fallback => Some(Failure(row.reason))
    case _ => None
  }

  function ShownOf(st: State, id: nat, serial: nat): Option<Outcome> {
    if id in st.registry && st.registry[id].serial == serial then Shown(st.registry[id]) else None
  }

  /** How a step ends the live work with this serial, other than by cancelling it. */
  function EndOf(st: State, step: Step, serial: nat): Option<Outcome> {
    if step.FinishStep? && step.slot < |st.running| && st.running[step.slot].serial == serial
       && IsLive(st, st.running[step.slot]) && !step.outcome.Cancelled?
    then Some(step.outcome)
    else None
  }

  /** Some step of the run ends the live work with this serial so. */
  ghost predicate Ended(cfg: Config, st: State, steps: seq<Step>, serial: nat, outcome: Outcome)
    requires IsRun(cfg, st, steps)
    decreases steps
  {
    steps != []
    && (EndOf(st, steps[0], serial) == Some(outcome)
        || Ended(cfg, Next(cfg, st, steps[0]), steps[1..], serial, outcome))
  }

  lemma RetireKeepsRow(cfg: Config, st: State, active: set<nat>, id: nat)
    requires Inv(cfg, st)
    ensures var post := Retire(st, active);
            id in post.registry ==> id in st.registry && post.registry[id] == st.registry[id]
  {
    RetireShape(st, active);
  }

  /** A row of a request older than the step, afterwards. */
  ghost predicate RowFollows(st: State, post: State, step: Step, id: nat) {
    id in post.registry ==>
      var n := post.registry[id].serial;
      Shown(post.registry[id]) == if EndOf(st, step, n).Some? then EndOf(st, step, n) else ShownOf(st, id, n)
  }

  lemma FinishFollows(cfg: Config, st: State, slot: nat, outcome: Outcome, id: nat)
    requires Inv(cfg, st) && slot < |st.running|
    ensures RowFollows(st, Finish(st, slot, outcome), FinishStep(slot, outcome), id)
  {
    FinishShows(st, slot, outcome);
    var w := st.running[slot];
    assert Out(st, w);
    assert id in st.registry && st.registry[id].serial == w.serial ==> id == w.id;
  }

  lemma StartFollows(cfg: Config, st: State, id: nat)
    requires Inv(cfg, st) && st.queue != []
    ensures RowFollows(st, Start(st), StartStep, id)
  {
    StartShows(st);
    var w := st.queue[0];
    assert IsLive(st, w) ==> Shows(st, w, Queued);
  }

  lemma RequestFollows(cfg: Config, st: State, f: Facts, id: nat)
    requires Inv(cfg, st)
    ensures RowFollows(st, Request(cfg, st, f), RequestStep(f), id)
  {
    assert id in st.registry ==> st.registry[id].serial < st.stats.submitted;
  }

  lemma StepFollows(cfg: Config, st: State, step: Step, id: nat)
    requires Inv(cfg, st) && Enabled(cfg, st, step)
    ensures RowFollows(st, Next(cfg, st, step), step, id)
  {
    match step
    case RetireStep(active) => RetireKeepsRow(cfg, st, active, id);
    case RequestStep(f) => RequestFollows(cfg, st, f, id);
    case StartStep => StartFollows(cfg, st, id);
    case FinishStep(slot, outcome) => FinishFollows(cfg, st, slot, outcome, id);
  }

  // ---- A call ends once ----

  ghost predicate NotOut(st: State, serial: nat) {
    serial < st.stats.submitted && forall w :: Out(st, w) ==> w.serial != serial
  }

  lemma EndedIsOut(cfg: Config, st: State, step: Step, serial: nat)
    requires cfg.Valid() && Inv(cfg, st) && Enabled(cfg, st, step) && EndOf(st, step, serial).Some?
    ensures NotOut(Next(cfg, st, step), serial)
  {
    var w, post := st.running[step.slot], Next(cfg, st, step);
    assert Out(st, w);
    SettleShape(WithoutSlot(st, step.slot), w, step.outcome);
    RemoveKeeps(cfg, st, step.slot, step.outcome);
    ReleaseShape(Settle(WithoutSlot(st, step.slot), w, step.outcome), w.id);
    forall u | Out(post, u)
      ensures u.serial != serial
    {
      RemovedOut(st, step.slot, u);
    }
  }

  lemma StepKeepsOut(cfg: Config, st: State, step: Step, serial: nat)
    requires cfg.Valid() && Inv(cfg, st) && Enabled(cfg, st, step) && NotOut(st, serial)
    ensures EndOf(st, step, serial) == None
    ensures Inv(cfg, Next(cfg, st, step)) && NotOut(Next(cfg, st, step), serial)
  {
    assert step.FinishStep? ==> Out(st, st.running[step.slot]);
    StepKeeps(cfg, st, step);
    StepProgress(cfg, st, step);
  }

  /** The last end the run gives the work. */
  function LastEnd(cfg: Config, st: State, steps: seq<Step>, serial: nat): Option<Outcome>
    requires IsRun(cfg, st, steps)
    decreases steps
  {
    if steps == [] then None
    else
      var later := LastEnd(cfg, Next(cfg, st, steps[0]), steps[1..], serial);
      if later.Some? then later else EndOf(st, steps[0], serial)
  }

  /** A work that ends live ends once, so the last end is the only one. */
  lemma {:induction false} EndsOnce(cfg: Config, st: State, steps: seq<Step>, serial: nat, outcome: Outcome)
    requires cfg.Valid() && Inv(cfg, st) && IsRun(cfg, st, steps)
    ensures Ended(cfg, st, steps, serial, outcome) <==> LastEnd(cfg, st, steps, serial) == Some(outcome)
    decreases steps
  {
    if steps != [] {
      var step, post := steps[0], Next(cfg, st, steps[0]);
      StepKeeps(cfg, st, step);
      EndsOnce(cfg, post, steps[1..], serial, outcome);
      if EndOf(st, step, serial).Some? {
        EndedIsOut(cfg, st, step, serial);
        NoLaterEnd(cfg, post, steps[1..], serial);
      }
    }
  }

  lemma {:induction false} NoLaterEnd(cfg: Config, st: State, steps: seq<Step>, serial: nat)
    requires cfg.Valid() && Inv(cfg, st) && IsRun(cfg, st, steps) && NotOut(st, serial)
    ensures LastEnd(cfg, st, steps, serial) == None
    ensures forall o :: !Ended(cfg, st, steps, serial, o)
    decreases steps
  {
    if steps != [] {
      var step, post := steps[0], Next(cfg, st, steps[0]);
      StepKeepsOut(cfg, st, step, serial);
      NoLaterEnd(cfg, post, steps[1..], serial);
    }
  }

  // ---- Over runs ----

  /** The step that a row has behind it. */
  lemma FollowsOn(cfg: Config, st: State, step: Step, last: State, id: nat)
    requires cfg.Valid() && Inv(cfg, st) && Enabled(cfg, st, step)
    requires id in last.registry && RowAdvances(Next(cfg, st, step), last, id)
    ensures var n := last.registry[id].serial;
            ShownOf(Next(cfg, st, step), id, n)
            == if EndOf(st, step, n).Some? then EndOf(st, step, n) else ShownOf(st, id, n)
  {
    StepProgress(cfg, st, step);
    StepFollows(cfg, st, step, id);
    var n := last.registry[id].serial;
    if n >= Next(cfg, st, step).stats.submitted {
      StepKeeps(cfg, st, step);
      NewIsUnseen(cfg, st, step, id, n);
      assert id in Next(cfg, st, step).registry ==>
          Next(cfg, st, step).registry[id].serial < Next(cfg, st, step).stats.submitted;
    }
  }

  lemma NewIsUnseen(cfg: Config, st: State, step: Step, id: nat, serial: nat)
    requires Inv(cfg, st) && Enabled(cfg, st, step) && serial >= st.stats.submitted
    ensures EndOf(st, step, serial) == None && ShownOf(st, id, serial) == None
  {
    assert step.FinishStep? ==> Out(st, st.running[step.slot]);
  }

  /** A row shows the end its work was given in the run, or what it showed before. */
  lemma {:induction false} RunFollows(cfg: Config, st: State, steps: seq<Step>, id: nat)
    requires cfg.Valid() && Inv(cfg, st) && IsRun(cfg, st, steps) && id in After(cfg, st, steps).registry
    ensures var row := After(cfg, st, steps).registry[id];
            Shown(row)
            == if LastEnd(cfg, st, steps, row.serial).Some? then LastEnd(cfg, st, steps, row.serial)
               else ShownOf(st, id, row.serial)
    decreases steps
  {
    if steps != [] {
      var step, mid := steps[0], Next(cfg, st, steps[0]);
      StepKeeps(cfg, st, step);
      RunFollows(cfg, mid, steps[1..], id);
      RunProgress(cfg, mid, steps[1..]);
      FollowsOn(cfg, st, step, After(cfg, mid, steps[1..]), id);
    }
  }

  /** In every reachable state a row is enriched exactly when the run ended its work with a success while it was live,
      and a fallback with a reason exactly when it ended it with that failure while it was live. */
  lemma RowsShowOutcomes(cfg: Config, steps: seq<Step>, id: nat)
    requires cfg.Valid() && IsRun(cfg, EMPTY, steps) && id in After(cfg, EMPTY, steps).registry
    ensures var row := After(cfg, EMPTY, steps).registry[id];
            && (row.status == Enriched <==> Ended(cfg, EMPTY, steps, row.serial, Success))
            && forall reason ::
                 row.status == Fallback && row.reason == reason
                 <==> Ended(cfg, EMPTY, steps, row.serial, Failure(reason))
  {
    EmptyIsFine(cfg);
    RunFollows(cfg, EMPTY, steps, id);
    var serial := After(cfg, EMPTY, steps).registry[id].serial;
    forall o
      ensures Ended(cfg, EMPTY, steps, serial, o) <==> LastEnd(cfg, EMPTY, steps, serial) == Some(o)
    {
      EndsOnce(cfg, EMPTY, steps, serial, o);
    }
  }

  // ---- A row stays, and counts the calls ----

  /** A row is there until its episode is retired, and is the same request's until a newer one is submitted. */
  lemma RowStays(cfg: Config, st: State, step: Step, id: nat)
    requires Inv(cfg, st) && Enabled(cfg, st, step) && id in st.registry && id in Next(cfg, st, step).active
    ensures var post := Next(cfg, st, step);
            id in post.registry
            && post.registry[id].serial
               == if Submits(cfg, st, step, id) then st.stats.submitted else st.registry[id].serial
  {
    match step
    case RetireStep(active) => RetireStays(cfg, st, active, id);
    case RequestStep(f) => RequestStays(cfg, st, f, id);
    case StartStep => StartStays(cfg, st, id);
    case FinishStep(slot, outcome) => FinishStays(cfg, st, slot, outcome, id);
  }

  lemma RetireStays(cfg: Config, st: State, active: set<nat>, id: nat)
    requires Inv(cfg, st) && id in st.registry && id in active
    ensures id in Retire(st, active).registry && Retire(st, active).registry[id] == st.registry[id]
  {
    RetireShape(st, active);
  }

  lemma RequestStays(cfg: Config, st: State, f: Facts, id: nat)
    requires id in st.registry
    ensures var post := Request(cfg, st, f);
            id in post.registry
            && post.registry[id].serial
               == if Submits(cfg, st, RequestStep(f), id) then st.stats.submitted else st.registry[id].serial
  {
  }

  lemma StartStays(cfg: Config, st: State, id: nat)
    requires Inv(cfg, st) && st.queue != [] && id in st.registry
    ensures id in Start(st).registry && Start(st).registry[id].serial == st.registry[id].serial
  {
    StartShows(st);
    assert IsLive(st, st.queue[0]) ==> Shows(st, st.queue[0], Queued);
  }

  lemma FinishStays(cfg: Config, st: State, slot: nat, outcome: Outcome, id: nat)
    requires Inv(cfg, st) && slot < |st.running| && id in st.registry
    ensures var post := Finish(st, slot, outcome);
            id in post.registry && post.registry[id].serial == st.registry[id].serial
  {
    FinishShows(st, slot, outcome);
    assert IsLive(st, st.running[slot]) ==> Shows(st, st.running[slot], Running);
  }

  /** A submission shows at once. */
  lemma SubmissionShows(cfg: Config, st: State, step: Step, id: nat)
    requires Enabled(cfg, st, step) && Submits(cfg, st, step, id)
    ensures var post := Next(cfg, st, step);
            && id in post.registry && post.registry[id].status == Queued
            && post.registry[id].serial == st.stats.submitted
            && post.queue
               == st.queue + [Work(st.stats.submitted, id, post.registry[id].generation, step.facts.priority)]
  {
  }

  ghost predicate RowsCount(st: State) {
    forall id :: id in st.registry ==> st.registry[id].modelCalls == Get(st.calls, id)
  }

  lemma RetireCounts(cfg: Config, st: State, active: set<nat>)
    requires Inv(cfg, st) && RowsCount(st)
    ensures RowsCount(Retire(st, active))
  {
    RetireShape(st, active);
  }

  lemma StartCounts(cfg: Config, st: State)
    requires Inv(cfg, st) && RowsCount(st) && st.queue != []
    ensures RowsCount(Start(st))
  {
    StartShows(st);
    StartKeepsCalls(st);
  }

  lemma FinishCounts(cfg: Config, st: State, slot: nat, outcome: Outcome)
    requires Inv(cfg, st) && RowsCount(st) && slot < |st.running|
    ensures RowsCount(Finish(st, slot, outcome))
  {
    FinishShows(st, slot, outcome);
    FinishKeepsCalls(st, slot, outcome);
  }

  lemma StepCountsRows(cfg: Config, st: State, step: Step)
    requires Inv(cfg, st) && Enabled(cfg, st, step) && RowsCount(st)
    ensures RowsCount(Next(cfg, st, step))
  {
    match step
    case RetireStep(active) => RetireCounts(cfg, st, active);
    case RequestStep(_) =>
    case StartStep => StartCounts(cfg, st);
    case FinishStep(slot, outcome) => FinishCounts(cfg, st, slot, outcome);
  }

  /** In every reachable state a row shows as many calls as its episode was submitted since it is remembered. */
  lemma {:induction false} RunCountsRows(cfg: Config, st: State, steps: seq<Step>)
    requires cfg.Valid() && Inv(cfg, st) && RowsCount(st) && IsRun(cfg, st, steps)
    ensures RowsCount(After(cfg, st, steps))
    decreases steps
  {
    if steps != [] {
      StepKeeps(cfg, st, steps[0]);
      StepCountsRows(cfg, st, steps[0]);
      RunCountsRows(cfg, Next(cfg, st, steps[0]), steps[1..]);
    }
  }

  // ---- The counters count ----

  function Plus(a: Stats, b: Stats): Stats {
    Stats(a.submitted + b.submitted, a.dropped + b.dropped, a.suppressed + b.suppressed, a.modelCalls + b.modelCalls,
          a.stale + b.stale, a.enriched + b.enriched, a.fallbacks + b.fallbacks, a.fallbacksStored + b.fallbacksStored)
  }

  const NOTHING := Stats(0, 0, 0, 0, 0, 0, 0, 0)

  /** A request is submitted, dropped at a full queue, or not wanted. */
  function CountRequest(wanted: bool, full: bool): Stats {
    if !wanted then NOTHING.(suppressed := 1) else if full then NOTHING.(dropped := 1) else NOTHING.(submitted := 1)
  }

  /** Work taken from the queue is a provider call, or discarded. */
  function CountStart(live: bool): Stats {
    if live then NOTHING.(modelCalls := 1) else NOTHING.(stale := 1)
  }

  /** A call ends in one of these ways; what nobody waits for any more is stale, a failure is a fallback anyway. */
  function CountFinish(live: bool, outcome: Outcome): Stats {
    var failed := if outcome.Failure? then 1 else 0;
    if !live || outcome.Cancelled? then NOTHING.(stale := 1, fallbacks := failed)
    else if outcome.Success? then NOTHING.(enriched := 1)
    else NOTHING.(fallbacks := failed, fallbacksStored := 1)
  }

  function CountStep(cfg: Config, st: State, step: Step): Stats
    requires Enabled(cfg, st, step)
  {
    match step
    case RetireStep(_) => NOTHING
    case RequestStep(f) => CountRequest(Requested(cfg, st, f), Full(cfg, st))
    case StartStep => CountStart(IsLive(st, st.queue[0]))
    case FinishStep(slot, outcome) => CountFinish(IsLive(st, st.running[slot]), outcome)
  }

  /** What a run adds to the counters, step by step. */
  function Tally(cfg: Config, st: State, steps: seq<Step>): Stats
    requires IsRun(cfg, st, steps)
    decreases steps
  {
    if steps == [] then NOTHING
    else Plus(CountStep(cfg, st, steps[0]), Tally(cfg, Next(cfg, st, steps[0]), steps[1..]))
  }

  lemma RequestStats(cfg: Config, st: State, f: Facts)
    ensures Request(cfg, st, f).stats == Plus(st.stats, CountRequest(Requested(cfg, st, f), Full(cfg, st)))
  {
  }

  lemma StartStats(st: State)
    requires st.queue != []
    ensures Start(st).stats == Plus(st.stats, CountStart(IsLive(st, st.queue[0])))
  {
  }

  lemma FinishStats(st: State, slot: nat, outcome: Outcome)
    requires slot < |st.running|
    ensures Finish(st, slot, outcome).stats == Plus(st.stats, CountFinish(IsLive(st, st.running[slot]), outcome))
  {
  }

  lemma StepStats(cfg: Config, st: State, step: Step)
    requires Enabled(cfg, st, step)
    ensures Next(cfg, st, step).stats == Plus(st.stats, CountStep(cfg, st, step))
  {
    match step
    case RetireStep(_) =>
    case RequestStep(f) => RequestStats(cfg, st, f);
    case StartStep => StartStats(st);
    case FinishStep(slot, outcome) => FinishStats(st, slot, outcome);
  }

  lemma PlusAssoc(a: Stats, b: Stats, c: Stats)
    ensures Plus(Plus(a, b), c) == Plus(a, Plus(b, c)) && Plus(a, NOTHING) == a
  {
  }

  /** The counters are the tally of the run. */
  lemma {:induction false} StatsAreTally(cfg: Config, st: State, steps: seq<Step>)
    requires IsRun(cfg, st, steps)
    ensures After(cfg, st, steps).stats == Plus(st.stats, Tally(cfg, st, steps))
    decreases steps
  {
    if steps == [] {
      PlusAssoc(st.stats, NOTHING, NOTHING);
    } else {
      var mid := Next(cfg, st, steps[0]);
      StepStats(cfg, st, steps[0]);
      StatsAreTally(cfg, mid, steps[1..]);
      PlusAssoc(st.stats, CountStep(cfg, st, steps[0]), Tally(cfg, mid, steps[1..]));
    }
  }
}
