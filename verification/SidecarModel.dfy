/** The intelligence sidecar as a transition system (intelligence/coordinator.py). A step is the code between two
    awaits: retiring at the start of a tick, one routing request of a tick, a worker taking a work item, a worker
    finishing one. The class in Coordinator.dfy is proved to take exactly these steps. */
module SidecarModel {
  import opened Common
  import opened Domain
  import opened Router

  /** A queued model request. The serial number identifies the request object itself. */
  datatype Work = Work(serial: nat, id: nat, generation: nat, priority: Priority)

  datatype Status = Queued | Running | Enriched | Fallback

  /** What the registry shows for an episode, tagged with the request that wrote it. */
  datatype Row = Row(serial: nat, generation: nat, status: Status, reason: Reason, modelCalls: nat)

  datatype Stats = Stats(
    submitted: nat,
    dropped: nat,
    suppressed: nat,
    modelCalls: nat,
    stale: nat,
    enriched: nat,
    fallbacks: nat,
    fallbacksStored: nat)

  datatype State = State(
    active: set<nat>,
    calls: map<nat, nat>,
    lastPriority: map<nat, Priority>,
    generation: map<nat, nat>,
    pending: map<nat, nat>,
    registry: map<nat, Row>,
    queue: seq<Work>,
    running: seq<Work>,
    stats: Stats)

  const EMPTY := State({}, map[], map[], map[], map[], map[], [], [], Stats(0, 0, 0, 0, 0, 0, 0, 0))

  /** A queue size of zero or less means an unbounded queue. */
  datatype Config = Config(queueSize: int, concurrency: nat, policy: Policy, budget: Budget) {
    predicate Valid() {
      concurrency >= 1
    }
  }

  function Get(m: map<nat, nat>, id: nat): nat {
    if id in m then m[id] else 0
  }

  function LastOf(st: State, id: nat): Option<Priority> {
    if id in st.lastPriority then Some(st.lastPriority[id]) else None
  }

  predicate IsLive(st: State, w: Work) {
    && w.id in st.active
    && w.id in st.generation
    && st.generation[w.id] == w.generation
  }

  function Outstanding(st: State): seq<Work> {
    st.running + st.queue
  }

  // ---- Forgetting ----

  function Forget(st: State, ids: set<nat>): State {
    st.(calls := st.calls - ids,
        lastPriority := st.lastPriority - ids,
        generation := st.generation - ids,
        pending := st.pending - ids)
  }

  function MaybeForget(st: State, id: nat): State {
    if id in st.active || Get(st.pending, id) > 0 then st else Forget(st, {id})
  }

  function ReleasePending(st: State, id: nat): State {
    MaybeForget(
      if Get(st.pending, id) <= 1 then st.(pending := st.pending - {id})
      else st.(pending := st.pending[id := st.pending[id] - 1]),
      id)
  }

  // ---- Retiring ----

  function Tracked(st: State): set<nat> {
    st.calls.Keys + st.generation.Keys + st.lastPriority.Keys + st.pending.Keys
  }

  function Gone(st: State, active: set<nat>): set<nat> {
    (Tracked(st) + st.registry.Keys) - active
  }

  function Invalidate(st: State, id: nat): State {
    MaybeForget(
      st.(generation := st.generation[id := Get(st.generation, id) + 1],
          registry := st.registry - {id}),
      id)
  }

  function ActiveRows(registry: map<nat, Row>, active: set<nat>): map<nat, Row> {
    map i | i in registry && i in active :: registry[i]
  }

  /** Everything tracked but no longer active is invalidated at once; what has nothing outstanding is forgotten. */
  function Retire(st: State, active: set<nat>): State {
    var pruned := ActiveRows(st.registry, active);
    var gone := Gone(st.(registry := pruned), active);
    var idle := set i | i in gone && Get(st.pending, i) == 0;
    Forget(
      st.(active := active,
          registry := pruned,
          generation := st.generation + map i | i in gone :: Get(st.generation, i) + 1),
      idle)
  }

  // ---- Requests ----

  /** What a tick reports about one signal. */
  datatype Facts = Facts(
    id: nat,
    priority: Priority,
    eventTypes: set<string>,
    change1m: Option<real>,
    change5m: Option<real>,
    volumeRatio5m: Option<real>,
    feed: FeedStatus,
    alertEdge: bool)

  function InputOf(st: State, f: Facts): Input {
    Input(f.id, f.priority, f.eventTypes, f.change1m, f.change5m, f.volumeRatio5m, f.feed, f.alertEdge,
          Get(st.calls, f.id), LastOf(st, f.id), f.id !in st.active)
  }

  predicate Requested(cfg: Config, st: State, f: Facts) {
    NeedIntelligence(InputOf(st, f), cfg.policy, cfg.budget).requested
  }

  predicate Full(cfg: Config, st: State) {
    cfg.queueSize > 0 && |st.queue| >= cfg.queueSize
  }

  function NewWork(st: State, id: nat, priority: Priority): Work {
    Work(st.stats.submitted, id, Get(st.generation, id) + 1, priority)
  }

  function Enqueue(cfg: Config, st: State, id: nat, priority: Priority): State {
    if Full(cfg, st) then st.(stats := st.stats.(dropped := st.stats.dropped + 1))
    else
      var w := NewWork(st, id, priority);
      st.(queue := st.queue + [w],
          generation := st.generation[id := w.generation],
          calls := st.calls[id := Get(st.calls, id) + 1],
          lastPriority := st.lastPriority[id := priority],
          pending := st.pending[id := Get(st.pending, id) + 1],
          stats := st.stats.(submitted := st.stats.submitted + 1),
          registry := st.registry[id := Row(w.serial, w.generation, Queued, NoReason, Get(st.calls, id) + 1)])
  }

  function Request(cfg: Config, st: State, f: Facts): State {
    if Requested(cfg, st, f) then Enqueue(cfg, st, f.id, f.priority)
    else st.(stats := st.stats.(suppressed := st.stats.suppressed + 1))
  }

  // ---- Workers ----

  /** The registry takes a result only from live work. */
  function Store(st: State, w: Work, status: Status, reason: Reason): State {
    if IsLive(st, w) then
      st.(registry := st.registry[w.id := Row(w.serial, w.generation, status, reason, Get(st.calls, w.id))])
    else st
  }

  function Start(st: State): State
    requires st.queue != []
  {
    var w := st.queue[0];
    var taken := st.(queue := st.queue[1..]);
    if IsLive(st, w) then
      Store(taken.(running := taken.running + [w], stats := taken.stats.(modelCalls := taken.stats.modelCalls + 1)),
            w, Running, NoReason)
    else
      ReleasePending(taken.(stats := taken.stats.(stale := taken.stats.stale + 1)), w.id)
  }

  datatype Outcome = Success | Failure(reason: Reason) | Cancelled

  function Settle(st: State, w: Work, outcome: Outcome): State {
    match outcome
    case Success =>
      if IsLive(st, w) then
        Store(st.(stats := st.stats.(enriched := st.stats.enriched + 1)), w, Enriched, NoReason)
      else st.(stats := st.stats.(stale := st.stats.stale + 1))
    case Failure(reason) =>
      var counted := st.(stats := st.stats.(fallbacks := st.stats.fallbacks + 1));
      if IsLive(st, w) then
        Store(counted.(stats := counted.stats.(fallbacksStored := counted.stats.fallbacksStored + 1)), w, Fallback,
              reason)
      else counted.(stats := counted.stats.(stale := counted.stats.stale + 1))
    case Cancelled =>
      st.(stats := st.stats.(stale := st.stats.stale + 1))
  }

  function Finish(st: State, slot: nat, outcome: Outcome): State
    requires slot < |st.running|
  {
    var w := st.running[slot];
    ReleasePending(
      Settle(st.(running := st.running[..slot] + st.running[slot + 1..]), w, outcome),
      w.id)
  }

  // ---- Steps and runs ----

  datatype Step =
    | RetireStep(active: set<nat>)
    | RequestStep(facts: Facts)
    | StartStep
    | FinishStep(slot: nat, outcome: Outcome)

  predicate Enabled(cfg: Config, st: State, step: Step) {
    match step
    case RetireStep(_) => true
    case RequestStep(_) => true
    case StartStep => st.queue != [] && |st.running| < cfg.concurrency
    case FinishStep(slot, _) => slot < |st.running|
  }

  function Next(cfg: Config, st: State, step: Step): State
    requires Enabled(cfg, st, step)
  {
    match step
    case RetireStep(active) => Retire(st, active)
    case RequestStep(facts) => Request(cfg, st, facts)
    case StartStep => Start(st)
    case FinishStep(slot, outcome) => Finish(st, slot, outcome)
  }

  /** A run: any interleaving of enabled steps. */
  ghost predicate IsRun(cfg: Config, st: State, steps: seq<Step>)
    decreases steps
  {
    steps == [] || (Enabled(cfg, st, steps[0]) && IsRun(cfg, Next(cfg, st, steps[0]), steps[1..]))
  }

  function After(cfg: Config, st: State, steps: seq<Step>): State
    requires IsRun(cfg, st, steps)
    decreases steps
  {
    if steps == [] then st else After(cfg, Next(cfg, st, steps[0]), steps[1..])
  }
}
