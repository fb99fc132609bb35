# MarketSentinel: a verified model of its deterministic core

MarketSentinel watches quotes, turns them into market events, composes the events into signal episodes, asks a language
model about a few of them, writes a telemetry log and talks to an editor extension. Around its I/O sits a core of small
state machines. This project models that core in Dafny and proves what the machines guarantee over whole runs.

Code that works in place is a class or a method with loops, proved to compute a function of the old state; the
properties are lemmas about those functions, over every input or every run.

| part | files |
|---|---|
| Signal episodes: partition, composer, dedupe, cooldown, pipeline | `Cluster`, `ComposerModel`, `ComposerInvariant`, `ComposerBatch`, `ComposerSymbol`, `ComposerFresh`, `ComposerTheorems`, `ComposerSymbols`, `ComposerRuns`, `ComposerSlots`, `ComposerSharing`, `ComposerHistory`, `ComposerMembers`, `ComposerOrder`, `ComposerSignals`, `ComposerStories`, `SignalComposer`, `Dedupe`, `Cooldown`, `PipelineAlerts`, `SignalPipeline` |
| Intelligence sidecar: ticks and workers as atomic steps | `Router`, `SidecarModel`, `SidecarInvariant`, `SidecarRuns`, `SidecarBudget`, `SidecarOutcomes`, `EngineTicks`, `Coordinator` |
| Crash-safe rotated log, down to bytes | `Jsonl`, `TextCodec`, `RotatedLog`, `RotationBounds`, `RotationMarks`, `TelemetrySink` |
| Bounded time index, session calendar, bars, indicators | `Market`, `RingBuffer`, `Session`, `Aligned`, `TimeSort`, `OrderedKeys`, `Bars`, `Ratios`, `Indicators`, `Averages` |
| Polling scheduler | `SchedulerModel`, `Scheduler` |
| Host wire client | `JsonlDecoder`, `IpcModel`, `IpcOutcomes`, `IpcClient` |
| Shared vocabulary | `Common`, `Domain` |

`dafny verify dfyconfig.toml` checks everything.

Modelling choices:

- Event ids are integers: only their equality and order are used. Episode ids come from a counter, so they are fresh by
  construction. A signal carries its member events instead of their ids.
- Market time is `real` in the signal modules; in the market-data modules it is an `int` count of microseconds, the
  resolution of Python's `datetime`. Prices, volumes and closes are `real`: floating-point rounding is not modelled.
- Clocks are parameters, one reading each time the source reads one: `set_level` takes two, a composer call takes one
  for each identity it creates, a pipeline tick one for each question put to the gate.
- A sidecar step is the code between two awaits. Model outcomes (success, failure, cancelled) are chosen freely, and a
  routing request may arrive at any time, so runs include every real interleaving and more. Works carry a serial number
  and registry rows the serial of the work that wrote them; two counters (`enriched`, `fallbacksStored`) are added so
  that conservation can be stated. A queue size of zero or less is an unbounded queue, as in `asyncio.Queue`.
- A log file is a sequence of bytes. What the log needs from JSON is the predicate `Jsonl.Lawful`; `TextCodec` proves it
  of a concrete grammar with escapes. Directory states, cut points and interrupted rotations are arbitrary.

Where the code and its documentation disagree, the model follows the code:

- `signals/cluster.py:97-102` says NONE events are never duplicated, so that an event belongs to at most one active
  signal. In every reachable state that is so for upward and downward events (`ComposerSharing.DirectionalNeverShared`),
  and within one batch for all events (`ComposerTheorems.AnyBatch`). Over several batches it fails for NONE events, in
  two ways: `ComposerStories.OneEventTwoEpisodes` ends with one event in the upward and in the NONE episode,
  `ComposerStories.OneEventBothDirections` with one event in the upward and in the downward episode (under the default
  look-back, `ComposerStories.SharedIsReachable`), because taking over
  the NONE identity rehomes every event that episode lists, even one already drawn into a live episode.
  `ComposerSlots.BatchLeaves` says for every batch which slots hold an event afterwards, and
  `ComposerSharing.SharedExactly` when an event is then in two (over runs, `ComposerHistory.RunShares`); both conditions are read off the state before anything
  is composed. In the common case, a batch of one direction while the NONE episode lists an event, it is shared exactly
  when that direction's episode was already active (`ComposerSharing.PulledIsShared`).
- The documentation promises one model call per `signal.id`. The code counts calls for as long as it remembers the id,
  and forgets an id exactly when it is inactive and has no work queued or running (`SidecarRuns.StepRemembers`). For a
  given sequence of ticks the promise holds in every run exactly when no tick lists the id again after listing and
  dropping it (`SidecarBudget.PromiseKeptExactly`); otherwise some run with these ticks submits the id once more than
  the budget grants (`SidecarBudget.ReturningIdIsCalledAgain`). The composer never reuses an id
  (`ComposerRuns.IdNeverReturns`), so with the engine's ticks the promise holds exactly when no symbol leaves the
  watchlist and comes back while its market state still shows the id (`EngineTicks.ComposedIdsKeepPromiseExactly`); a
  symbol taken off the watchlist for one tick breaks it (`EngineTicks.RewatchedIsCalledAgain`).
- Produced signals stay active to the end of a batch of one symbol, which is what the pipeline submits. In a batch of
  several symbols they do exactly when every later symbol's clock leaves them within the look-back
  (`ComposerTheorems.StillActive`), because pruning applies the current symbol's clock to all symbols. Events that all
  lie within one look-back meet that (`ComposerHistory.NewBatchStaysActive`); two that do not lose a signal
  (`ComposerSymbols.OldSymbolIsLost`).
- A file of the telemetry log is meant to stay below `max_bytes` but for its last record. That holds without crashes
  (`RotationBounds.RunSized`). A crash that leaves a full file in place lets the next write add a record:
  `RotationMarks.CrashOverruns` is such a run. `RotationMarks.RunExactly` says for every run which files keep the bound:
  exactly those no crash left full; `RotationMarks.RunMarked` bounds the others, one record more for each such crash.

## Model

| member | source | states |
|---|---|---|
| Cluster.PartitionIsExact | src/market_sentinel/signals/cluster.py:57-94 | every event goes to the episode of its direction, NONE events to the NONE target's, with its multiplicity, and to no other |
| Cluster.PartitionIsWellFormed | src/market_sentinel/signals/cluster.py:57-94 | episodes are non-empty, sorted by (time, id), of distinct directions, the NONE episode last |
| Cluster.NoneTargetMeaning | src/market_sentinel/signals/cluster.py:97-124 | a direction is the home of NONE events exactly when it is the batch's only one, or the batch has none and it is the only one seen or live |
| Cluster.SortIsOrdered | src/market_sentinel/signals/cluster.py:57-94 | sorting orders by (time, id) and keeps the elements |
| ComposerInvariant.PruneActiveKeeps | src/market_sentinel/signals/composer.py:230-238 | pruning keeps the invariant, leaves only episodes within the look-back and moves no identity |
| ComposerInvariant.EvolvesTransitive | src/market_sentinel/signals/composer.py:207-228 | inheriting an identity (same slot, or from the NONE slot) composes over any number of steps |
| ComposerSymbol.ConsumeSymbolKeeps | src/market_sentinel/signals/composer.py:78-124 | one symbol's batch keeps distinct ids, matching traces and members that belong to their slot |
| ComposerSymbol.OtherSymbolsOnlyAge | src/market_sentinel/signals/composer.py:230-238 | a batch touches another symbol's episode only by pruning it at the batch's clock |
| ComposerTheorems.AnyBatch | src/market_sentinel/signals/composer.py:63-124 | any batch at all: invariant kept, ids of produced signals distinct, no event in two of them |
| ComposerHistory.ReachableIsFrom | src/market_sentinel/signals/composer.py:63-245 | after any run every accepted event, member and home comes from an event of the run |
| ComposerHistory.NewEventOnce | src/market_sentinel/signals/composer.py:63-155 | after any run, an event of a batch with new, pairwise different ids is in exactly one produced signal, once, if and only if it is within its symbol's look-back |
| ComposerTheorems.StillActive | src/market_sentinel/signals/composer.py:63-124 | a produced signal is active after the batch exactly when it outlives the clock of every later symbol |
| ComposerHistory.NewBatchStaysActive | src/market_sentinel/signals/composer.py:63-124 | after any run, a batch of new events of any symbols within one look-back leaves every produced signal active |
| ComposerSymbols.OldSymbolIsLost | src/market_sentinel/signals/composer.py:63-124 | two events of different symbols further apart than the look-back: the first one's signal is produced and not active afterwards |
| ComposerTheorems.OneSymbolStaysActive | src/market_sentinel/signals/composer.py:78-124 | a one-symbol batch leaves all its signals active |
| ComposerHistory.ConsumeNeverFails | src/market_sentinel/signals/composer.py:56-61 | after any run, consuming one event with a new id finds its signal exactly when the look-back is not negative |
| ComposerRuns.ReachableIsFine | src/market_sentinel/signals/composer.py:36-245 | every reachable state has distinct ids, one matching trace per active id and none else, members of the slot's symbol, lineage and direction or NONE |
| ComposerRuns.BatchIsRun | src/market_sentinel/signals/composer.py:63-76 | a multi-symbol batch is the run of its symbols' batches |
| ComposerRuns.IdNeverReturns | src/market_sentinel/signals/composer.py:207-228 | an id that left the active set is never active again, over any run |
| ComposerRuns.IdMovesOnlyFromNone | src/market_sentinel/signals/composer.py:207-228 | an id keeps its creation time and its slot, unless it moves from NONE to a direction of the same symbol and lineage |
| ComposerRuns.IdMovesAtMostOnce | src/market_sentinel/signals/composer.py:207-228 | over any run an id changes its slot at most once |
| ComposerRuns.IdentitySurvivesStep | src/market_sentinel/signals/composer.py:207-245 | a call keeps an episode's identity exactly when its newest event is within the look-back of the call's clock |
| ComposerRuns.IdentitySurvivesRun | src/market_sentinel/signals/composer.py:207-245 | an active id is still active after a run exactly when no call's clock leaves its episode behind the look-back |
| ComposerRuns.SlotSurvivesStep | src/market_sentinel/signals/composer.py:207-245 | a directional slot keeps its id and creation time over a call exactly when its newest event is within the look-back of the call's clock |
| ComposerRuns.SlotSurvivesRun | src/market_sentinel/signals/composer.py:207-245 | a directional slot still holds the same id after a run exactly when every call found it within the look-back |
| ComposerSlots.ComposedSlots | src/market_sentinel/signals/composer.py:157-228 | composing changes who lists an event in its own slot, and in the NONE slot exactly when it takes over the identity; nowhere else |
| ComposerSlots.BatchLeaves | src/market_sentinel/signals/composer.py:78-228 | after a symbol's batch an event is in a slot exactly when the batch composes it anew there, or it was there and the slot is neither composed anew nor taken over |
| ComposerSharing.DirectionalNeverShared | src/market_sentinel/signals/cluster.py:97-102 | in every reachable state an upward or downward event is in at most one active episode |
| ComposerSharing.SharedExactly | src/market_sentinel/signals/composer.py:78-228 | after a batch an event is in two active episodes exactly when it joins one and stays in another, or stays in two |
| ComposerHistory.RunLeaves | src/market_sentinel/signals/composer.py:78-228 | the same slots after any run in which an id stands for one event |
| ComposerHistory.RunShares | src/market_sentinel/signals/composer.py:78-228 | when a batch after any such run leaves an event in two active episodes |
| ComposerMembers.DirectionalMembers | src/market_sentinel/signals/composer.py:78-155 | a batch that composes an upward or downward slot leaves in it, of the events with a direction, exactly those of its lineage and direction within the look-back, earlier batches included |
| ComposerMembers.UndirectedMembers | src/market_sentinel/signals/composer.py:126-155 | its NONE events are exactly those within the look-back that belong there: of the batch and not at home elsewhere, or earlier and at home in the slot or in the NONE slot |
| ComposerMembers.TargetMeaning | src/market_sentinel/signals/cluster.py:97-124 | NONE events of a lineage go up (down) exactly when the batch has only that direction, or neither and only that one is held or active |
| ComposerMembers.ComposesExactly | src/market_sentinel/signals/composer.py:105-124 | a slot is composed exactly when an event of the batch within the look-back has its direction, or is a NONE event not at home elsewhere and the slot is the NONE target's |
| ComposerMembers.AcceptedIsHeld | src/market_sentinel/signals/composer.py:85-90 | after any run a symbol's look-back holds exactly the events some call brought and no later clock of the symbol left behind |
| ComposerMembers.SlotHolds | src/market_sentinel/signals/composer.py:78-155 | after any run the events with a direction in an active upward or downward slot are exactly those of its symbol, lineage and direction that the look-back held when the slot was last composed |
| ComposerOrder.SymbolInOrder | src/market_sentinel/signals/composer.py:78-124 | a symbol's signals are produced tape before vwap, up before down before undirected |
| ComposerOrder.SymbolsAsTheyAppear | src/market_sentinel/signals/composer.py:63-76 | a batch's symbols are taken in the order in which they first appear |
| ComposerSlots.ComposedHomes | src/market_sentinel/signals/composer.py:188-228 | composing brings its members, and those of a NONE episode it takes over, home to its slot and moves no other event |
| ComposerSlots.PrunedHomes | src/market_sentinel/signals/composer.py:230-238 | pruning takes an event's home exactly when it is an expiring episode that lists the event |
| ComposerSignals.FamilyMeaning | src/market_sentinel/signals/cluster.py:127-143 | which kinds of events make which family |
| ComposerSignals.SeverityMeaning | src/market_sentinel/signals/copy.py:21-28 | priority as a number is the severity less one, between 1 and 4 |
| ComposerSignals.PriorityMeaning | src/market_sentinel/signals/copy.py:31-46 | the priority is the highest one the events call for: by severity, importance for price and volume together, a notice for volume alone |
| ComposerSignals.StepShows | src/market_sentinel/signals/composer.py:207-228 | an identity handed out in a call is created at the clock's reading for it |
| ComposerSignals.SignalMeaning | src/market_sentinel/signals/composer.py:157-205 | in every reachable state a signal has the family and priority of its members and the times of the newest, and its trace names the same members with their rules |
| ComposerSharing.ChosenByHome | src/market_sentinel/signals/composer.py:126-155 | a held NONE event takes part exactly when its home is the NONE target's slot, or the NONE slot while the target has a direction |
| ComposerSharing.PulledIsShared | src/market_sentinel/signals/composer.py:126-228 | a batch of one direction draws a NONE event at home in the NONE episode; it stays there too exactly when the direction's episode was active |
| ComposerStories.OneEventTwoEpisodes | src/market_sentinel/signals/composer.py:126-228 | four calls from the empty composer that leave one event in the upward and in the NONE episode |
| ComposerStories.OneEventBothDirections | src/market_sentinel/signals/composer.py:207-228 | two calls later it is in the upward and in the downward episode, and no NONE episode is left |
| ComposerStories.SomeCast | src/market_sentinel/signals/cluster.py:8 | events for those calls exist under the default look-back of 90 seconds |
| ComposerStories.SharedIsReachable | src/market_sentinel/signals/composer.py:126-228 | under the default look-back some run of calls with distinct ids leaves one event in the upward and in the downward episode |
| SignalComposer.Composer.TraceFor | src/market_sentinel/signals/composer.py:53-54 | looking up the trace of an active id never misses and yields that episode's trace |
| SignalComposer.Composer.UpdatesAreTraced | src/market_sentinel/signals/composer.py:44-54 | every active signal of a symbol has its own trace |
| SignalComposer.Composer.PruneActiveAt | src/market_sentinel/signals/composer.py:230-238 | the pruning loops remove the expired episodes, their traces and the homes that still point at them |
| SignalComposer.Composer.ResolveSlot | src/market_sentinel/signals/composer.py:207-228 | keeps, takes over or creates an identity, as the specification says |
| SignalComposer.Composer.Compose | src/market_sentinel/signals/composer.py:157-205 | one composition, all four maps included |
| SignalComposer.Composer.SelectEvents | src/market_sentinel/signals/composer.py:126-155 | the look-back events that take part, chosen by their home |
| SignalComposer.Composer.ConsumeForSymbol | src/market_sentinel/signals/composer.py:78-124 | one symbol's batch: state and produced signals are the specification's |
| SignalComposer.Composer.ConsumeAll | src/market_sentinel/signals/composer.py:63-76 | a batch, grouped by symbol in order of first appearance; invariant, distinct ids and disjoint members |
| SignalComposer.Composer.ConsumeOneEvent | src/market_sentinel/signals/composer.py:56-61 | returns a signal holding the event; never fails on an id the composer was not given before, with a look-back of at least zero |
| SignalComposer.Composer.PruneQuiet | src/market_sentinel/signals/composer.py:240-245 | a quiet tick only ages the symbol's events and all episodes |
| Dedupe.EventDeduper.Accept | src/market_sentinel/signals/dedupe.py:26-47 | the branches on key, time and severity decide as the specification says |
| Dedupe.AdmittedMeaning | src/market_sentinel/signals/dedupe.py:26-47 | after any run an event is kept exactly when its key's last kept event is neither newer nor, within its TTL, at least as severe |
| Dedupe.KeptNeverRepeat | src/market_sentinel/signals/dedupe.py:26-47 | kept events of a key never go back in time and rise strictly in severity inside any window no longer than their TTLs |
| Dedupe.AtMostFiveInWindow | src/market_sentinel/signals/dedupe.py:26-47 | hence at most five per window |
| Cooldown.CooldownGate.Allow | src/market_sentinel/signals/cooldown.py:29-42 | the gate decides and stamps as the specification says |
| Cooldown.AllowedMeaning | src/market_sentinel/signals/cooldown.py:29-42 | an alert is refused exactly when the id's last alert is closer than the cooldown and at least as urgent |
| Cooldown.AlertsRise | src/market_sentinel/signals/cooldown.py:29-42 | alerts of an id closer than the cooldown rise strictly in priority |
| Cooldown.AtMostFourInWindow | src/market_sentinel/signals/cooldown.py:29-42 | hence at most four per window |
| PipelineAlerts.AllAlertedAnswers | src/market_sentinel/signals/pipeline.py:70-81 | the alerts of a run of ticks are the gate's positive answers to the run's questions |
| PipelineAlerts.RunAlertsFew | src/market_sentinel/signals/cooldown.py:29-42 | over any run of ticks, alerts of one episode closer than the cooldown rise strictly in priority and are at most four |
| SignalPipeline.Pipeline.Process | src/market_sentinel/signals/pipeline.py:45-87 | one tick: what is kept, composed and alerted, the gate asked with a clock reading for each signal; traces match updates; produced signals and alerts are among the updates |
| SignalPipeline.Pipeline.GateAlerts | src/market_sentinel/signals/pipeline.py:70-81 | the same-tick-duplicate branch is never taken |
| Router.GrantedIsUnderCap | src/market_sentinel/intelligence/contract.py:94-109 | a granted call stays under the cap; one beyond max_calls is a single, strictly more urgent recall |
| Router.ReasonMeaning | src/market_sentinel/intelligence/router.py:60-86 | a request is granted exactly when nothing stands against it, and the reason given is the first of the six that does |
| Router.DefaultCandidates | src/market_sentinel/intelligence/router.py:26-53 | the default policy takes important and critical signals, and price and volume together with a breakout or a third kind of event |
| Router.CandidateRises | src/market_sentinel/intelligence/router.py:40-53 | a more urgent signal, or one with more kinds of events, is no less a candidate |
| Router.RecallMeaning | src/market_sentinel/intelligence/contract.py:88-109 | with recall exactly one call more than max_calls is allowed, for a priority above the last one |
| Router.DefaultBudgetMeaning | docs/architecture/intelligence-contract.md:55-58 | by default the first call is allowed and no second |
| SidecarInvariant.StepKeeps | src/market_sentinel/intelligence/coordinator.py:274-533 | every step keeps the invariant: pending counts, keys, generations, order, rows, budget, conservation, bounds |
| SidecarInvariant.OneLivePerEpisode | src/market_sentinel/intelligence/coordinator.py:298-301 | two live outstanding works of one episode are the same work |
| SidecarRuns.RunProgress | src/market_sentinel/intelligence/coordinator.py:298-533 | over any run no old work becomes live again, and a row belongs to a newer work or only moved forward: queued, running, enriched or fallback |
| SidecarOutcomes.FinishShows | src/market_sentinel/intelligence/coordinator.py:390-533 | a live success leaves the work's row enriched, a live failure leaves it a fallback with its reason, cancelled or stale work changes no row |
| SidecarOutcomes.RowsShowOutcomes | src/market_sentinel/intelligence/coordinator.py:390-533 | in every reachable state a row is enriched exactly when the run ended its work with a success while it was live, and a fallback with a reason exactly when with that failure |
| SidecarOutcomes.EndsOnce | src/market_sentinel/intelligence/coordinator.py:390-533 | a work ends live in one way at most |
| SidecarOutcomes.RowStays | src/market_sentinel/intelligence/coordinator.py:274-306 | a row stays until its episode is retired, and is the same request's until a newer one is submitted |
| SidecarOutcomes.SubmissionShows | src/market_sentinel/intelligence/coordinator.py:326-370 | a submission shows as queued at once and goes to the end of the queue with its priority |
| SidecarOutcomes.RunCountsRows | src/market_sentinel/intelligence/coordinator.py:326-370 | a row shows as many calls as its episode's counter |
| SidecarOutcomes.StatsAreTally | src/market_sentinel/intelligence/coordinator.py:170-533 | every diagnostics counter is the number of steps of its kind in the run |
| SidecarRuns.StaleNeverReturns | src/market_sentinel/intelligence/coordinator.py:287-306 | under every interleaving, work that stopped being live is never live again and no registry row is ever its |
| SidecarRuns.RetiredIsStale | src/market_sentinel/intelligence/coordinator.py:274-291 | retiring an episode makes all its outstanding work stale |
| SidecarRuns.SupersededIsStale | src/market_sentinel/intelligence/coordinator.py:326-370 | a new request makes the episode's earlier work stale |
| SidecarRuns.OneLiveAlways | src/market_sentinel/intelligence/coordinator.py:298-301 | in every reachable state at most one outstanding work per id is live |
| SidecarRuns.WorkIsConserved | src/market_sentinel/intelligence/coordinator.py:308-533 | in every reachable state submitted = queued + running + enriched + stored fallbacks + stale; provider calls never exceed submissions; pending counts the works; only active ids are shown |
| SidecarRuns.TrackedIsBounded | src/market_sentinel/intelligence/coordinator.py:115-118 | tracked episodes are at most active + queue size + concurrency |
| SidecarRuns.WorkersDrain | src/market_sentinel/intelligence/coordinator.py:308-324 | worker steps alone end after a bounded number; with nothing active and nothing outstanding nothing is tracked |
| SidecarRuns.WorkersCanMove | src/market_sentinel/intelligence/coordinator.py:372-388 | while work is outstanding some worker step is possible |
| SidecarRuns.CallsAreSubmissions | src/market_sentinel/intelligence/coordinator.py:326-370 | while an episode is remembered its counter is the number of requests submitted, so a dropped one costs nothing |
| SidecarRuns.BudgetHolds | src/market_sentinel/intelligence/coordinator.py:188-231 | between creation and forgetting of an id's entries at most max_calls works are submitted, one more with recall |
| SidecarRuns.ActiveIsRemembered | src/market_sentinel/intelligence/coordinator.py:316-324 | an id that every tick keeps active is remembered all along |
| SidecarRuns.RecallIsMoreUrgent | src/market_sentinel/intelligence/coordinator.py:188-231 | a request beyond max_calls is strictly above the last requested priority |
| SidecarRuns.StepRemembers | src/market_sentinel/intelligence/coordinator.py:316-324 | a step keeps an id's counters exactly when the id is active or has work queued or running afterwards |
| SidecarRuns.RememberedMeaning | src/market_sentinel/intelligence/coordinator.py:316-324 | a run remembers an id exactly when it never leaves it inactive and without work |
| SidecarRuns.ForgottenIsCalledAgain | src/market_sentinel/intelligence/coordinator.py:316-370 | from any state that has forgotten an id, a signal the router wants is submitted again |
| SidecarRuns.ForgettingRenewsBudget | src/market_sentinel/intelligence/coordinator.py:316-370 | any run from the start that ends with the id forgotten goes on to one more submission for it |
| SidecarBudget.NeverReadmittedStaysInBudget | src/market_sentinel/intelligence/coordinator.py:188-231 | in every run from the start whose ticks never take the id back it is submitted at most max_calls times, one more with recall |
| SidecarBudget.ReturningIdIsCalledAgain | src/market_sentinel/intelligence/coordinator.py:274-324 | ticks that take the id back have a run that submits it once more than that |
| SidecarBudget.PromiseKeptExactly | docs/architecture/intelligence-contract.md:55-58 | every run with given ticks stays within the budget of an id exactly when no tick takes the id back, or the budget grants nothing |
| EngineTicks.NeverShownAgain | src/market_sentinel/signals/composer.py:207-228 | an id a symbol's active signals no longer have never comes back to them |
| EngineTicks.TakenBackExactly | src/market_sentinel/runtime/engine.py:102-117 | a tick takes an id back exactly when its symbol left the watchlist and came back while its market state still shows the id |
| EngineTicks.ComposedIdsKeepPromiseExactly | src/market_sentinel/runtime/engine.py:102-117 | with the composer's ids every run stays within the budget exactly when that never happens, or the budget grants nothing |
| EngineTicks.OneCallPerId | docs/architecture/intelligence-contract.md:55-58 | while no symbol rejoins the watchlist every id is submitted at most max_calls times, one more with recall; once by default |
| EngineTicks.RewatchedIsCalledAgain | src/market_sentinel/runtime/engine.py:102-117 | for any id a symbol shows, one tick without the symbol on the watchlist lets some run exceed the budget |
| Coordinator.TickIsRun | src/market_sentinel/intelligence/coordinator.py:170-236 | a tick is a run of the transition system: one retirement and its requests |
| Coordinator.TickReports | src/market_sentinel/intelligence/coordinator.py:188-210 | a tick asks for exactly the reported signals with a trace, with what the row and the trace say of them |
| Coordinator.RowInOrder | src/market_sentinel/intelligence/coordinator.py:188-210 | what a row lists first is asked for first |
| Coordinator.TickInOrder | src/market_sentinel/intelligence/coordinator.py:188-210 | rows are asked for in their order |
| Coordinator.ActiveMeaning | src/market_sentinel/intelligence/coordinator.py:177-187 | a tick leaves active what is given, or reported, and has not expired |
| Coordinator.IntelligenceCoordinator.ObserveTick | src/market_sentinel/intelligence/coordinator.py:170-236 | the nested loops of a tick compute exactly that run |
| Coordinator.IntelligenceCoordinator.RetireInactive | src/market_sentinel/intelligence/coordinator.py:274-291 | invalidating id by id is retiring all at once |
| Coordinator.IntelligenceCoordinator.EnqueueWork | src/market_sentinel/intelligence/coordinator.py:326-370 | a full queue only counts a drop; otherwise the work, its generation, counters and row |
| Coordinator.IntelligenceCoordinator.TakeNext | src/market_sentinel/intelligence/coordinator.py:372-420 | a worker takes the oldest work: stale work is discarded, live work runs |
| Coordinator.IntelligenceCoordinator.Complete | src/market_sentinel/intelligence/coordinator.py:421-533 | a finished call is stored only for live work; its pending count is released |
| Coordinator.AnnotationRegistry.Prune | src/market_sentinel/intelligence/registry.py:25-28 | keeps exactly the active rows |
| Jsonl.ReadJsonl | src/market_sentinel/telemetry/jsonl.py:139-195 | the reader's branches and counting loop compute records, skipped fragment and damage of any bytes |
| Jsonl.SplitGivesLines | src/market_sentinel/telemetry/jsonl.py:198-204 | splitting a newline-terminated text and dropping the last part yields its lines |
| Jsonl.DamageIsCounted | src/market_sentinel/telemetry/jsonl.py:139-195 | for any bytes: records and damage together are the lines that are not blank, and the damage is the number of those that do not load as an object |
| Jsonl.TruncateTrailingPartial | src/market_sentinel/telemetry/jsonl.py:111-126 | repair cuts a torn tail and completes a tail that is JSON |
| Jsonl.RepairIdempotent | src/market_sentinel/telemetry/jsonl.py:111-126 | for any bytes: repair ends in a newline or is empty, and repeating it changes nothing |
| Jsonl.RepairPreserves | src/market_sentinel/telemetry/jsonl.py:111-195 | for any bytes: repair keeps the records read and the damage count |
| Jsonl.AppendAfterRepair | src/market_sentinel/telemetry/jsonl.py:58-65 | for any bytes: a record appended after repair reads as the old records and that one |
| Jsonl.EncodedReads | src/market_sentinel/telemetry/jsonl.py:58-65 | what was written reads back, undamaged |
| Jsonl.CutReads | src/market_sentinel/telemetry/jsonl.py:139-195 | for any records and any cut: exactly the records whose text survived, healthy, a fragment reported exactly when a record was torn |
| Jsonl.RepairedPrefix | src/market_sentinel/telemetry/jsonl.py:111-126 | repairing a file of records cut anywhere leaves exactly the surviving records, encoded |
| Jsonl.CrashInRepairReads | src/market_sentinel/telemetry/jsonl.py:111-126 | a crash inside the repair's rewrite leaves exactly the records whose text is within the part written |
| TextCodec.CodecIsLawful | src/market_sentinel/telemetry/jsonl.py:58-65 | a concrete escaped one-field grammar has one-line encodings that read back and no readable proper prefix |
| RotatedLog.ShiftedFile | src/market_sentinel/telemetry/jsonl.py:81-92 | where every file is after any number of a rotation's file operations |
| RotatedLog.ShiftDropsOldest | src/market_sentinel/telemetry/jsonl.py:81-108 | however far a rotation gets, reading gives everything but the oldest backup, in order |
| RotatedLog.StepReads | src/market_sentinel/telemetry/jsonl.py:58-126 | a write, a crash inside a write or a crash inside a rotation adds the surviving record and loses at most the whole oldest backup |
| RotatedLog.RunReads | src/market_sentinel/telemetry/jsonl.py:34-126 | from any directory, over any writes and crashes: a contiguous suffix of the old content and the surviving records, damage never grows |
| RotatedLog.LogIsCounted | src/market_sentinel/evaluation/reader.py:22-41 | the same over all files of any directory; no damage exactly when every such line loads as an object |
| RotationBounds.HistoryIsRefined | src/market_sentinel/telemetry/jsonl.py:34-126 | from an empty directory: a suffix of the surviving history, healthy |
| RotationMarks.RunExactly | src/market_sentinel/telemetry/jsonl.py:58-92 | in every run the current file is below max_bytes, and a backup below it without its last record, exactly when no crash left it full while it was current |
| RotationMarks.RunMarked | src/market_sentinel/telemetry/jsonl.py:58-92 | with any crashes the current file is below max_bytes without its last m records and each backup without its last m + 1, m being the crashes that left it full while current |
| RotationMarks.CrashFreeNoMarks | src/market_sentinel/telemetry/jsonl.py:58-92 | without crashes every m is zero |
| RotationMarks.CrashOverruns | src/market_sentinel/telemetry/jsonl.py:58-92 | a crash before a rotation and one more write leave a backup that is not below max_bytes without its last record |
| RotationBounds.LossLeavesPlenty | src/market_sentinel/telemetry/jsonl.py:81-92 | once a record is lost the backups hold backup_count * max_bytes bytes, less one file's worth per interrupted rotation |
| TelemetrySink.Sink.constructor | src/market_sentinel/telemetry/jsonl.py:37-56 | opening repairs the current file or creates it |
| TelemetrySink.Sink.Write | src/market_sentinel/telemetry/jsonl.py:58-79 | a write is one step of the directory model |
| TelemetrySink.Sink.Rotate | src/market_sentinel/telemetry/jsonl.py:81-92 | the downward loop performs all file operations, then reopens |
| TelemetrySink.OpenSink | src/market_sentinel/telemetry/jsonl.py:37-56 | limits below one are refused, max_bytes first |
| TelemetrySink.PathsAreFiles | src/market_sentinel/telemetry/jsonl.py:99-108 | the paths are exactly the existing files, each once, oldest first |
| TelemetrySink.Load | src/market_sentinel/evaluation/reader.py:22-41 | the reader's loop gives the records oldest first, the damage total, and a fragment exactly when some file ends in one |
| RingBuffer.LogMeaning | src/market_sentinel/market_data/ring_buffer.py:19-29 | the unbounded log holds, in strict time order, the last snapshot written for each time |
| RingBuffer.BufferIsRecentLog | src/market_sentinel/market_data/ring_buffer.py:19-29 | after any appends, late and duplicate ones included, the buffer is the recent part of the unbounded log |
| RingBuffer.RecentMeaning | src/market_sentinel/market_data/ring_buffer.py:54-61 | an item is kept exactly when it is within the retention of the newest and among the max_size newest |
| RingBuffer.LookupIsTruth | src/market_sentinel/market_data/ring_buffer.py:45-52 | an answer is the last snapshot written for its time, and no later time up to the one asked was ever written |
| RingBuffer.QueriesAreTrue | src/market_sentinel/market_data/ring_buffer.py:31-52 | latest agrees with the log; a lookup answers exactly from the oldest item on, and then as the log would |
| RingBuffer.BoundedSince | src/market_sentinel/market_data/ring_buffer.py:42-43 | a range query agrees with the log exactly when it starts after everything cut off |
| RingBuffer.WindowMeaning | src/market_sentinel/market_data/ring_buffer.py:36-43 | after any appends a window is the end of the buffer whose items are at most its duration older than the newest |
| RingBuffer.WholeWindow | src/market_sentinel/market_data/ring_buffer.py:36-40 | a window no longer than the retention is complete while the log fits the size limit |
| RingBuffer.AtOrBeforeMeaning | src/market_sentinel/market_data/ring_buffer.py:45-52 | the answer is the newest item not later than the time asked |
| RingBuffer.Ring.Append | src/market_sentinel/market_data/ring_buffer.py:19-29 | an append keeps the buffer equal to the bounded history |
| RingBuffer.Ring.Evict | src/market_sentinel/market_data/ring_buffer.py:54-61 | the eviction loop and the overflow cut leave the recent part |
| RingBuffer.Ring.Lookup | src/market_sentinel/market_data/ring_buffer.py:45-52 | when the buffer answers, and that the answer is the whole log's |
| RingBuffer.CreateRing | src/market_sentinel/market_data/ring_buffer.py:10-17 | non-positive limits are refused |
| Session.CashSessionOverlap | src/market_sentinel/market_data/session.py:31-59 | the day loop equals the number of in-session moments between the two timestamps; zero for non-finite ones |
| Session.DayMeasure | src/market_sentinel/market_data/session.py:10-14 | inside one day the session moments are the two windows, on weekdays |
| Session.SessionTimeLaws | src/market_sentinel/market_data/session.py:31-59 | symmetric, zero on a point, at most the interval's length |
| Session.SessionTimeAdds | src/market_sentinel/market_data/session.py:31-59 | additive over split intervals |
| Session.SevenDays | src/market_sentinel/market_data/session.py:31-59 | any span of exactly seven days holds 72000 seconds |
| Session.SameSessionMeaning | src/market_sentinel/market_data/session.py:17-23 | two moments share a session exactly when the second lies in the first one's UTC+8 day |
| Session.SessionInUtc | src/market_sentinel/market_data/session.py:10-14 | in UTC the session is open on weekdays from 01:30 to 03:30 and from 05:00 to 07:00 |
| Session.DayTurnsAtFour | src/market_sentinel/market_data/session.py:17-23 | a session day turns at 16:00 UTC |
| Bars.FillBuckets | src/market_sentinel/features/bars.py:26-34 | the bucket loop groups the snapshots by bar, in order of arrival |
| Bars.CompletedMinuteBars | src/market_sentinel/features/bars.py:11-63 | both loops together compute the bars |
| Bars.BarIsAligned | src/market_sentinel/features/bars.py:26-34 | a bar starts at a multiple of the width, is one width long and ends before the forming bar |
| Bars.BarsAreApart | src/market_sentinel/features/bars.py:40-62 | bars rise in time and do not overlap |
| Bars.InSomeBar | src/market_sentinel/features/bars.py:26-34 | a same-session snapshot lies in a bar exactly when it comes before the forming bar |
| Bars.InOneBar | src/market_sentinel/features/bars.py:40-62 | and never in two |
| Bars.GroupsShareOut | src/market_sentinel/features/bars.py:26-34 | every copy of such a snapshot is in its own bar's group and no other |
| Bars.BarPrices | src/market_sentinel/features/bars.py:40-58 | open and close are the earliest and newest prices; low and high bound and are attained by the bar's snapshots |
| Bars.VolumeMeaning | src/market_sentinel/features/bars.py:45-73 | a volume exists exactly without a gap and is the non-negative gain over the previous close |
| Bars.TurnoverMeaning | src/market_sentinel/features/bars.py:45-73 | likewise for the turnover, which also needs both snapshots to report one |
| Bars.VolumeConserved | src/market_sentinel/features/bars.py:36-73 | over a gap-free run volumes sum to at least last minus first cumulative volume, with equality exactly when it never fell |
| TimeSort.SortByTimeLaws | src/market_sentinel/features/bars.py:41 | sorting by time is ordered, a permutation and stable |
| Indicators.Ema | src/market_sentinel/features/indicators.py:6-14 | the loop computes the recurrence; none for too few closes |
| Averages.EmaWeights | src/market_sentinel/features/indicators.py:6-14 | the mean of the first closes worn down by (p - 1) / (p + 1) with each later close, which weighs 2 / (p + 1) and is worn down alike |
| Averages.EmaNext | src/market_sentinel/features/indicators.py:6-14 | with one close more, p + 1 times the average is twice the close and p - 1 times the average before |
| Indicators.EmaInRange | src/market_sentinel/features/indicators.py:6-14 | defined exactly for 0 < period <= number of closes, and between any bounds of the closes |
| Indicators.EmaAffine | src/market_sentinel/features/indicators.py:6-14 | commutes with every affine map |
| Indicators.RsiWilder | src/market_sentinel/features/indicators.py:17-43 | the loop and the zero cases compute the index |
| Averages.WilderWeights | src/market_sentinel/features/indicators.py:29-35 | Wilder's average weighs a later value 1 / p and wears everything earlier down by (p - 1) / p |
| Averages.WilderNext | src/market_sentinel/features/indicators.py:29-35 | p times the average is p - 1 times the average before and the new value |
| Averages.RsiOfRise | src/market_sentinel/features/indicators.py:17-43 | closes that never fall and end with a rise have index 100 |
| Averages.RsiOfFall | src/market_sentinel/features/indicators.py:17-43 | closes that never rise and end with a fall have index 0 |
| Averages.RsiOfStandstill | src/market_sentinel/features/indicators.py:36-37 | closes that never move have index 50 |
| Indicators.RsiInRange | src/market_sentinel/features/indicators.py:17-43 | defined exactly for 0 < period < number of closes, and in 0..100 |
| Indicators.RsiAffine | src/market_sentinel/features/indicators.py:17-43 | unchanged by positive affine maps |
| Indicators.RsiMirror | src/market_sentinel/features/indicators.py:17-43 | mirroring the closes turns r into 100 - r, zero cases included |
| Indicators.StrengthIsShare | src/market_sentinel/features/indicators.py:36-43 | unless nothing moved, the index is the gains' share of all movement |
| SchedulerModel.ChangeIsRecorded | src/market_sentinel/scheduler/scheduler.py:30-45 | in every run a non-cold symbol has a recorded last change |
| SchedulerModel.DowngradeWaits | src/market_sentinel/scheduler/scheduler.py:80-97 | an unforced downgrade comes at least its dwell after the change before it |
| SchedulerModel.ChangesAreBounded | src/market_sentinel/scheduler/scheduler.py:30-97 | in any window of a run at most 2 + 3 * floor(T / shortest downgrade dwell) changes, two more if it opens with a downgrade, T being the time from its first change to its last |
| SchedulerModel.DefaultBound | src/market_sentinel/scheduler/policy.py:5-11 | over a whole run with the default dwells: 2 + 3 * floor(T / 30) |
| SchedulerModel.WakesExactly | src/market_sentinel/scheduler/scheduler.py:47-71 | for a non-empty list a wait makes some symbol due exactly when it reaches next_wait_s |
| SchedulerModel.FetchedRests | src/market_sentinel/scheduler/scheduler.py:56-57 | a fetched symbol is due again exactly after its interval |
| SchedulerModel.DefaultIntervals | src/market_sentinel/scheduler/policy.py:5-11 | by default a fetched symbol is due again after 1 s when hot, 3 s when warm, 10 s when cold; a wait for no symbols is one second |
| SchedulerModel.DefaultGrants | src/market_sentinel/scheduler/scheduler.py:80-97 | by default an upgrade is granted at once, a downgrade from hot 30 s and one from warm 60 s after the last change, a forced or first change always |
| Scheduler.AdaptiveScheduler.SetLevel | src/market_sentinel/scheduler/scheduler.py:30-45 | what changes, when it is granted, and that a refusal changes nothing |
| Scheduler.AdaptiveScheduler.DueSymbols | src/market_sentinel/scheduler/scheduler.py:47-54 | the loop returns exactly the due symbols, in order |
| Scheduler.AdaptiveScheduler.NextWaitSeconds | src/market_sentinel/scheduler/scheduler.py:59-71 | the loop returns the least remaining wait, a second for no symbols |
| JsonlDecoder.Decoder.Push | apps/cursor-extension/src/ipc/jsonl.ts:4-22 | the loop emits the complete lines of buffer and chunk and keeps the rest |
| JsonlDecoder.FramesInTwo | apps/cursor-extension/src/ipc/jsonl.ts:4-22 | framing a text in two pieces is framing it whole |
| JsonlDecoder.ChunksAgree | apps/cursor-extension/src/ipc/jsonl.ts:4-22 | however a text is split into chunks, the lines and the rest are those of the whole |
| JsonlDecoder.RestIsUnfinished | apps/cursor-extension/src/ipc/jsonl.ts:4-22 | emitted lines are not blank; neither they nor the rest hold a newline |
| JsonlDecoder.WireFrames | apps/cursor-extension/src/ipc/jsonl.ts:4-22 | lines sent with either line ending come back exactly, the blank ones left out, and nothing is left over |
| JsonlDecoder.WireArrives | apps/cursor-extension/src/ipc/jsonl.ts:4-22 | also when they arrive in chunks cut anywhere |
| IpcModel.ExactlyOneOutcome | apps/cursor-extension/src/ipc/client.ts:65-225 | in every run an issued id is pending or settled, never both; closed means nothing pending; resolved means its own id and expected type |
| IpcModel.OutcomesAreFinal | apps/cursor-extension/src/ipc/client.ts:65-225 | outcomes, requests and being closed are never taken back |
| IpcModel.ClosingSettlesAll | apps/cursor-extension/src/ipc/client.ts:71-120 | after closing or disposal every id ever issued has an outcome |
| IpcModel.ChunkingIsInvisible | apps/cursor-extension/src/ipc/client.ts:65-69 | the client's state does not depend on how the stream is split |
| IpcModel.NextIdIsNew | apps/cursor-extension/src/ipc/client.ts:57 | the next request id was never used |
| IpcOutcomes.OutcomeExactly | apps/cursor-extension/src/ipc/client.ts:76-225 | a request waits until the first line, timer or end that concerns it, which decides its outcome for good; an answer of the command's own type resolves it, everything else rejects it with its error |
| IpcOutcomes.OthersAreNotices | apps/cursor-extension/src/ipc/client.ts:122-198 | what concerns no waiting request reaches the handlers and no request |
| IpcOutcomes.NamesMatch | apps/cursor-extension/src/ipc/client.ts:170-178 | error texts name a type exactly as the messages of that type do |
| IpcClient.Connection.Feed | apps/cursor-extension/src/ipc/client.ts:65-69 | a chunk's lines are dispatched in order |
| IpcClient.Connection.DispatchLine | apps/cursor-extension/src/ipc/client.ts:122-142 | invalid JSON, malformed answers and messages |
| IpcClient.Connection.DispatchMessage | apps/cursor-extension/src/ipc/client.ts:144-198 | alerts, unsolicited states, answers of the right and wrong type, errors, unknown ids, each with its error text |
| IpcClient.Connection.Request | apps/cursor-extension/src/ipc/client.ts:76-97 | a closed client refuses without issuing an id; otherwise the next id waits for the expected type |
| IpcClient.Connection.RejectAll | apps/cursor-extension/src/ipc/client.ts:218-225 | every pending request is rejected with the error |

## Left out

- Titles and texts of signals and the features stored in a trace: presentation; priority is computed from severities and event types as in the source, without the reason text.
- `events_in_lookback`, `cluster_members`: not used by the composer.
- Telemetry emission, escalation observations and suppression reasons of the pipeline; latency, token, timeout and parse counters of the sidecar: they feed nothing back.
- Garbage in the composer's `_home` map: entries of events that dropped out of a long episode are kept, as in the source; no bound on their number is stated.
- Coordinator start, shutdown and restart, the idle event, the in-flight task map and cancellation internals: cancellation is an outcome a running work may have at any time.
- Expiry of signals by wall clock: `CurrentActive` of a tick applies it, but the composer never sets an expiry, so the engine's active sets do not. A tick in which processing a symbol raises an exception.
- A second coroutine running inside `need_intelligence` or `_enqueue`: they contain no await.
- `asyncio.wait_for` timeouts and provider errors: one failure outcome with an arbitrary reason.
- Allowlist projection of telemetry records: a record is the projected one. JSON texts outside UTF-8 and integers too long to convert: part of the decoding function.
- TextCodec.CodecIsLawful: a one-field grammar with escapes stands for JSON objects; the log's results hold for every encoding that meets `Jsonl.Lawful`.
- Failing file operations, files changed by others and several writers.
- RotatedLog.RunReads: a crash inside the repair's own rewrite is not an event of a run, because it can lose complete records of the current file; Jsonl.CrashInRepairReads says which, for one file of records.
- SignalComposer.Composer.Compose: leaves out the title and summary texts, the features in the trace and the reason of the priority; identity, members, times, severity and priority are those of the source.
- Windows and timestamps outside the range of `datetime`, exchange holidays (the source ignores them too), `session_extreme_high` and `session_extreme_low`, `session_vwap`: one expression each.
- Floating-point rounding in times, prices, volumes and indicators, and NaN values inside them.
- Multi-byte characters split across `Buffer` chunks: a chunk is a string. A custom request-id generator that repeats ids. A `writeLine` or a handler that throws, and registration of handlers: notices are what handlers would be given.
- The invalid-level error of `set_level`: the type rules it out. Logging.
- Feed parsing, providers, transports, the MCP server, the command line and the editor's views: I/O and presentation.
