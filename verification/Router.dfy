/** The deterministic gate in front of the model: call budget and routing (intelligence/contract.py, router.py). */
module Router {
  import opened Common
  import opened Domain

  datatype FeedStatus = LIVE | DELAYED | STALE | DISCONNECTED

  datatype Reason =
    | NoReason
    | NotCandidate
    | StaleFeed
    | InsufficientFeatures
    | SuppressedEdge
    | EpisodeBudget
    | ExpiredEpisode
    | Timeout
    | Transport
    | Malformed
    | RateLimited
    | Unavailable

  datatype Budget = Budget(maxCalls: int, allowRecall: bool)

  const DEFAULT_BUDGET := Budget(1, false)

  predicate BudgetAllows(budget: Budget, callsMade: int, current: Priority, last: Option<Priority>) {
    if callsMade < budget.maxCalls then true
    else if !budget.allowRecall then false
    else if last.None? then false
    else if callsMade >= budget.maxCalls + 1 then false
    else Rank(current) > Rank(last.value)
  }

  /** The most calls an episode can be granted. */
  function Cap(budget: Budget): nat {
    if budget.maxCalls <= 0 then 0
    else if budget.allowRecall then budget.maxCalls + 1
    else budget.maxCalls
  }

  /** A granted call stays under the cap, and a call beyond max_calls is a single, strictly more urgent recall. */
  lemma GrantedIsUnderCap(budget: Budget, callsMade: nat, current: Priority, last: Option<Priority>)
    requires last.Some? ==> callsMade > 0
    requires BudgetAllows(budget, callsMade, current, last)
    ensures callsMade + 1 <= Cap(budget)
    ensures callsMade >= budget.maxCalls ==>
              budget.allowRecall && callsMade == budget.maxCalls && last.Some? && Rank(current) > Rank(last.value)
  {
  }

  datatype Policy = Policy(minPriority: Priority, requireAlertEdge: bool, minConvergenceTypes: int)

  const PRICE: set<string> := {"rapid_move", "price_volume_expansion"}
  const VOLUME: set<string> := {"volume_spike", "price_volume_expansion"}
  const BREAKOUT: set<string> := {"day_high_breakout", "day_low_breakdown"}

  /** The compressed facts about an episode that the gate looks at. */
  datatype Input = Input(
    id: nat,
    priority: Priority,
    eventTypes: set<string>,
    change1m: Option<real>,
    change5m: Option<real>,
    volumeRatio5m: Option<real>,
    feed: FeedStatus,
    alertEdge: bool,
    callCount: nat,
    lastRequested: Option<Priority>,
    expired: bool)

  datatype Decision = Decision(requested: bool, reason: Reason, candidate: bool)

  predicate Candidate(row: Input, policy: Policy) {
    || Rank(row.priority) >= Rank(policy.minPriority)
    || (row.eventTypes * PRICE != {} && row.eventTypes * VOLUME != {} && row.eventTypes * BREAKOUT != {})
    || (|row.eventTypes| >= policy.minConvergenceTypes && row.eventTypes * PRICE != {} && row.eventTypes * VOLUME != {})
  }

  function NeedIntelligence(row: Input, policy: Policy, budget: Budget): Decision {
    var candidate := Candidate(row, policy);
    if row.expired then Decision(false, ExpiredEpisode, candidate)
    else if policy.requireAlertEdge && !row.alertEdge then Decision(false, SuppressedEdge, candidate)
    else if row.feed in {STALE, DISCONNECTED} then Decision(false, StaleFeed, candidate)
    else if row.change1m.None? && row.change5m.None? && row.volumeRatio5m.None? then
      Decision(false, InsufficientFeatures, candidate)
    else if !candidate then Decision(false, NotCandidate, false)
    else if !BudgetAllows(budget, row.callCount, row.priority, row.lastRequested) then
      Decision(false, EpisodeBudget, true)
    else Decision(true, NoReason, true)
  }

  const DEFAULT_ROUTING := Policy(Important, true, 3)

  /** By default a signal is worth a call when it is important or critical, or when price, volume and a breakout (or any
      third kind of event) come together. */
  lemma DefaultCandidates(row: Input)
    ensures Candidate(row, DEFAULT_ROUTING)
            <==> || row.priority in {Important, Critical}
                 || (&& (exists t :: t in row.eventTypes && t in {"rapid_move", "price_volume_expansion"})
                     && (exists t :: t in row.eventTypes && t in {"volume_spike", "price_volume_expansion"})
                     && ((exists t :: t in row.eventTypes && t in {"day_high_breakout", "day_low_breakdown"})
                         || |row.eventTypes| >= 3))
  {
    assert row.eventTypes * PRICE != {} <==> exists t :: t in row.eventTypes && t in PRICE by {
      Meets(row.eventTypes, PRICE);
    }
    Meets(row.eventTypes, VOLUME);
    Meets(row.eventTypes, BREAKOUT);
  }

  lemma Meets(a: set<string>, b: set<string>)
    ensures a * b != {} <==> exists t :: t in a && t in b
  {
    if a * b != {} {
      var t :| t in a * b;
    }
    if t :| t in a && t in b {
      assert t in a * b;
    }
  }

  /** A more urgent signal, or one with more kinds of events, is no less a candidate. */
  lemma CandidateRises(row: Input, more: Input, policy: Policy)
    requires Candidate(row, policy) && Rank(row.priority) <= Rank(more.priority) && row.eventTypes <= more.eventTypes
    ensures Candidate(more, policy)
  {
    MeetsMore(row.eventTypes, more.eventTypes, PRICE);
    MeetsMore(row.eventTypes, more.eventTypes, VOLUME);
    MeetsMore(row.eventTypes, more.eventTypes, BREAKOUT);
    Bigger(row.eventTypes, more.eventTypes);
  }

  lemma MeetsMore(a: set<string>, b: set<string>, c: set<string>)
    requires a <= b
    ensures a * c != {} ==> b * c != {}
  {
    Meets(a, c);
    Meets(b, c);
  }

  lemma {:induction false} Bigger(a: set<string>, b: set<string>)
    requires a <= b
    ensures |a| <= |b|
    decreases |a|
  {
    if a != {} {
      var x :| x in a;
      Bigger(a - {x}, b - {x});
    }
  }

  /** A request is granted exactly when no reason stands against it; otherwise the reason given is the first that does:
      an expired episode, no alert, a bad feed, no features, no candidate, no budget. */
  lemma ReasonMeaning(row: Input, policy: Policy, budget: Budget)
    ensures var d := NeedIntelligence(row, policy, budget);
            && (d.requested <==> d.reason == NoReason)
            && (d.requested <==> && !row.expired && (policy.requireAlertEdge ==> row.alertEdge)
                                 && row.feed in {LIVE, DELAYED}
                                 && (row.change1m.Some? || row.change5m.Some? || row.volumeRatio5m.Some?)
                                 && Candidate(row, policy)
                                 && BudgetAllows(budget, row.callCount, row.priority, row.lastRequested))
            && (d.reason == ExpiredEpisode <==> row.expired)
            && (d.reason == SuppressedEdge <==> !row.expired && policy.requireAlertEdge && !row.alertEdge)
            && (d.reason == StaleFeed <==>
                  d.reason !in {ExpiredEpisode, SuppressedEdge} && row.feed in {STALE, DISCONNECTED})
            && (d.reason == InsufficientFeatures <==>
                  && d.reason !in {ExpiredEpisode, SuppressedEdge, StaleFeed}
                  && row.change1m.None? && row.change5m.None? && row.volumeRatio5m.None?)
            && (d.reason == NotCandidate <==>
                  && d.reason !in {ExpiredEpisode, SuppressedEdge, StaleFeed, InsufficientFeatures}
                  && !Candidate(row, policy))
            && (d.reason == EpisodeBudget <==>
                  && d.reason !in {ExpiredEpisode, SuppressedEdge, StaleFeed, InsufficientFeatures, NotCandidate}
                  && !BudgetAllows(budget, row.callCount, row.priority, row.lastRequested))
            && d.reason !in {Timeout, Transport, Malformed, RateLimited, Unavailable}
            && d.candidate == Candidate(row, policy)
  {
    assert row.feed in {LIVE, DELAYED} <==> row.feed !in {STALE, DISCONNECTED} by {
      match row.feed
      case LIVE =>
      case DELAYED =>
      case STALE =>
      case DISCONNECTED =>
    }
  }

  /** By default the first call is free, and there is no second. */
  lemma DefaultBudgetMeaning(callsMade: nat, current: Priority, last: Option<Priority>)
    ensures BudgetAllows(DEFAULT_BUDGET, callsMade, current, last) <==> callsMade == 0
  {
  }

  /** With recall there is exactly one call beyond max_calls, for a priority above the last one requested. */
  lemma RecallMeaning(maxCalls: nat, callsMade: nat, current: Priority, last: Option<Priority>)
    ensures BudgetAllows(Budget(maxCalls, true), callsMade, current, last)
            <==> callsMade < maxCalls || (callsMade == maxCalls && last.Some? && Rank(current) > Rank(last.value))
  {
  }
}
