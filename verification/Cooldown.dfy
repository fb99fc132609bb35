/** Per-episode alert cooldown on the monotonic clock (signals/cooldown.py). */
module Cooldown {
  import opened Common
  import opened Domain

  datatype Stamp = Stamp(mono: real, priority: Priority)

  type Stamps = map<nat, Stamp>

  /** One question put to the gate. */
  datatype Ask = Ask(id: nat, priority: Priority, mono: real)

  predicate Allows(last: Stamps, cooldown: real, a: Ask) {
    || a.id !in last
    || a.mono - last[a.id].mono >= cooldown
    || Rank(a.priority) > Rank(last[a.id].priority)
  }

  function AfterAsk(last: Stamps, cooldown: real, a: Ask): Stamps {
    if Allows(last, cooldown, a) then last[a.id := Stamp(a.mono, a.priority)] else last
  }

  function AfterAsks(last: Stamps, cooldown: real, asks: seq<Ask>): Stamps
    decreases asks
  {
    if asks == [] then last else AfterAsks(AfterAsk(last, cooldown, asks[0]), cooldown, asks[1..])
  }

  /** The questions of a run that were answered yes. */
  function Alerts(last: Stamps, cooldown: real, asks: seq<Ask>): seq<Ask>
    decreases asks
  {
    if asks == [] then []
    else
      (if Allows(last, cooldown, asks[0]) then [asks[0]] else [])
      + Alerts(AfterAsk(last, cooldown, asks[0]), cooldown, asks[1..])
  }

  function OfId(asks: seq<Ask>, id: nat): (r: seq<Ask>)
    ensures forall a :: a in r <==> a in asks && a.id == id
  {
    Filter(asks, (a: Ask) => a.id == id)
  }

  class CooldownGate {
    const cooldown: real
    var last: Stamps

    constructor (cooldown: real)
      ensures this.cooldown == cooldown && last == map[]
    {
      this.cooldown := cooldown;
      last := map[];
    }

    method Allow(signalId: nat, priority: Priority, now: real) returns (allowed: bool)
      modifies this
      ensures allowed == Allows(old(last), cooldown, Ask(signalId, priority, now))
      ensures last == AfterAsk(old(last), cooldown, Ask(signalId, priority, now))
    {
      if signalId !in last {
        last := last[signalId := Stamp(now, priority)];
        return true;
      }
      var previous := last[signalId];
      if now - previous.mono >= cooldown {
        last := last[signalId := Stamp(now, priority)];
        return true;
      }
      if Rank(priority) > Rank(previous.priority) {
        last := last[signalId := Stamp(now, priority)];
        return true;
      }
      allowed := false;
    }
  }

  // ---- Properties of runs ----

  /** The clock never goes back over the run, starting from what the gate has stamped for the id. */
  ghost predicate Forward(asks: seq<Ask>) {
    forall i, j :: 0 <= i < j < |asks| ==> asks[i].mono <= asks[j].mono
  }

  ghost predicate Remembers(last: Stamps, id: nat, alerts: seq<Ask>) {
    if alerts == [] then id !in last
    else id in last && last[id] == Stamp(Last(alerts).mono, Last(alerts).priority)
  }

  /** b comes too soon after a, without a higher priority. */
  predicate TooSoon(a: Ask, b: Ask, cooldown: real) {
    b.mono - a.mono < cooldown && Rank(b.priority) <= Rank(a.priority)
  }

  ghost predicate Spaced(alerts: seq<Ask>, cooldown: real) {
    && (forall i :: 0 < i < |alerts| ==> !TooSoon(alerts[i - 1], alerts[i], cooldown))
    && Forward(alerts)
  }

  ghost predicate AllBefore(alerts: seq<Ask>, asks: seq<Ask>) {
    forall a, b :: a in alerts && b in asks ==> a.mono <= b.mono
  }

  lemma SpacedOneMore(before: seq<Ask>, a: Ask, cooldown: real)
    requires Spaced(before, cooldown)
    requires forall x :: x in before ==> x.mono <= a.mono
    requires before != [] ==> !TooSoon(Last(before), a, cooldown)
    ensures Spaced(before + [a], cooldown)
  {
    forall i | 0 <= i < |before|
      ensures before[i].mono <= a.mono
    {
      assert before[i] in before;
    }
  }

  lemma ForwardTail(asks: seq<Ask>)
    requires Forward(asks) && asks != []
    ensures Forward(asks[1..])
    ensures asks[0] in asks && forall b :: b in asks[1..] ==> b in asks && asks[0].mono <= b.mono
  {
    forall b | b in asks[1..]
      ensures b in asks && asks[0].mono <= b.mono
    {
      var i :| 0 <= i < |asks[1..]| && asks[1..][i] == b;
      assert asks[i + 1] == b;
    }
  }

  /** What the first question of a run contributes to an episode's alerts. */
  function First(last: Stamps, cooldown: real, a: Ask, id: nat): seq<Ask> {
    if Allows(last, cooldown, a) && a.id == id then [a] else []
  }

  lemma AlertsCons(last: Stamps, cooldown: real, asks: seq<Ask>, id: nat)
    requires asks != []
    ensures OfId(Alerts(last, cooldown, asks), id)
            == First(last, cooldown, asks[0], id)
               + OfId(Alerts(AfterAsk(last, cooldown, asks[0]), cooldown, asks[1..]), id)
  {
    var rest := Alerts(AfterAsk(last, cooldown, asks[0]), cooldown, asks[1..]);
    assert Alerts(last, cooldown, asks) == (if Allows(last, cooldown, asks[0]) then [asks[0]] else []) + rest;
    FilterConcat(if Allows(last, cooldown, asks[0]) then [asks[0]] else [], rest, (x: Ask) => x.id == id);
  }

  lemma StepIsSpaced(last: Stamps, cooldown: real, a: Ask, id: nat, before: seq<Ask>)
    requires Remembers(last, id, before) && Spaced(before, cooldown)
    requires forall x :: x in before ==> x.mono <= a.mono
    ensures var now := before + First(last, cooldown, a, id);
            Remembers(AfterAsk(last, cooldown, a), id, now) && Spaced(now, cooldown)
  {
    if Allows(last, cooldown, a) && a.id == id {
      SpacedOneMore(before, a, cooldown);
    } else {
      assert before + [] == before;
    }
  }

  lemma AllBeforeStep(before: seq<Ask>, asks: seq<Ask>, first: seq<Ask>)
    requires Forward(asks) && AllBefore(before, asks) && asks != []
    requires first == [] || first == [asks[0]]
    ensures AllBefore(before + first, asks[1..])
  {
    ForwardTail(asks);
  }

  lemma Regroup(before: seq<Ask>, first: seq<Ask>, rest: seq<Ask>, all: seq<Ask>, last: Stamps, id: nat, cooldown: real)
    requires all == first + rest
    requires Spaced((before + first) + rest, cooldown) && Remembers(last, id, (before + first) + rest)
    ensures Spaced(before + all, cooldown) && Remembers(last, id, before + all)
  {
    assert before + all == (before + first) + rest;
  }

  lemma {:induction false} RunIsSpaced(last: Stamps, cooldown: real, asks: seq<Ask>, id: nat, before: seq<Ask>)
    requires Remembers(last, id, before) && Spaced(before, cooldown)
    requires Forward(asks) && AllBefore(before, asks)
    ensures var alerts := before + OfId(Alerts(last, cooldown, asks), id);
            Spaced(alerts, cooldown) && Remembers(AfterAsks(last, cooldown, asks), id, alerts)
    decreases asks
  {
    if asks == [] {
      assert before + [] == before;
    } else {
      var mid := AfterAsk(last, cooldown, asks[0]);
      var now := before + First(last, cooldown, asks[0], id);
      ForwardTail(asks);
      StepIsSpaced(last, cooldown, asks[0], id, before);
      AllBeforeStep(before, asks, First(last, cooldown, asks[0], id));
      RunIsSpaced(mid, cooldown, asks[1..], id, now);
      AlertsCons(last, cooldown, asks, id);
      Regroup(before, First(last, cooldown, asks[0], id), OfId(Alerts(mid, cooldown, asks[1..]), id),
              OfId(Alerts(last, cooldown, asks), id), AfterAsks(last, cooldown, asks), id, cooldown);
    }
  }

  lemma RunFromStart(asks: seq<Ask>, cooldown: real, id: nat)
    requires Forward(asks)
    ensures var alerts := OfId(Alerts(map[], cooldown, asks), id);
            Spaced(alerts, cooldown) && Remembers(AfterAsks(map[], cooldown, asks), id, alerts)
  {
    RunIsSpaced(map[], cooldown, asks, id, []);
    var alerts := OfId(Alerts(map[], cooldown, asks), id);
    assert [] + alerts == alerts;
  }

  lemma {:induction false} SpacedPairs(alerts: seq<Ask>, cooldown: real, i: nat, j: nat)
    requires Spaced(alerts, cooldown) && i < j < |alerts|
    ensures alerts[i].mono <= alerts[j].mono && !TooSoon(alerts[i], alerts[j], cooldown)
    decreases j - i
  {
    assert !TooSoon(alerts[j - 1], alerts[j], cooldown);
    if i < j - 1 {
      SpacedPairs(alerts, cooldown, i, j - 1);
      assert alerts[i].mono <= alerts[j - 1].mono <= alerts[j].mono;
    }
  }

  /** Over any run of a clock that does not go back, two alerts of one episode closer than the cooldown have strictly
      rising priority. */
  lemma AlertsRise(asks: seq<Ask>, cooldown: real, id: nat, i: nat, j: nat)
    requires Forward(asks)
    requires i < j < |OfId(Alerts(map[], cooldown, asks), id)|
    ensures var alerts := OfId(Alerts(map[], cooldown, asks), id);
            && alerts[i].mono <= alerts[j].mono
            && (alerts[j].mono - alerts[i].mono < cooldown ==> Rank(alerts[i].priority) < Rank(alerts[j].priority))
  {
    var alerts := OfId(Alerts(map[], cooldown, asks), id);
    RunFromStart(asks, cooldown, id);
    SpacedPairs(alerts, cooldown, i, j);
  }

  lemma SpacedWindow(alerts: seq<Ask>, cooldown: real, i: nat, j: nat)
    requires Spaced(alerts, cooldown) && i < j <= |alerts|
    requires alerts[j - 1].mono - alerts[i].mono < cooldown
    ensures j - i <= 4
  {
    var ranks := seq(j - i, n requires 0 <= n < j - i => Rank(alerts[i + n].priority) as int);
    forall n, m | 0 <= n < m < j - i
      ensures ranks[n] < ranks[m]
    {
      SpacedPairs(alerts, cooldown, i + n, i + m);
      assert alerts[i].mono <= alerts[i + n].mono && alerts[i + m].mono <= alerts[j - 1].mono;
    }
    forall n | 0 <= n < j - i
      ensures 1 <= ranks[n] <= 4
    {
      assert ranks[n] == Rank(alerts[i + n].priority);
    }
    RisingIsShort(ranks, 1, 4);
  }

  /** So at most four alerts of one episode fall inside a window shorter than the cooldown. */
  lemma AtMostFourInWindow(asks: seq<Ask>, cooldown: real, id: nat, i: nat, j: nat)
    requires Forward(asks)
    requires i < j <= |OfId(Alerts(map[], cooldown, asks), id)|
    requires var alerts := OfId(Alerts(map[], cooldown, asks), id); alerts[j - 1].mono - alerts[i].mono < cooldown
    ensures j - i <= 4
  {
    var alerts := OfId(Alerts(map[], cooldown, asks), id);
    RunFromStart(asks, cooldown, id);
    SpacedWindow(alerts, cooldown, i, j);
  }

  /** An alert is refused exactly when the episode's last alert was too recent and at least as urgent; an episode that
      has not alerted yet is never refused, whatever other episodes did. */
  lemma AllowedMeaning(asks: seq<Ask>, cooldown: real, a: Ask)
    requires Forward(asks + [a])
    ensures var alerts := OfId(Alerts(map[], cooldown, asks), a.id);
            Allows(AfterAsks(map[], cooldown, asks), cooldown, a)
            <==> alerts == [] || !TooSoon(Last(alerts), a, cooldown)
  {
    assert forall i :: 0 <= i < |asks| ==> (asks + [a])[i] == asks[i];
    RunFromStart(asks, cooldown, a.id);
  }
}
