/** Suppressing repeat events by key, severity and market-time TTL (signals/dedupe.py). */
module Dedupe {
  import opened Common
  import opened Domain

  datatype Record = Record(marketTs: real, severity: int, ttl: real)

  type Records = map<string, Record>

  predicate Admits(records: Records, e: MarketEvent) {
    || e.dedupeKey !in records
    || (var previous := records[e.dedupeKey];
        var elapsed := e.marketTs - previous.marketTs;
        elapsed >= 0.0 && (elapsed >= previous.ttl || e.severity > previous.severity))
  }

  function RecordOf(e: MarketEvent): Record {
    Record(e.marketTs, e.severity, e.ttl)
  }

  function AfterEvent(records: Records, e: MarketEvent): Records {
    if Admits(records, e) then records[e.dedupeKey := RecordOf(e)] else records
  }

  function AfterEvents(records: Records, events: seq<MarketEvent>): Records
    decreases events
  {
    if events == [] then records else AfterEvents(AfterEvent(records, events[0]), events[1..])
  }

  /** The events of a run that are let through. */
  function Kept(records: Records, events: seq<MarketEvent>): (r: seq<MarketEvent>)
    ensures forall e :: e in r ==> e in events
    decreases events
  {
    if events == [] then []
    else
      assert events == [events[0]] + events[1..];
      (if Admits(records, events[0]) then [events[0]] else []) + Kept(AfterEvent(records, events[0]), events[1..])
  }

  function OfKey(events: seq<MarketEvent>, key: string): (r: seq<MarketEvent>)
    ensures forall e :: e in r <==> e in events && e.dedupeKey == key
  {
    Filter(events, (e: MarketEvent) => e.dedupeKey == key)
  }

  class EventDeduper {
    var records: Records

    constructor ()
      ensures records == map[]
    {
      records := map[];
    }

    method Accept(event: MarketEvent) returns (kept: Option<MarketEvent>)
      modifies this
      ensures kept == if Admits(old(records), event) then Some(event) else None
      ensures records == AfterEvent(old(records), event)
    {
      if event.dedupeKey !in records {
        Store(event);
        return Some(event);
      }
      var previous := records[event.dedupeKey];
      var elapsed := event.marketTs - previous.marketTs;
      if elapsed < 0.0 {
        return None;
      }
      if elapsed < previous.ttl {
        if event.severity > previous.severity {
          Store(event);
          return Some(event);
        }
        return None;
      }
      Store(event);
      kept := Some(event);
    }

    method Store(event: MarketEvent)
      modifies this
      ensures records == old(records)[event.dedupeKey := RecordOf(event)]
    {
      records := records[event.dedupeKey := Record(event.marketTs, event.severity, event.ttl)];
    }
  }

  // ---- Properties of runs ----

  /** The deduper remembers, for a key, exactly the key's last kept event. */
  ghost predicate Remembers(records: Records, key: string, kept: seq<MarketEvent>) {
    if kept == [] then key !in records else key in records && records[key] == RecordOf(Last(kept))
  }

  /** An earlier kept event x stands for e: e is older, or no more severe and within x's TTL. */
  predicate Covers(x: MarketEvent, e: MarketEvent) {
    e.marketTs < x.marketTs || (e.marketTs - x.marketTs < x.ttl && e.severity <= x.severity)
  }

  /** Neighbouring kept events of a key: time does not go back, and inside the first one's TTL severity rises. */
  ghost predicate Linked(kept: seq<MarketEvent>) {
    forall i :: 0 < i < |kept| ==> !Covers(kept[i - 1], kept[i])
  }

  /** What the first event of a run contributes to a key's kept events. */
  function First(records: Records, e: MarketEvent, key: string): seq<MarketEvent> {
    if Admits(records, e) && e.dedupeKey == key then [e] else []
  }

  lemma KeptCons(records: Records, events: seq<MarketEvent>, key: string)
    requires events != []
    ensures OfKey(Kept(records, events), key)
            == First(records, events[0], key) + OfKey(Kept(AfterEvent(records, events[0]), events[1..]), key)
  {
    var rest := Kept(AfterEvent(records, events[0]), events[1..]);
    var head := if Admits(records, events[0]) then [events[0]] else [];
    assert Kept(records, events) == head + rest;
    FilterConcat(head, rest, (x: MarketEvent) => x.dedupeKey == key);
  }

  lemma StepLinks(records: Records, e: MarketEvent, key: string, before: seq<MarketEvent>)
    requires Remembers(records, key, before) && Linked(before)
    ensures var now := before + First(records, e, key); Remembers(AfterEvent(records, e), key, now) && Linked(now)
  {
    if !(Admits(records, e) && e.dedupeKey == key) {
      assert before + [] == before;
    }
  }

  lemma Regroup(before: seq<MarketEvent>, first: seq<MarketEvent>, rest: seq<MarketEvent>, all: seq<MarketEvent>,
                records: Records, key: string)
    requires all == first + rest
    requires Remembers(records, key, (before + first) + rest) && Linked((before + first) + rest)
    ensures Remembers(records, key, before + all) && Linked(before + all)
  {
    assert before + all == (before + first) + rest;
  }

  lemma {:induction false} RunLinks(records: Records, events: seq<MarketEvent>, key: string, before: seq<MarketEvent>)
    requires Remembers(records, key, before) && Linked(before)
    ensures var now := before + OfKey(Kept(records, events), key);
            Remembers(AfterEvents(records, events), key, now) && Linked(now)
    decreases events
  {
    if events == [] {
      assert before + [] == before;
    } else {
      var mid := AfterEvent(records, events[0]);
      var now := before + First(records, events[0], key);
      StepLinks(records, events[0], key, before);
      RunLinks(mid, events[1..], key, now);
      KeptCons(records, events, key);
      Regroup(before, First(records, events[0], key), OfKey(Kept(mid, events[1..]), key),
              OfKey(Kept(records, events), key), AfterEvents(records, events), key);
    }
  }

  lemma RunFromStart(events: seq<MarketEvent>, key: string)
    ensures var kept := OfKey(Kept(map[], events), key);
            Remembers(AfterEvents(map[], events), key, kept) && Linked(kept)
  {
    RunLinks(map[], events, key, []);
    var kept := OfKey(Kept(map[], events), key);
    assert [] + kept == kept;
  }

  /** After any run, an event is let through exactly when the last kept event of its key does not stand for it. */
  lemma AdmittedMeaning(events: seq<MarketEvent>, e: MarketEvent)
    ensures var kept := OfKey(Kept(map[], events), e.dedupeKey);
            Admits(AfterEvents(map[], events), e) <==> kept == [] || !Covers(Last(kept), e)
  {
    RunFromStart(events, e.dedupeKey);
  }

  lemma {:induction false} LinkedPairs(kept: seq<MarketEvent>, window: real, i: nat, j: nat)
    requires Linked(kept) && i < j < |kept|
    requires forall e :: e in kept ==> e.ttl >= window
    ensures kept[i].marketTs <= kept[j].marketTs
    ensures kept[j].marketTs - kept[i].marketTs < window ==> kept[i].severity < kept[j].severity
    decreases j - i
  {
    assert !Covers(kept[j - 1], kept[j]);
    assert kept[j - 1] in kept;
    if i < j - 1 {
      LinkedPairs(kept, window, i, j - 1);
    }
  }

  /** Over any run, the kept events of a key never go back in market time, and inside any window no longer than their
      TTLs their severities strictly rise. */
  lemma KeptNeverRepeat(events: seq<MarketEvent>, key: string, window: real, i: nat, j: nat)
    requires var kept := OfKey(Kept(map[], events), key);
             i < j < |kept| && forall e :: e in kept ==> e.ttl >= window
    ensures var kept := OfKey(Kept(map[], events), key);
            && kept[i].marketTs <= kept[j].marketTs
            && (kept[j].marketTs - kept[i].marketTs < window ==> kept[i].severity < kept[j].severity)
  {
    var kept := OfKey(Kept(map[], events), key);
    RunFromStart(events, key);
    LinkedPairs(kept, window, i, j);
  }

  /** With severities 1 to 5, at most five events of a key are kept inside one such window. */
  lemma AtMostFiveInWindow(events: seq<MarketEvent>, key: string, window: real, i: nat, j: nat)
    requires var kept := OfKey(Kept(map[], events), key);
             && i < j <= |kept|
             && (forall e :: e in kept ==> e.ttl >= window && 1 <= e.severity <= 5)
             && kept[j - 1].marketTs - kept[i].marketTs < window
    ensures j - i <= 5
  {
    RunFromStart(events, key);
    LinkedWindow(OfKey(Kept(map[], events), key), window, i, j);
  }

  lemma LinkedWindow(kept: seq<MarketEvent>, window: real, i: nat, j: nat)
    requires Linked(kept) && i < j <= |kept|
    requires forall e :: e in kept ==> e.ttl >= window && 1 <= e.severity <= 5
    requires kept[j - 1].marketTs - kept[i].marketTs < window
    ensures j - i <= 5
  {
    var severities := seq(j - i, n requires 0 <= n < j - i => kept[i + n].severity);
    forall n | 0 <= n < j - i
      ensures 1 <= severities[n] <= 5
    {
      assert kept[i + n] in kept;
    }
    forall n, m | 0 <= n < m < j - i
      ensures severities[n] < severities[m]
    {
      LinkedPairs(kept, window, i + n, i + m);
      LinkedForward(kept, window, i, i + n);
      LinkedForward(kept, window, i + m, j - 1);
    }
    RisingIsShort(severities, 1, 5);
  }

  lemma LinkedForward(kept: seq<MarketEvent>, window: real, i: nat, j: nat)
    requires Linked(kept) && i <= j < |kept|
    requires forall e :: e in kept ==> e.ttl >= window
    ensures kept[i].marketTs <= kept[j].marketTs
  {
    if i < j {
      LinkedPairs(kept, window, i, j);
    }
  }
}
