/** Adaptive polling levels: hysteresis over whole runs, and exact wake-up times (scheduler/scheduler.py). */
module SchedulerModel {
  import opened Common

  datatype Level = Cold | Warm | Hot

  function RankOf(level: Level): nat {
    match level
    case Cold => 0
    case Warm => 1
    case Hot => 2
  }

  datatype Policy = Policy(
    coldInterval: real,
    warmInterval: real,
    hotInterval: real,
    upgradeDwell: real,
    hotDowngradeDwell: real,
    warmDowngradeDwell: real)

  const DEFAULT_POLICY := Policy(10.0, 3.0, 1.0, 0.0, 30.0, 60.0)

  datatype State = State(levels: map<string, Level>, lastChange: map<string, real>, lastFetch: map<string, real>)

  const INITIAL := State(map[], map[], map[])

  function LevelOf(s: State, symbol: string): Level {
    if symbol in s.levels then s.levels[symbol] else Cold
  }

  function RequiredDwell(p: Policy, current: Level, target: Level): real {
    if RankOf(target) > RankOf(current) then p.upgradeDwell
    else if current == Hot then p.hotDowngradeDwell
    else p.warmDowngradeDwell
  }

  predicate DwellElapsed(p: Policy, s: State, symbol: string, current: Level, target: Level, now: real) {
    symbol !in s.lastChange || now - s.lastChange[symbol] >= RequiredDwell(p, current, target)
  }

  /** Whether a request is granted. */
  predicate Accepted(p: Policy, s: State, symbol: string, level: Level, force: bool, checkedAt: real) {
    level == LevelOf(s, symbol) || force || DwellElapsed(p, s, symbol, LevelOf(s, symbol), level, checkedAt)
  }

  /** The dwell is checked by one reading of the clock and the change is stamped with a later one. */
  function SetLevel(p: Policy, s: State, symbol: string, level: Level, force: bool, checkedAt: real,
                    stampedAt: real): State
  {
    if level == LevelOf(s, symbol) then s.(levels := s.levels[symbol := level])
    else if !Accepted(p, s, symbol, level, force, checkedAt) then s
    else s.(levels := s.levels[symbol := level], lastChange := s.lastChange[symbol := stampedAt])
  }

  function MarkFetched(s: State, symbol: string, at: real): State {
    s.(lastFetch := s.lastFetch[symbol := at])
  }

  // ---- Waking up ----

  function Interval(p: Policy, level: Level): real {
    match level
    case Hot => p.hotInterval
    case Warm => p.warmInterval
    case Cold => p.coldInterval
  }

  predicate IsDue(p: Policy, s: State, symbol: string, now: real) {
    symbol !in s.lastFetch || now - s.lastFetch[symbol] >= Interval(p, LevelOf(s, symbol))
  }

  function Remaining(p: Policy, s: State, symbol: string, now: real): real {
    if symbol !in s.lastFetch then 0.0
    else
      var left := Interval(p, LevelOf(s, symbol)) - (now - s.lastFetch[symbol]);
      if left > 0.0 then left else 0.0
  }

  /** How long until the first of the symbols is due; a second when there are none. */
  function NextWait(p: Policy, s: State, symbols: seq<string>, now: real): real {
    if symbols == [] then 1.0
    else
      var first := Remaining(p, s, Last(symbols), now);
      var front := symbols[..|symbols| - 1];
      if front == [] then first
      else if first < NextWait(p, s, front, now) then first else NextWait(p, s, front, now)
  }

  function DueAt(p: Policy, s: State, symbols: seq<string>, now: real): seq<string> {
    Filter(symbols, (x: string) => IsDue(p, s, x, now))
  }

  /** Waiting w makes some symbol due exactly when w reaches the wait asked for. */
  lemma {:induction false} WakesExactly(p: Policy, s: State, symbols: seq<string>, now: real, w: real)
    requires w >= 0.0 && symbols != []
    ensures DueAt(p, s, symbols, now + w) != [] <==> w >= NextWait(p, s, symbols, now)
    ensures NextWait(p, s, symbols, now) >= 0.0
  {
    var n := |symbols| - 1;
    DueNext(p, s, symbols, now + w, n);
    assert symbols[..n + 1] == symbols;
    assert IsDue(p, s, symbols[n], now + w) <==> w >= Remaining(p, s, symbols[n], now);
    if n > 0 {
      WakesExactly(p, s, symbols[..n], now, w);
    }
  }

  lemma DueNext(p: Policy, s: State, symbols: seq<string>, now: real, i: nat)
    requires i < |symbols|
    ensures DueAt(p, s, symbols[..i + 1], now)
            == if IsDue(p, s, symbols[i], now) then DueAt(p, s, symbols[..i], now) + [symbols[i]]
               else DueAt(p, s, symbols[..i], now)
  {
    assert symbols[..i + 1] == symbols[..i] + [symbols[i]];
    FilterConcat(symbols[..i], [symbols[i]], (x: string) => IsDue(p, s, x, now));
    assert [symbols[i]][1..] == [];
  }

  /** A symbol just fetched is not due again before its interval has passed. */
  lemma FetchedRests(p: Policy, s: State, symbol: string, at: real, w: real)
    requires w >= 0.0
    ensures IsDue(p, MarkFetched(s, symbol, at), symbol, at + w) <==> w >= Interval(p, LevelOf(s, symbol))
  {
  }

  /** With the default policy a symbol just fetched is due again after 1 s when hot, 3 s when warm, 10 s when cold,
      and a symbol never fetched at once. */
  lemma DefaultIntervals(s: State, symbol: string, at: real, w: real)
    requires w >= 0.0
    ensures var due := IsDue(DEFAULT_POLICY, MarkFetched(s, symbol, at), symbol, at + w);
            && (LevelOf(s, symbol) == Hot ==> (due <==> w >= 1.0))
            && (LevelOf(s, symbol) == Warm ==> (due <==> w >= 3.0))
            && (LevelOf(s, symbol) == Cold ==> (due <==> w >= 10.0))
    ensures symbol !in s.lastFetch ==> IsDue(DEFAULT_POLICY, s, symbol, at)
    ensures NextWait(DEFAULT_POLICY, s, [], at) == 1.0
  {
    FetchedRests(DEFAULT_POLICY, s, symbol, at, w);
  }

  /** With the default policy, after a change: an upgrade is granted at once, a downgrade from hot after 30 s, one from
      warm after 60 s; a forced change always, and the first change of a symbol always. */
  lemma DefaultGrants(s: State, symbol: string, level: Level, force: bool, at: real, w: real)
    requires w >= 0.0 && level != LevelOf(s, symbol)
    ensures var ok := Accepted(DEFAULT_POLICY, s.(lastChange := s.lastChange[symbol := at]), symbol, level, force,
                at + w);
            && (RankOf(level) > RankOf(LevelOf(s, symbol)) ==> ok)
            && (LevelOf(s, symbol) == Hot ==> (ok <==> force || w >= 30.0))
            && (LevelOf(s, symbol) == Warm && level == Cold ==> (ok <==> force || w >= 60.0))
    ensures symbol !in s.lastChange ==> Accepted(DEFAULT_POLICY, s, symbol, level, force, at)
  {
  }

  // ---- Runs ----

  datatype Op =
    | Request(symbol: string, level: Level, force: bool, checkedAt: real, stampedAt: real)
    | Fetched(symbol: string, at: real)

  function Apply(p: Policy, s: State, op: Op): State {
    match op
    case Request(symbol, level, force, checkedAt, stampedAt) =>
      SetLevel(p, s, symbol, level, force, checkedAt, stampedAt)
    case Fetched(symbol, at) => MarkFetched(s, symbol, at)
  }

  function After(p: Policy, ops: seq<Op>): State {
    if ops == [] then INITIAL else Apply(p, After(p, ops[..|ops| - 1]), Last(ops))
  }

  /** Whether the last operation of a run changed the level of a symbol. */
  predicate Changed(p: Policy, ops: seq<Op>, symbol: string)
    requires ops != []
  {
    LevelOf(After(p, ops), symbol) != LevelOf(After(p, ops[..|ops| - 1]), symbol)
  }

  predicate Lowered(p: Policy, ops: seq<Op>, symbol: string)
    requires ops != []
  {
    RankOf(LevelOf(After(p, ops), symbol)) < RankOf(LevelOf(After(p, ops[..|ops| - 1]), symbol))
  }

  /** How often a symbol's level changed after the first `from` operations of a run. */
  function Changes(p: Policy, ops: seq<Op>, from: nat, symbol: string): nat {
    if |ops| <= from then 0
    else Changes(p, ops[..|ops| - 1], from, symbol) + if Changed(p, ops, symbol) then 1 else 0
  }

  function Downgrades(p: Policy, ops: seq<Op>, from: nat, symbol: string): nat {
    if |ops| <= from then 0
    else Downgrades(p, ops[..|ops| - 1], from, symbol) + if Lowered(p, ops, symbol) then 1 else 0
  }

  datatype Change = Change(at: real, lowered: bool)

  /** The first of those changes. */
  function FirstChange(p: Policy, ops: seq<Op>, from: nat, symbol: string): Option<Change> {
    if |ops| <= from then None
    else
      var before := FirstChange(p, ops[..|ops| - 1], from, symbol);
      if before.None? && Changed(p, ops, symbol) && Last(ops).Request?
      then Some(Change(Last(ops).stampedAt, Lowered(p, ops, symbol)))
      else before
  }

  predicate Unforced(ops: seq<Op>) {
    forall i :: 0 <= i < |ops| ==> ops[i].Request? ==> !ops[i].force && ops[i].checkedAt <= ops[i].stampedAt
  }

  /** Every level other than cold has a recorded last change, as has every symbol whose level ever changed. */
  lemma {:induction false} ChangeIsRecorded(p: Policy, ops: seq<Op>, symbol: string)
    ensures LevelOf(After(p, ops), symbol) != Cold ==> symbol in After(p, ops).lastChange
    ensures Changes(p, ops, 0, symbol) > 0 <==> symbol in After(p, ops).lastChange
  {
    if ops != [] {
      ChangeIsRecorded(p, ops[..|ops| - 1], symbol);
    }
  }

  /** A downgrade comes at least its dwell after the change before it. */
  lemma DowngradeWaits(p: Policy, ops: seq<Op>, symbol: string)
    requires ops != [] && Unforced(ops) && Lowered(p, ops, symbol)
    ensures var before := ops[..|ops| - 1];
            var held := LevelOf(After(p, before), symbol);
            && symbol in After(p, before).lastChange && symbol in After(p, ops).lastChange
            && After(p, ops).lastChange[symbol] - After(p, before).lastChange[symbol]
               >= if held == Hot then p.hotDowngradeDwell else p.warmDowngradeDwell
  {
    ChangeIsRecorded(p, ops[..|ops| - 1], symbol);
    assert ops[|ops| - 1] == Last(ops);
  }

  /** The dwell every downgrade keeps at the least. */
  function LeastDwell(p: Policy): real {
    if p.hotDowngradeDwell < p.warmDowngradeDwell then p.hotDowngradeDwell else p.warmDowngradeDwell
  }

  predicate Sound(p: Policy) {
    p.upgradeDwell >= 0.0 && LeastDwell(p) > 0.0
  }

  /** What the last operation of a run did to one symbol's stamp. */
  lemma LastStep(p: Policy, ops: seq<Op>, symbol: string)
    requires ops != [] && Sound(p) && Unforced(ops)
    ensures var was, now := After(p, ops[..|ops| - 1]).lastChange, After(p, ops).lastChange;
            && (!Changed(p, ops, symbol) ==>
                  (symbol in now <==> symbol in was) && (symbol in now ==> now[symbol] == was[symbol]))
            && (Changed(p, ops, symbol) ==>
                  Last(ops).Request? && symbol in now && now[symbol] == Last(ops).stampedAt)
            && (Changed(p, ops, symbol) && symbol in was ==>
                  now[symbol] - was[symbol] >= if Lowered(p, ops, symbol) then LeastDwell(p) else 0.0)
  {
    assert ops[|ops| - 1] == Last(ops);
  }

  function RankAfter(p: Policy, ops: seq<Op>, symbol: string): nat {
    RankOf(LevelOf(After(p, ops), symbol))
  }

  /** The rank pays for upgrades, and a downgrade takes at most two off it. */
  lemma {:induction false} RankBudget(p: Policy, ops: seq<Op>, from: nat, symbol: string)
    requires from <= |ops|
    ensures Changes(p, ops, from, symbol) + RankAfter(p, ops[..from], symbol)
            <= RankAfter(p, ops, symbol) + 3 * Downgrades(p, ops, from, symbol)
    ensures FirstChange(p, ops, from, symbol).None? ==> RankAfter(p, ops, symbol) == RankAfter(p, ops[..from], symbol)
    ensures FirstChange(p, ops, from, symbol).Some? && FirstChange(p, ops, from, symbol).value.lowered ==>
              RankAfter(p, ops[..from], symbol) > 0
    ensures FirstChange(p, ops, from, symbol).Some? <==> Changes(p, ops, from, symbol) > 0
    ensures Downgrades(p, ops, from, symbol) <= Changes(p, ops, from, symbol)
  {
    if |ops| == from {
      assert ops[..from] == ops;
    } else {
      var before := ops[..|ops| - 1];
      assert before[..from] == ops[..from];
      RankBudget(p, before, from, symbol);
      RankChanges(LevelOf(After(p, before), symbol), LevelOf(After(p, ops), symbol));
    }
  }

  lemma RankChanges(a: Level, b: Level)
    ensures a != b ==> RankOf(a) != RankOf(b)
  {
  }

  /** The time d downgrades take at the least. */
  function Dwelt(d: nat, dwell: real): (r: real)
    ensures r == d as real * dwell
  {
    if d == 0 then 0.0
    else
      assert d as real == (d - 1) as real + 1.0;
      Dwelt(d - 1, dwell) + dwell
  }

  /** The downgrades that had to wait for a change of the same window: all but one that opens it. */
  function Waited(d: nat, first: Change): int {
    if first.lowered then d - 1 else d
  }

  /** Since the first change, this much time has passed up to the last one. */
  ghost predicate Paid(first: Option<Change>, last: map<string, real>, symbol: string, d: nat, dwell: real) {
    first.Some? ==>
      && symbol in last && Waited(d, first.value) >= 0
      && last[symbol] - first.value.at >= Dwelt(Waited(d, first.value), dwell)
  }

  /** Each downgrade but an opening one costs a dwell. */
  lemma {:induction false} TimeBudget(p: Policy, ops: seq<Op>, from: nat, symbol: string)
    requires Sound(p) && Unforced(ops) && from <= |ops|
    ensures Paid(FirstChange(p, ops, from, symbol), After(p, ops).lastChange, symbol, Downgrades(p, ops, from, symbol),
                 LeastDwell(p))
  {
    if |ops| > from {
      var before := ops[..|ops| - 1];
      TimeBudget(p, before, from, symbol);
      RankBudget(p, before, from, symbol);
      LastStep(p, ops, symbol);
      PaidNext(FirstChange(p, before, from, symbol), FirstChange(p, ops, from, symbol), After(p, before).lastChange,
               After(p, ops).lastChange, symbol, Downgrades(p, before, from, symbol), Changed(p, ops, symbol),
               Lowered(p, ops, symbol), LeastDwell(p));
    }
  }

  lemma PaidNext(was: Option<Change>, first: Option<Change>, before: map<string, real>, last: map<string, real>,
                 symbol: string, d: nat, changed: bool, lowered: bool, dwell: real)
    requires dwell > 0.0 && Paid(was, before, symbol, d, dwell) && (was.None? ==> d == 0) && (lowered ==> changed)
    requires !changed ==> first == was && (symbol in last <==> symbol in before)
                          && (symbol in last ==> last[symbol] == before[symbol])
    requires changed ==> symbol in last && first == if was.Some? then was else Some(Change(last[symbol], lowered))
    requires changed && symbol in before ==> last[symbol] - before[symbol] >= if lowered then dwell else 0.0
    ensures Paid(first, last, symbol, if lowered then d + 1 else d, dwell)
  {
    if was.Some? && lowered {
      var w := Waited(d, was.value);
      assert Dwelt(w + 1, dwell) == Dwelt(w, dwell) + dwell;
    }
  }

  /** Level changes allowed within a time span. */
  function Allowed(span: real, dwell: real): int
    requires dwell > 0.0
  {
    2 + 3 * (span / dwell).Floor
  }

  lemma FloorHolds(d: nat, q: real)
    requires d as real <= q
    ensures d <= q.Floor
  {
  }

  lemma AllowsDowngrades(d: nat, span: real, dwell: real)
    requires dwell > 0.0 && span >= d as real * dwell
    ensures span >= 0.0 && 2 + 3 * d <= Allowed(span, dwell)
  {
    AtMostQuotient(d as real, span, dwell);
    FloorHolds(d, span / dwell);
    Positive(d as real, dwell);
  }

  lemma WithinAllowed(changes: nat, start: nat, end: nat, d: nat, first: Change, span: real, dwell: real)
    requires dwell > 0.0 && end <= 2 && changes + start <= end + 3 * d && (first.lowered ==> start > 0)
    requires Waited(d, first) >= 0 && span >= Dwelt(Waited(d, first), dwell)
    ensures span >= 0.0 && changes <= Allowed(span, dwell) + (if first.lowered then 2 else 0)
  {
    AllowsDowngrades(Waited(d, first), span, dwell);
  }

  lemma AtMostQuotient(x: real, span: real, dwell: real)
    requires dwell > 0.0 && span >= x * dwell
    ensures x <= span / dwell
  {
    var q := span / dwell;
    assert q * dwell == span;
    assert (q - x) * dwell == q * dwell - x * dwell;
    Positive(q - x, dwell);
  }

  lemma Positive(x: real, dwell: real)
    requires dwell > 0.0
    ensures x * dwell >= 0.0 <==> x >= 0.0
  {
  }

  /** The time from the first change after the first `from` operations to the last. */
  function Span(p: Policy, ops: seq<Op>, from: nat, symbol: string): real
    requires symbol in After(p, ops).lastChange && FirstChange(p, ops, from, symbol).Some?
  {
    After(p, ops).lastChange[symbol] - FirstChange(p, ops, from, symbol).value.at
  }

  /** In any window of an unforced run in which a symbol's level changes, it changes at most 2 + 3 * floor(T / dwell)
      times, two more if the window opens with a downgrade. T is the time from the window's first change to its last,
      dwell the shorter downgrade dwell. */
  lemma ChangesAreBounded(p: Policy, ops: seq<Op>, from: nat, symbol: string)
    requires Sound(p) && Unforced(ops) && from <= |ops| && Changes(p, ops, from, symbol) > 0
    ensures FirstChange(p, ops, from, symbol).Some? && symbol in After(p, ops).lastChange
    ensures Span(p, ops, from, symbol) >= 0.0
    ensures Changes(p, ops, from, symbol)
            <= Allowed(Span(p, ops, from, symbol), LeastDwell(p))
               + if FirstChange(p, ops, from, symbol).value.lowered then 2 else 0
  {
    RankBudget(p, ops, from, symbol);
    TimeBudget(p, ops, from, symbol);
    WithinAllowed(Changes(p, ops, from, symbol), RankAfter(p, ops[..from], symbol), RankAfter(p, ops, symbol),
                  Downgrades(p, ops, from, symbol), FirstChange(p, ops, from, symbol).value, Span(p, ops, from, symbol),
                  LeastDwell(p));
  }

  /** Over a whole run with the default dwells: 2 + 3 * floor(T / 30), since a symbol starts cold. */
  lemma DefaultBound(ops: seq<Op>, symbol: string)
    requires Unforced(ops) && symbol in After(DEFAULT_POLICY, ops).lastChange
    ensures FirstChange(DEFAULT_POLICY, ops, 0, symbol).Some?
    ensures Changes(DEFAULT_POLICY, ops, 0, symbol) <= Allowed(Span(DEFAULT_POLICY, ops, 0, symbol), 30.0)
  {
    ChangeIsRecorded(DEFAULT_POLICY, ops, symbol);
    RankBudget(DEFAULT_POLICY, ops, 0, symbol);
    assert RankAfter(DEFAULT_POLICY, ops[..0], symbol) == 0;
    assert LeastDwell(DEFAULT_POLICY) == 30.0;
    ChangesAreBounded(DEFAULT_POLICY, ops, 0, symbol);
  }
}
