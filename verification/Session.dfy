/** The cash-session calendar in UTC+8 (market_data/session.py): the day loop measures the session's time. */
module Session {
  import opened Common
  import opened Market

  const SECOND: int := 1_000_000
  const HOUR: int := 3_600_000_000
  const DAY: int := 86_400_000_000
  const WEEK: int := 604_800_000_000
  const OFFSET: int := 28_800_000_000

  const MORNING_OPEN: int := 34_200_000_000
  const MORNING_CLOSE: int := 41_400_000_000
  const AFTERNOON_OPEN: int := 46_800_000_000
  const AFTERNOON_CLOSE: int := 54_000_000_000

  const WINDOWS: seq<(int, int)> := [(MORNING_OPEN, MORNING_CLOSE), (AFTERNOON_OPEN, AFTERNOON_CLOSE)]

  /** The UTC+8 calendar day of a moment, as a day number: 1970-01-01 is day 0. */
  function DayOf(t: Ticks): int {
    (t + OFFSET) / DAY
  }

  function Midnight(day: int): Ticks {
    day * DAY - OFFSET
  }

  /** Monday is 0; day 0 was a Thursday. */
  function Weekday(day: int): int {
    (day + 3) % 7
  }

  predicate IsSameSession(left: Ticks, right: Ticks) {
    DayOf(left) == DayOf(right)
  }

  /** The moments that count: 09:30-11:30 and 13:00-15:00 on weekdays. */
  predicate InSession(t: Ticks) {
    var day := DayOf(t);
    var clock := t - Midnight(day);
    Weekday(day) < 5 && (MORNING_OPEN <= clock < MORNING_CLOSE || AFTERNOON_OPEN <= clock < AFTERNOON_CLOSE)
  }

  // ---- Counting moments ----

  /** How many moments of a..b (b excluded) satisfy p. */
  function Count(p: int -> bool, a: int, b: int): nat
    decreases b - a
  {
    if b <= a then 0 else Count(p, a, b - 1) + if p(b - 1) then 1 else 0
  }

  lemma {:induction false} CountSplit(p: int -> bool, a: int, m: int, b: int)
    requires a <= m <= b
    ensures Count(p, a, b) == Count(p, a, m) + Count(p, m, b)
    decreases b - m
  {
    if m < b {
      CountSplit(p, a, m, b - 1);
    }
  }

  lemma {:induction false} CountBounded(p: int -> bool, a: int, b: int)
    requires a <= b
    ensures Count(p, a, b) <= b - a
    decreases b - a
  {
    if a < b {
      CountBounded(p, a, b - 1);
    }
  }

  lemma {:induction false} CountNone(p: int -> bool, a: int, b: int)
    requires forall t :: a <= t < b ==> !p(t)
    ensures Count(p, a, b) == 0
    decreases b - a
  {
    if a < b {
      CountNone(p, a, b - 1);
    }
  }

  lemma {:induction false} CountEither(p: int -> bool, q: int -> bool, r: int -> bool, a: int, b: int)
    requires forall t :: a <= t < b ==> (r(t) <==> p(t) || q(t)) && !(p(t) && q(t))
    ensures Count(r, a, b) == Count(p, a, b) + Count(q, a, b)
    decreases b - a
  {
    if a < b {
      CountEither(p, q, r, a, b - 1);
    }
  }

  /** The part of a window that lies between two moments. */
  function Overlap(open: int, close: int, a: int, b: int): int {
    Max(0, Min(b, close) - Max(a, open))
  }

  lemma {:induction false} CountWindow(open: int, close: int, p: int -> bool, a: int, b: int)
    requires a <= b && open <= close
    requires forall t :: a <= t < b ==> (p(t) <==> open <= t < close)
    ensures Count(p, a, b) == Overlap(open, close, a, b)
    decreases b - a
  {
    if a < b {
      CountWindow(open, close, p, a, b - 1);
    }
  }

  // ---- The measure of the session ----

  /** Session time between two moments in order. */
  function Measure(a: Ticks, b: Ticks): nat {
    Count(t => InSession(t), a, b)
  }

  function DayOverlap(day: int, a: Ticks, b: Ticks): int {
    if Weekday(day) < 5 then
      Overlap(Midnight(day) + MORNING_OPEN, Midnight(day) + MORNING_CLOSE, a, b)
      + Overlap(Midnight(day) + AFTERNOON_OPEN, Midnight(day) + AFTERNOON_CLOSE, a, b)
    else 0
  }

  lemma DayIs(t: Ticks, day: int)
    requires Midnight(day) <= t < Midnight(day + 1)
    ensures DayOf(t) == day
  {
  }

  /** Inside one day the session is its windows. */
  lemma DayMeasure(day: int, a: Ticks, b: Ticks)
    requires Midnight(day) <= a <= b <= Midnight(day + 1)
    ensures Measure(a, b) == DayOverlap(day, a, b)
  {
    var m := Midnight(day);
    var p := t => InSession(t);
    forall t | a <= t < b
      ensures DayOf(t) == day
    {
      DayIs(t, day);
    }
    if Weekday(day) < 5 {
      var morning := (t: int) => m + MORNING_OPEN <= t < m + MORNING_CLOSE;
      var afternoon := (t: int) => m + AFTERNOON_OPEN <= t < m + AFTERNOON_CLOSE;
      CountWindow(m + MORNING_OPEN, m + MORNING_CLOSE, morning, a, b);
      CountWindow(m + AFTERNOON_OPEN, m + AFTERNOON_CLOSE, afternoon, a, b);
      CountEither(morning, afternoon, p, a, b);
    } else {
      CountNone(p, a, b);
    }
  }

  function Clamp(t: int, a: int, b: int): int {
    Max(a, Min(t, b))
  }

  /** One day's contribution to an interval: the interval is cut at the day's limits first. */
  lemma DayStep(day: int, a: Ticks, b: Ticks)
    requires a <= b
    ensures var from, to := Clamp(Midnight(day), a, b), Clamp(Midnight(day + 1), a, b);
            Measure(a, to) == Measure(a, from) + DayOverlap(day, a, b)
  {
    var from, to := Clamp(Midnight(day), a, b), Clamp(Midnight(day + 1), a, b);
    CountSplit(t => InSession(t), a, from, to);
    if from < to {
      DayMeasure(day, from, to);
    }
    DayOverlapInside(day, a, b, from, to);
  }

  lemma DayOverlapInside(day: int, a: Ticks, b: Ticks, from: Ticks, to: Ticks)
    requires a <= b && from == Clamp(Midnight(day), a, b) && to == Clamp(Midnight(day + 1), a, b)
    ensures DayOverlap(day, a, b) == if from < to then DayOverlap(day, from, to) else 0
  {
  }

  /** Session time between two moments in either order. */
  function SessionTime(x: Ticks, y: Ticks): nat {
    Measure(Min(x, y), Max(x, y))
  }

  datatype Instant = Finite(at: Ticks) | NonFinite

  /** The day loop. Its result, in ticks, is the session time between the two moments. */
  method CashSessionOverlap(start: Instant, end: Instant) returns (total: int)
    ensures total == if start.Finite? && end.Finite? then SessionTime(start.at, end.at) else 0
  {
    if !start.Finite? || !end.Finite? {
      return 0;
    }
    var a, b := start.at, end.at;
    if b < a {
      a, b := b, a;
    }
    if a == b {
      return 0;
    }
    total := AddDays(a, b);
  }

  /** The outer loop, from the first day to the last. */
  method AddDays(a: Ticks, b: Ticks) returns (total: int)
    requires a < b
    ensures total == Measure(a, b)
  {
    total := 0;
    var day := DayOf(a);
    var last := DayOf(b);
    ClampEnds(a, b);
    while day <= last
      invariant DayOf(a) <= day <= last + 1
      invariant total == Measure(a, Clamp(Midnight(day), a, b))
    {
      DayStep(day, a, b);
      if Weekday(day) < 5 {
        total := AddWindows(Midnight(day), a, b, total);
      }
      day := day + 1;
    }
  }

  lemma ClampEnds(a: Ticks, b: Ticks)
    requires a < b
    ensures Clamp(Midnight(DayOf(a)), a, b) == a && Clamp(Midnight(DayOf(b) + 1), a, b) == b && DayOf(a) <= DayOf(b)
  {
  }

  /** The inner loop: each window's part of the interval, if there is one. */
  method AddWindows(midnight: Ticks, a: Ticks, b: Ticks, sum: int) returns (total: int)
    ensures total == sum + Overlap(midnight + MORNING_OPEN, midnight + MORNING_CLOSE, a, b)
                         + Overlap(midnight + AFTERNOON_OPEN, midnight + AFTERNOON_CLOSE, a, b)
  {
    total := sum;
    for w := 0 to |WINDOWS|
      invariant total == sum + (if w > 0 then Overlap(midnight + MORNING_OPEN, midnight + MORNING_CLOSE, a, b) else 0)
                             + (if w > 1 then Overlap(midnight + AFTERNOON_OPEN, midnight + AFTERNOON_CLOSE, a, b)
                                else 0)
    {
      var left, right := Max(a, midnight + WINDOWS[w].0), Min(b, midnight + WINDOWS[w].1);
      if right > left {
        total := total + (right - left);
      }
    }
  }

  // ---- Laws ----

  lemma SessionTimeLaws(x: Ticks, y: Ticks)
    ensures SessionTime(x, y) == SessionTime(y, x)
    ensures SessionTime(x, x) == 0
    ensures SessionTime(x, y) <= Max(x, y) - Min(x, y)
  {
    CountBounded(t => InSession(t), Min(x, y), Max(x, y));
  }

  lemma SessionTimeAdds(x: Ticks, y: Ticks, z: Ticks)
    requires x <= y <= z
    ensures SessionTime(x, z) == SessionTime(x, y) + SessionTime(y, z)
  {
    CountSplit(t => InSession(t), x, y, z);
  }

  lemma WeekLater(t: Ticks)
    ensures DayOf(t + WEEK) == DayOf(t) + 7
    ensures InSession(t + WEEK) == InSession(t)
  {
    var day := DayOf(t);
    assert Midnight(day) <= t < Midnight(day + 1);
    assert Midnight(day + 7) <= t + WEEK < Midnight(day + 8);
    DayIs(t + WEEK, day + 7);
  }

  lemma WeekSlides(a: Ticks)
    ensures Measure(a + 1, a + 1 + WEEK) == Measure(a, a + WEEK)
  {
    var p := t => InSession(t);
    WeekLater(a);
    CountSplit(p, a, a + 1, a + WEEK);
    CountSplit(p, a + 1, a + WEEK, a + 1 + WEEK);
  }

  lemma {:induction false} WeekAnywhere(a: Ticks, b: Ticks)
    requires a <= b
    ensures Measure(a, a + WEEK) == Measure(b, b + WEEK)
    decreases b - a
  {
    if a < b {
      WeekAnywhere(a, b - 1);
      WeekSlides(b - 1);
    }
  }

  /** The first n days from day 4, a Monday. */
  lemma {:induction false} DaysFromMonday(n: nat)
    requires n <= 7
    ensures Measure(Midnight(4), Midnight(4 + n)) == (if n < 5 then n else 5) * 4 * HOUR
  {
    if n > 0 {
      DaysFromMonday(n - 1);
      CountSplit(t => InSession(t), Midnight(4), Midnight(3 + n), Midnight(4 + n));
      WholeDay(3 + n);
    }
  }

  lemma WholeDay(day: int)
    requires 4 <= day <= 10
    ensures Measure(Midnight(day), Midnight(day + 1)) == if day <= 8 then 4 * HOUR else 0
  {
    DayMeasure(day, Midnight(day), Midnight(day + 1));
  }

  /** Any span of exactly seven days holds 72000 seconds of session. */
  lemma SevenDays(a: Ticks)
    ensures SessionTime(a, a + WEEK) == 72_000 * SECOND
  {
    DaysFromMonday(7);
    if a <= Midnight(4) {
      WeekAnywhere(a, Midnight(4));
    } else {
      WeekAnywhere(Midnight(4), a);
    }
  }

  /** A session day is half open and one day long, so nothing outside it shares its session. */
  lemma SameSessionMeaning(left: Ticks, right: Ticks)
    ensures IsSameSession(left, right) <==> Midnight(DayOf(left)) <= right < Midnight(DayOf(left) + 1)
  {
    if Midnight(DayOf(left)) <= right < Midnight(DayOf(left) + 1) {
      DayIs(right, DayOf(left));
    }
  }

  /** In UTC: the session is open on weekdays, from 01:30 to 03:30 and from 05:00 to 07:00. */
  lemma SessionInUtc(t: Ticks)
    ensures var clock := t % 86_400_000_000;
            InSession(t)
            <==> && (t / 86_400_000_000 + 3) % 7 < 5
                 && (5_400_000_000 <= clock < 12_600_000_000 || 18_000_000_000 <= clock < 25_200_000_000)
  {
    var day, clock := t / DAY, t % DAY;
    assert t == day * DAY + clock;
    if clock < DAY - OFFSET {
      DayIs(t, day);
    } else {
      DayIs(t, day + 1);
    }
  }

  /** A session day turns at 16:00 UTC. */
  lemma DayTurnsAtFour(t: Ticks)
    ensures IsSameSession(t - 1, t) <==> t % 86_400_000_000 != 57_600_000_000
  {
    var day, clock := t / DAY, t % DAY;
    assert t == day * DAY + clock;
    if clock < DAY - OFFSET {
      DayIs(t, day);
      DayIs(t - 1, day);
    } else {
      DayIs(t, day + 1);
      DayIs(t - 1, if clock == DAY - OFFSET then day else day + 1);
    }
  }
}
