/** Sorting snapshots by time, as a stable library sort does it. */
module TimeSort {
  import opened Common
  import opened Market

  function InsertByTime(s: seq<Snapshot>, x: Snapshot): (r: seq<Snapshot>)
    ensures r != []
  {
    if s == [] || Last(s).time <= x.time then s + [x]
    else InsertByTime(s[..|s| - 1], x) + [Last(s)]
  }

  /** Earliest first; snapshots of the same time stay in order of arrival. */
  function SortByTime(s: seq<Snapshot>): (r: seq<Snapshot>)
    ensures s != [] ==> r != []
  {
    if s == [] then [] else InsertByTime(SortByTime(s[..|s| - 1]), Last(s))
  }

  predicate TimeOrdered(s: seq<Snapshot>) {
    forall i, j :: 0 <= i < j < |s| ==> s[i].time <= s[j].time
  }

  lemma OrderedAppend(s: seq<Snapshot>, x: Snapshot)
    requires TimeOrdered(s) && (s == [] || Last(s).time <= x.time)
    ensures TimeOrdered(s + [x])
  {
    forall i | 0 <= i < |s|
      ensures s[i].time <= x.time
    {
      assert s[i].time <= Last(s).time;
    }
  }

  lemma {:induction false} InsertByTimeKeeps(s: seq<Snapshot>, x: Snapshot)
    ensures multiset(InsertByTime(s, x)) == multiset(s) + multiset{x}
  {
    if s != [] && Last(s).time > x.time {
      var front := s[..|s| - 1];
      assert s == front + [Last(s)];
      InsertByTimeKeeps(front, x);
    }
  }

  /** The newest time after an insertion. */
  function Newest(s: seq<Snapshot>, x: Snapshot): Ticks {
    if s == [] || Last(s).time <= x.time then x.time else Last(s).time
  }

  lemma {:induction false} InsertByTimeOrders(s: seq<Snapshot>, x: Snapshot)
    requires TimeOrdered(s)
    ensures TimeOrdered(InsertByTime(s, x)) && Last(InsertByTime(s, x)).time == Newest(s, x)
  {
    if s == [] || Last(s).time <= x.time {
      OrderedAppend(s, x);
    } else {
      var front := s[..|s| - 1];
      InsertByTimeOrders(front, x);
      assert front != [] ==> Last(front).time <= Last(s).time;
      OrderedAppend(InsertByTime(front, x), Last(s));
    }
  }

  predicate At(x: Snapshot, t: Ticks) {
    x.time == t
  }

  function OfTime(s: seq<Snapshot>, t: Ticks): seq<Snapshot> {
    Filter(s, (x: Snapshot) => At(x, t))
  }

  lemma OfTimeAppend(s: seq<Snapshot>, x: Snapshot, t: Ticks)
    ensures OfTime(s + [x], t) == if At(x, t) then OfTime(s, t) + [x] else OfTime(s, t)
  {
    FilterConcat(s, [x], (x: Snapshot) => At(x, t));
    assert [x][1..] == [];
  }

  lemma {:induction false} InsertByTimeStable(s: seq<Snapshot>, x: Snapshot, t: Ticks)
    requires TimeOrdered(s)
    ensures OfTime(InsertByTime(s, x), t) == if At(x, t) then OfTime(s, t) + [x] else OfTime(s, t)
  {
    if s == [] || Last(s).time <= x.time {
      OfTimeAppend(s, x, t);
    } else {
      var front := s[..|s| - 1];
      assert s == front + [Last(s)];
      InsertByTimeStable(front, x, t);
      OfTimeAppend(InsertByTime(front, x), Last(s), t);
      OfTimeAppend(front, Last(s), t);
    }
  }

  lemma {:induction false} SortByTimeLaws(s: seq<Snapshot>, t: Ticks)
    ensures TimeOrdered(SortByTime(s))
    ensures multiset(SortByTime(s)) == multiset(s)
    ensures OfTime(SortByTime(s), t) == OfTime(s, t)
  {
    if s != [] {
      var front := s[..|s| - 1];
      assert s == front + [Last(s)];
      SortByTimeLaws(front, t);
      InsertByTimeKeeps(SortByTime(front), Last(s));
      InsertByTimeOrders(SortByTime(front), Last(s));
      InsertByTimeStable(SortByTime(front), Last(s), t);
      OfTimeAppend(front, Last(s), t);
    }
  }
}
