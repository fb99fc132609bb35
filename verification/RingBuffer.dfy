/** The bounded time index of one symbol's snapshots (market_data/ring_buffer.py) against an unbounded log. */
module RingBuffer {
  import opened Common
  import opened Market

  predicate Sorted(s: seq<Snapshot>) {
    forall i, j :: 0 <= i < j < |s| ==> s[i].time < s[j].time
  }

  // ---- Binary search, as the bisect library defines it ----

  /** The first position whose time is at least t. */
  function BisectLeft(s: seq<Snapshot>, t: Ticks): (i: nat)
    ensures i <= |s|
    ensures forall j :: 0 <= j < i ==> s[j].time < t
    ensures i < |s| ==> s[i].time >= t
  {
    if s == [] || s[0].time >= t then 0
    else
      var i := BisectLeft(s[1..], t);
      assert forall j :: 1 <= j < 1 + i ==> s[j] == s[1..][j - 1];
      1 + i
  }

  /** The first position whose time is greater than t. */
  function BisectRight(s: seq<Snapshot>, t: Ticks): (i: nat)
    ensures i <= |s|
    ensures forall j :: 0 <= j < i ==> s[j].time <= t
    ensures i < |s| ==> s[i].time > t
  {
    if s == [] || s[0].time > t then 0
    else
      var i := BisectRight(s[1..], t);
      assert forall j :: 1 <= j < 1 + i ==> s[j] == s[1..][j - 1];
      1 + i
  }

  // ---- The unbounded log ----

  /** Adds a snapshot at its place; one with the same time is replaced. */
  function Insert(s: seq<Snapshot>, x: Snapshot): seq<Snapshot> {
    PutAt(s, x, BisectLeft(s, x.time))
  }

  function PutAt(s: seq<Snapshot>, x: Snapshot, i: nat): seq<Snapshot>
    requires i <= |s|
  {
    if i < |s| && s[i].time == x.time then s[i := x] else s[..i] + [x] + s[i..]
  }

  /** Every snapshot ever appended, in time order, the last write winning. */
  function Log(history: seq<Snapshot>): seq<Snapshot> {
    if history == [] then [] else Insert(Log(history[..|history| - 1]), Last(history))
  }

  function LastWritten(history: seq<Snapshot>, t: Ticks): Option<Snapshot> {
    if history == [] then None
    else if Last(history).time == t then Some(Last(history))
    else LastWritten(history[..|history| - 1], t)
  }

  lemma InsertMeaning(s: seq<Snapshot>, x: Snapshot)
    requires Sorted(s)
    ensures Sorted(Insert(s, x))
    ensures forall y :: y in Insert(s, x) <==> y == x || (y in s && y.time != x.time)
  {
    var i := BisectLeft(s, x.time);
    if i < |s| && s[i].time == x.time {
      Replaced(s, x, i);
    } else {
      forall j | i <= j < |s|
        ensures s[j].time > x.time
      {
        assert s[i].time <= s[j].time;
      }
      Inserted(s, x, i);
    }
  }

  lemma Replaced(s: seq<Snapshot>, x: Snapshot, i: nat)
    requires Sorted(s) && i < |s| && s[i].time == x.time
    ensures Sorted(s[i := x])
    ensures forall y :: y in s[i := x] <==> y == x || (y in s && y.time != x.time)
  {
    var r := s[i := x];
    assert r[i] == x;
    forall y | y in s && y.time != x.time
      ensures y in r
    {
      var j :| 0 <= j < |s| && s[j] == y;
      assert r[j] == y;
    }
  }

  lemma Inserted(s: seq<Snapshot>, x: Snapshot, i: nat)
    requires Sorted(s) && i <= |s|
    requires forall j :: 0 <= j < i ==> s[j].time < x.time
    requires forall j :: i <= j < |s| ==> s[j].time > x.time
    ensures Sorted(s[..i] + [x] + s[i..])
    ensures forall y :: y in s[..i] + [x] + s[i..] <==> y == x || (y in s && y.time != x.time)
  {
    assert s == s[..i] + s[i..];
  }

  /** The log holds, for each time ever written, the snapshot written last, and holds them in strict time order. */
  lemma {:induction false} LogMeaning(history: seq<Snapshot>)
    ensures Sorted(Log(history))
    ensures forall x :: x in Log(history) <==> LastWritten(history, x.time) == Some(x)
  {
    if history != [] {
      LogMeaning(history[..|history| - 1]);
      InsertMeaning(Log(history[..|history| - 1]), Last(history));
    }
  }

  // ---- The bound ----

  datatype Bounds = Bounds(retention: int, maxSize: int) {
    predicate Valid() {
      retention > 0 && maxSize > 0
    }
  }

  /** How many of the oldest items fall outside the retention or the size limit. */
  function Cut(b: Bounds, s: seq<Snapshot>): (k: int)
    requires b.Valid() && s != []
    ensures 0 <= k <= |s|
  {
    var gone := BisectLeft(s, Last(s).time - b.retention);
    if |s| - gone > b.maxSize then |s| - b.maxSize else gone
  }

  function Recent(b: Bounds, s: seq<Snapshot>): seq<Snapshot>
    requires b.Valid()
  {
    if s == [] then [] else s[Cut(b, s)..]
  }

  /** A cut that keeps at most maxSize items within the retention and could not be smaller is the cut. */
  lemma CutUnique(b: Bounds, s: seq<Snapshot>, k: nat)
    requires b.Valid() && Sorted(s) && k < |s|
    requires |s| - k <= b.maxSize && s[k].time >= Last(s).time - b.retention
    requires k == 0 || |s| - k == b.maxSize || s[k - 1].time < Last(s).time - b.retention
    ensures Cut(b, s) == k
  {
    var gone := BisectLeft(s, Last(s).time - b.retention);
    assert gone <= k;
  }

  lemma CutFacts(b: Bounds, s: seq<Snapshot>)
    requires b.Valid() && Sorted(s) && s != []
    ensures var k := Cut(b, s);
            && k < |s| && |s| - k <= b.maxSize && s[k].time >= Last(s).time - b.retention
            && (k == 0 || |s| - k == b.maxSize || s[k - 1].time < Last(s).time - b.retention)
  {
  }

  /** The items kept are the maxSize newest that lie within the retention of the newest. */
  lemma RecentMeaning(b: Bounds, s: seq<Snapshot>, i: nat)
    requires b.Valid() && Sorted(s) && i < |s|
    ensures s[i] in Recent(b, s) <==> s[i].time >= Last(s).time - b.retention && |s| - i <= b.maxSize
  {
    var k := Cut(b, s);
    CutFacts(b, s);
    if s[i] in s[k..] {
      var j :| 0 <= j < |s[k..]| && s[k..][j] == s[i];
      assert s[k + j].time == s[i].time;
      assert k + j == i;
    }
    if i >= k {
      assert s[k..][i - k] == s[i];
    }
  }

  lemma PutAfter(gone: seq<Snapshot>, later: seq<Snapshot>, x: Snapshot, j: nat)
    requires j <= |later|
    ensures PutAt(gone + later, x, |gone| + j) == gone + PutAt(later, x, j)
  {
    var s := gone + later;
    assert j < |later| ==> s[|gone| + j] == later[j];
    assert s[..|gone| + j] == gone + later[..j];
    assert s[|gone| + j..] == later[j..];
  }

  lemma PutBefore(gone: seq<Snapshot>, later: seq<Snapshot>, x: Snapshot, i: nat)
    requires i < |gone|
    ensures PutAt(gone + later, x, i) == PutAt(gone, x, i) + later
  {
    var s := gone + later;
    assert s[i] == gone[i];
    assert s[..i] == gone[..i];
    assert s[i..] == gone[i..] + later;
  }

  lemma BisectUnique(s: seq<Snapshot>, t: Ticks, i: nat)
    requires i <= |s| && (forall j :: 0 <= j < i ==> s[j].time < t) && (i < |s| ==> s[i].time >= t)
    ensures BisectLeft(s, t) == i
  {
  }

  lemma {:induction false} BisectAfter(gone: seq<Snapshot>, later: seq<Snapshot>, t: Ticks)
    requires forall j :: 0 <= j < |gone| ==> gone[j].time < t
    ensures BisectLeft(gone + later, t) == |gone| + BisectLeft(later, t)
  {
    if gone == [] {
      assert gone + later == later;
    } else {
      BisectAfter(gone[1..], later, t);
      assert (gone + later)[1..] == gone[1..] + later;
    }
  }

  lemma BisectBefore(gone: seq<Snapshot>, later: seq<Snapshot>, t: Ticks)
    requires gone != [] && t <= Last(gone).time
    ensures BisectLeft(gone, t) < |gone| && BisectLeft(gone + later, t) == BisectLeft(gone, t)
  {
    BisectUnique(gone + later, t, BisectLeft(gone, t));
  }

  lemma InsertAfter(gone: seq<Snapshot>, later: seq<Snapshot>, x: Snapshot)
    requires Sorted(gone) && (gone == [] || Last(gone).time < x.time)
    ensures Insert(gone + later, x) == gone + Insert(later, x)
  {
    BisectAfter(gone, later, x.time);
    PutAfter(gone, later, x, BisectLeft(later, x.time));
  }

  lemma InsertBefore(gone: seq<Snapshot>, later: seq<Snapshot>, x: Snapshot)
    requires gone != [] && x.time <= Last(gone).time
    ensures Insert(gone + later, x) == Insert(gone, x) + later
    ensures Insert(gone, x) != [] && Last(Insert(gone, x)).time == Last(gone).time
  {
    BisectBefore(gone, later, x.time);
    PutBefore(gone, later, x, BisectLeft(gone, x.time));
  }

  lemma InsertGrows(s: seq<Snapshot>, x: Snapshot)
    requires Sorted(s)
    ensures |Insert(s, x)| >= |s| && Insert(s, x) != []
    ensures s != [] ==> Last(Insert(s, x)).time >= Last(s).time
  {
  }

  /** `kept` is the part of gone + kept within the bounds. */
  predicate IsCut(b: Bounds, gone: seq<Snapshot>, kept: seq<Snapshot>) {
    && kept != [] && Sorted(gone) && Sorted(kept) && Sorted(gone + kept)
    && |kept| <= b.maxSize && kept[0].time >= Last(kept).time - b.retention
    && (gone == [] || |kept| == b.maxSize || Last(gone).time < Last(kept).time - b.retention)
  }

  lemma CutSplits(b: Bounds, s: seq<Snapshot>) returns (gone: seq<Snapshot>, kept: seq<Snapshot>)
    requires b.Valid() && Sorted(s) && s != []
    ensures s == gone + kept && kept == Recent(b, s) && IsCut(b, gone, kept)
  {
    var k := Cut(b, s);
    CutFacts(b, s);
    gone, kept := s[..k], s[k..];
    assert s == gone + kept;
    assert Last(kept) == Last(s);
    assert k > 0 ==> Last(gone) == s[k - 1];
  }

  /** Bounding before an insertion changes nothing that bounding after it would keep. */
  lemma BoundThenInsert(b: Bounds, s: seq<Snapshot>, x: Snapshot)
    requires b.Valid() && Sorted(s)
    ensures Recent(b, Insert(Recent(b, s), x)) == Recent(b, Insert(s, x))
  {
    if s != [] {
      var gone, kept := CutSplits(b, s);
      InsertSplit(b, gone, kept, x);
    }
  }

  lemma InsertSplit(b: Bounds, gone: seq<Snapshot>, kept: seq<Snapshot>, x: Snapshot)
    requires b.Valid() && IsCut(b, gone, kept)
    ensures Recent(b, Insert(kept, x)) == Recent(b, Insert(gone + kept, x))
  {
    if gone == [] || Last(gone).time < x.time {
      InsertInside(b, gone, kept, x);
    } else {
      InsertOutside(b, gone, kept, x);
    }
  }

  lemma InsertInside(b: Bounds, gone: seq<Snapshot>, kept: seq<Snapshot>, x: Snapshot)
    requires b.Valid() && IsCut(b, gone, kept)
    requires gone == [] || Last(gone).time < x.time
    ensures Recent(b, Insert(kept, x)) == Recent(b, Insert(gone + kept, x))
  {
    InsideFacts(gone, kept, x);
    CutAfter(b, gone, Insert(kept, x));
  }

  lemma InsideFacts(gone: seq<Snapshot>, kept: seq<Snapshot>, x: Snapshot)
    requires Sorted(gone + kept) && Sorted(gone) && Sorted(kept) && kept != []
    requires gone == [] || Last(gone).time < x.time
    ensures var later := Insert(kept, x);
            && Insert(gone + kept, x) == gone + later
            && Sorted(gone + later) && Sorted(later) && later != []
            && |later| >= |kept| && Last(later).time >= Last(kept).time
  {
    InsertMeaning(gone + kept, x);
    InsertMeaning(kept, x);
    InsertAfter(gone, kept, x);
    InsertGrows(kept, x);
  }

  lemma InsertOutside(b: Bounds, gone: seq<Snapshot>, kept: seq<Snapshot>, x: Snapshot)
    requires b.Valid() && IsCut(b, gone, kept)
    requires gone != [] && x.time <= Last(gone).time
    ensures Recent(b, Insert(kept, x)) == Recent(b, Insert(gone + kept, x))
  {
    OutsideFacts(gone, kept, x);
    CutBefore(b, Insert(gone, x), kept);
    CutBefore(b, [x], kept);
  }

  lemma OutsideFacts(gone: seq<Snapshot>, kept: seq<Snapshot>, x: Snapshot)
    requires Sorted(gone + kept) && gone != [] && kept != [] && x.time <= Last(gone).time
    ensures var front := Insert(gone, x);
            && Insert(gone + kept, x) == front + kept
            && front != [] && Last(front).time == Last(gone).time && Sorted(front + kept)
    ensures Insert(kept, x) == [x] + kept && Sorted([x] + kept)
  {
    var s := gone + kept;
    assert s[|gone| - 1] == Last(gone);
    assert forall m :: 0 <= m < |kept| ==> s[|gone| + m] == kept[m];
    InsertMeaning(s, x);
    InsertBefore(gone, kept, x);
    InsertFirst(kept, x);
  }

  lemma InsertFirst(kept: seq<Snapshot>, x: Snapshot)
    requires kept != [] && x.time < kept[0].time && Sorted(kept)
    ensures Insert(kept, x) == [x] + kept && Sorted([x] + kept)
  {
  }

  lemma CutAfter(b: Bounds, gone: seq<Snapshot>, later: seq<Snapshot>)
    requires b.Valid() && later != [] && Sorted(gone + later) && Sorted(later)
    requires gone == [] || |later| >= b.maxSize || Last(gone).time < Last(later).time - b.retention
    ensures Recent(b, later) == Recent(b, gone + later)
  {
    CutFacts(b, later);
    CutShift(b, gone, later, Cut(b, later));
    SameRecent(b, gone, later, gone + later, Cut(b, later));
  }

  lemma SameRecent(b: Bounds, gone: seq<Snapshot>, later: seq<Snapshot>, all: seq<Snapshot>, c: nat)
    requires b.Valid() && later != [] && all == gone + later
    requires Cut(b, later) == c && Cut(b, all) == |gone| + c
    ensures Recent(b, later) == Recent(b, all)
  {
    RecentIs(b, later, c);
    RecentIs(b, all, |gone| + c);
    DropInside(gone, later, c);
  }

  lemma RecentIs(b: Bounds, s: seq<Snapshot>, c: nat)
    requires b.Valid() && s != [] && Cut(b, s) == c
    ensures c <= |s| && Recent(b, s) == s[c..]
  {
  }

  lemma DropInside(gone: seq<Snapshot>, later: seq<Snapshot>, c: nat)
    requires c <= |later|
    ensures (gone + later)[|gone| + c..] == later[c..]
  {
  }

  lemma CutShift(b: Bounds, gone: seq<Snapshot>, later: seq<Snapshot>, c: nat)
    requires b.Valid() && Sorted(gone + later) && c < |later|
    requires |later| - c <= b.maxSize && later[c].time >= Last(later).time - b.retention
    requires c == 0 || |later| - c == b.maxSize || later[c - 1].time < Last(later).time - b.retention
    requires c > 0 || gone == [] || |later| == b.maxSize || Last(gone).time < Last(later).time - b.retention
    ensures Cut(b, gone + later) == |gone| + c
  {
    var all := gone + later;
    assert Last(all) == Last(later) && all[|gone| + c] == later[c];
    assert c > 0 ==> all[|gone| + c - 1] == later[c - 1];
    assert c == 0 && gone != [] ==> all[|gone| - 1] == Last(gone);
    CutUnique(b, all, |gone| + c);
  }

  lemma CutBefore(b: Bounds, front: seq<Snapshot>, kept: seq<Snapshot>)
    requires b.Valid() && kept != [] && front != [] && Sorted(front + kept)
    requires |kept| <= b.maxSize && kept[0].time >= Last(kept).time - b.retention
    requires |kept| == b.maxSize || Last(front).time < Last(kept).time - b.retention
    ensures Recent(b, front + kept) == kept
  {
    CutShift(b, front, kept, 0);
    DropInside(front, kept, 0);
  }

  // ---- Queries ----

  function Latest(s: seq<Snapshot>): Option<Snapshot> {
    if s == [] then None else Some(Last(s))
  }

  function Since(s: seq<Snapshot>, t: Ticks): seq<Snapshot> {
    Filter(s, (x: Snapshot) => x.time >= t)
  }

  function AtOrBefore(s: seq<Snapshot>, t: Ticks): Option<Snapshot> {
    var i := BisectRight(s, t) - 1;
    if i < 0 then None else Some(s[i])
  }

  /** The answer is the newest item not later than t. */
  lemma AtOrBeforeMeaning(s: seq<Snapshot>, t: Ticks, x: Snapshot)
    requires Sorted(s)
    ensures AtOrBefore(s, t) == Some(x)
            <==> x in s && x.time <= t && forall y :: y in s && y.time <= t ==> y.time <= x.time
  {
    var i := BisectRight(s, t) - 1;
    if x in s && x.time <= t && forall y :: y in s && y.time <= t ==> y.time <= x.time {
      var j :| 0 <= j < |s| && s[j] == x;
      assert j <= i;
      assert s[i] in s;
    }
  }

  lemma {:induction false} BisectRightAfter(gone: seq<Snapshot>, kept: seq<Snapshot>, t: Ticks)
    requires forall j :: 0 <= j < |gone| ==> gone[j].time <= t
    ensures BisectRight(gone + kept, t) == |gone| + BisectRight(kept, t)
  {
    if gone == [] {
      assert gone + kept == kept;
    } else {
      BisectRightAfter(gone[1..], kept, t);
      assert (gone + kept)[1..] == gone[1..] + kept;
    }
  }

  lemma LookupInside(gone: seq<Snapshot>, kept: seq<Snapshot>, t: Ticks)
    requires Sorted(gone + kept) && kept != [] && t >= kept[0].time
    ensures AtOrBefore(gone + kept, t) == AtOrBefore(kept, t)
  {
    forall j | 0 <= j < |gone|
      ensures gone[j].time <= t
    {
      assert (gone + kept)[j].time < (gone + kept)[|gone|].time;
    }
    BisectRightAfter(gone, kept, t);
  }

  /** The buffer answers exactly for times not before its oldest item, and then as the whole log would. */
  lemma BoundedLookup(b: Bounds, s: seq<Snapshot>, t: Ticks)
    requires b.Valid() && Sorted(s)
    ensures AtOrBefore(Recent(b, s), t)
            == if s != [] && t >= Recent(b, s)[0].time then AtOrBefore(s, t) else None
  {
    if s != [] {
      var k := Cut(b, s);
      CutFacts(b, s);
      assert s == s[..k] + s[k..];
      if t >= s[k..][0].time {
        LookupInside(s[..k], s[k..], t);
      }
    }
  }

  lemma {:induction false} SinceNone(s: seq<Snapshot>, t: Ticks)
    requires forall x :: x in s ==> x.time < t
    ensures Since(s, t) == []
  {
    if s != [] {
      SinceNone(s[1..], t);
    }
  }

  lemma SinceSplit(gone: seq<Snapshot>, kept: seq<Snapshot>, t: Ticks)
    ensures Since(gone + kept, t) == Since(gone, t) + Since(kept, t)
  {
    FilterConcat(gone, kept, (x: Snapshot) => x.time >= t);
  }

  /** A range query loses nothing to the bound exactly when it starts after every item cut off. */
  lemma BoundedSince(b: Bounds, s: seq<Snapshot>, t: Ticks)
    requires b.Valid() && Sorted(s) && s != []
    ensures Since(Recent(b, s), t) == Since(s, t) <==> Cut(b, s) == 0 || s[Cut(b, s) - 1].time < t
  {
    var k := Cut(b, s);
    var gone, kept := s[..k], s[k..];
    assert s == gone + kept;
    SinceFront(gone, kept, t);
  }

  lemma SinceFront(gone: seq<Snapshot>, kept: seq<Snapshot>, t: Ticks)
    requires Sorted(gone)
    ensures Since(kept, t) == Since(gone + kept, t) <==> gone == [] || Last(gone).time < t
  {
    SinceSplit(gone, kept, t);
    SinceEmpty(gone, t);
    LongerUnlessEmpty(Since(gone, t), Since(kept, t));
  }

  lemma LongerUnlessEmpty(a: seq<Snapshot>, b: seq<Snapshot>)
    ensures a + b == b <==> a == []
  {
    assert |a + b| == |a| + |b|;
  }

  lemma SinceEmpty(s: seq<Snapshot>, t: Ticks)
    requires Sorted(s)
    ensures Since(s, t) == [] <==> s == [] || Last(s).time < t
  {
    if s == [] || Last(s).time < t {
      SinceNone(s, t);
    } else {
      assert Last(s) in Since(s, t);
    }
  }

  lemma BoundedLatest(b: Bounds, s: seq<Snapshot>)
    requires b.Valid() && Sorted(s)
    ensures Latest(Recent(b, s)) == Latest(s)
  {
    if s != [] {
      CutFacts(b, s);
    }
  }

  // ---- Runs ----

  /** The buffer after a sequence of appends. */
  function Buffered(b: Bounds, history: seq<Snapshot>): seq<Snapshot>
    requires b.Valid()
  {
    if history == [] then []
    else Recent(b, Insert(Buffered(b, history[..|history| - 1]), Last(history)))
  }

  /** Whatever the order of arrival, the buffer is the recent part of the whole log. */
  lemma {:induction false} BufferIsRecentLog(b: Bounds, history: seq<Snapshot>)
    requires b.Valid()
    ensures Buffered(b, history) == Recent(b, Log(history))
    ensures Sorted(Buffered(b, history)) && |Buffered(b, history)| <= b.maxSize
  {
    LogMeaning(history);
    if history != [] {
      var before := history[..|history| - 1];
      BufferIsRecentLog(b, before);
      LogMeaning(before);
      BoundThenInsert(b, Log(before), Last(history));
      assert Buffered(b, history) == Recent(b, Log(history));
    }
    RecentIsBounded(b, Log(history));
  }

  lemma RecentIsBounded(b: Bounds, s: seq<Snapshot>)
    requires b.Valid() && Sorted(s)
    ensures Sorted(Recent(b, s)) && |Recent(b, s)| <= b.maxSize
  {
    if s != [] {
      CutFacts(b, s);
    }
  }

  /** Whenever the buffer answers a lookup it gives the last snapshot written for the newest time not after t. */
  lemma LookupIsTruth(b: Bounds, history: seq<Snapshot>, t: Ticks)
    requires b.Valid() && AtOrBefore(Buffered(b, history), t).Some?
    ensures var x := AtOrBefore(Buffered(b, history), t).value;
            && x.time <= t && LastWritten(history, x.time) == Some(x)
            && forall u :: x.time < u <= t ==> LastWritten(history, u) == None
  {
    var x := AtOrBefore(Buffered(b, history), t).value;
    BufferIsRecentLog(b, history);
    LogMeaning(history);
    BoundedLookup(b, Log(history), t);
    AtOrBeforeMeaning(Log(history), t, x);
    forall u | x.time < u <= t
      ensures LastWritten(history, u) == None
    {
      WrittenIsLogged(history, u);
    }
  }

  lemma {:induction false} WrittenTime(history: seq<Snapshot>, t: Ticks)
    ensures LastWritten(history, t).Some? ==> LastWritten(history, t).value.time == t
  {
    if history != [] && Last(history).time != t {
      WrittenTime(history[..|history| - 1], t);
    }
  }

  lemma WrittenIsLogged(history: seq<Snapshot>, t: Ticks)
    ensures var w := LastWritten(history, t);
            w.Some? ==> w.value.time == t && w.value in Log(history)
  {
    WrittenTime(history, t);
    LogMeaning(history);
  }

  lemma AppendBuffered(b: Bounds, history: seq<Snapshot>, x: Snapshot)
    requires b.Valid()
    ensures Buffered(b, history + [x]) == Recent(b, Insert(Buffered(b, history), x))
    ensures Sorted(Buffered(b, history)) && Sorted(Insert(Buffered(b, history), x))
    ensures Insert(Buffered(b, history), x) != []
  {
    BufferIsRecentLog(b, history);
    InsertMeaning(Buffered(b, history), x);
    InsertGrows(Buffered(b, history), x);
    assert (history + [x])[..|history|] == history;
  }

  /** What each query of a buffer says about the whole log. */
  lemma QueriesAreTrue(b: Bounds, history: seq<Snapshot>, t: Ticks)
    requires b.Valid()
    ensures Latest(Buffered(b, history)) == Latest(Log(history))
    ensures AtOrBefore(Buffered(b, history), t).Some? <==>
            Buffered(b, history) != [] && t >= Buffered(b, history)[0].time
    ensures AtOrBefore(Buffered(b, history), t).Some? ==>
            AtOrBefore(Buffered(b, history), t) == AtOrBefore(Log(history), t)
  {
    BufferIsRecentLog(b, history);
    LogMeaning(history);
    BoundedLatest(b, Log(history));
    BoundedLookup(b, Log(history), t);
    BufferAnswers(Buffered(b, history), t);
  }

  lemma LatestIsTrue(b: Bounds, history: seq<Snapshot>, items: seq<Snapshot>)
    requires b.Valid() && items == Buffered(b, history)
    ensures Latest(items) == Latest(Log(history))
  {
    QueriesAreTrue(b, history, 0);
  }

  lemma BufferAnswers(s: seq<Snapshot>, t: Ticks)
    requires Sorted(s)
    ensures AtOrBefore(s, t).Some? <==> s != [] && t >= s[0].time
  {
  }

  // ---- The object ----

  class Ring {
    const bounds: Bounds
    var items: seq<Snapshot>
    ghost var history: seq<Snapshot>

    ghost predicate Valid()
      reads this
    {
      bounds.Valid() && items == Buffered(bounds, history)
    }

    constructor (retention: int, maxSize: int)
      requires retention > 0 && maxSize > 0
      ensures Valid() && bounds == Bounds(retention, maxSize) && history == []
    {
      bounds := Bounds(retention, maxSize);
      items := [];
      history := [];
    }

    method Append(snapshot: Snapshot)
      requires Valid()
      modifies this
      ensures Valid() && history == old(history) + [snapshot]
    {
      AppendBuffered(bounds, history, snapshot);
      Place(snapshot);
      Evict();
      history := history + [snapshot];
    }

    method Place(snapshot: Snapshot)
      modifies this`items
      ensures items == Insert(old(items), snapshot)
    {
      var index := BisectLeft(items, snapshot.time);
      if index < |items| && items[index].time == snapshot.time {
        items := items[index := snapshot];
      } else {
        items := items[..index] + [snapshot] + items[index..];
      }
    }

    method Evict()
      requires bounds.Valid() && Sorted(items) && items != []
      modifies this`items
      ensures items == Recent(bounds, old(items))
    {
      var newest := items[|items| - 1].time;
      var cutoff := newest - bounds.retention;
      ghost var was := items;
      ghost var k := 0;
      while items != [] && items[0].time < cutoff
        invariant 0 <= k <= |was| && items == was[k..]
        invariant forall j :: 0 <= j < k ==> was[j].time < cutoff
        decreases |items|
      {
        items := items[1..];
        k := k + 1;
      }
      assert k == BisectLeft(was, cutoff);
      var overflow := |items| - bounds.maxSize;
      if overflow > 0 {
        items := items[overflow..];
      }
    }

    method GetLatest() returns (r: Option<Snapshot>)
      requires Valid()
      ensures r == Latest(items) == Latest(Log(history))
    {
      r := if items == [] then None else Some(items[|items| - 1]);
      LatestIsTrue(bounds, history, items);
    }

    method Window(duration: int) returns (r: seq<Snapshot>)
      requires Valid()
      ensures r == WindowOf(items, duration)
    {
      r := if items == [] then [] else Since(items, items[|items| - 1].time - duration);
    }

    method Lookup(t: Ticks) returns (r: Option<Snapshot>)
      requires Valid()
      ensures r == AtOrBefore(items, t)
      ensures r.Some? <==> items != [] && t >= items[0].time
      ensures r.Some? ==> r == AtOrBefore(Log(history), t)
    {
      QueriesAreTrue(bounds, history, t);
      if items == [] {
        return None;
      }
      var index := BisectRight(items, t) - 1;
      if index < 0 {
        return None;
      }
      r := Some(items[index]);
    }
  }

  datatype Creation = Created(ring: Ring) | BadRetention | BadMaxSize

  method CreateRing(retention: int, maxSize: int) returns (r: Creation)
    ensures r.BadRetention? <==> retention <= 0
    ensures r.BadMaxSize? <==> retention > 0 && maxSize <= 0
    ensures r.Created? ==> fresh(r.ring) && r.ring.Valid() && r.ring.bounds == Bounds(retention, maxSize)
                           && r.ring.history == []
  {
    if retention <= 0 {
      return BadRetention;
    }
    if maxSize <= 0 {
      return BadMaxSize;
    }
    var ring := new Ring(retention, maxSize);
    r := Created(ring);
  }

  function WindowOf(s: seq<Snapshot>, duration: int): seq<Snapshot> {
    if s == [] then [] else Since(s, Last(s).time - duration)
  }

  /** Where the items from a time on start. */
  ghost predicate StartsAt(s: seq<Snapshot>, t: Ticks, k: nat) {
    k <= |s| && forall i :: 0 <= i < |s| ==> (s[i].time >= t <==> i >= k)
  }

  lemma FirstSince(s: seq<Snapshot>, t: Ticks)
    requires Sorted(s)
    ensures StartsAt(s, t, BisectLeft(s, t))
  {
    var k := BisectLeft(s, t);
    forall i | k < i < |s|
      ensures s[i].time >= t
    {
      assert s[k].time < s[i].time;
    }
  }

  lemma SinceAt(gone: seq<Snapshot>, kept: seq<Snapshot>, t: Ticks)
    requires forall i :: 0 <= i < |gone| ==> gone[i].time < t
    requires forall i :: 0 <= i < |kept| ==> kept[i].time >= t
    ensures Since(gone + kept, t) == kept
  {
    SinceSplit(gone, kept, t);
    NoneSince(gone, t);
    AllSince(kept, t);
  }

  /** The items from a time on are those from where they start. */
  lemma SinceMeaning(s: seq<Snapshot>, t: Ticks, k: nat)
    requires StartsAt(s, t, k)
    ensures Since(s, t) == s[k..]
  {
    assert s == s[..k] + s[k..];
    SinceAt(s[..k], s[k..], t);
  }

  lemma {:induction false} NoneSince(s: seq<Snapshot>, t: Ticks)
    requires forall i :: 0 <= i < |s| ==> s[i].time < t
    ensures Since(s, t) == []
  {
    if s != [] {
      NoneSince(s[1..], t);
    }
  }

  lemma {:induction false} AllSince(s: seq<Snapshot>, t: Ticks)
    requires forall i :: 0 <= i < |s| ==> s[i].time >= t
    ensures Since(s, t) == s
  {
    if s != [] {
      AllSince(s[1..], t);
    }
  }

  lemma WindowIs(items: seq<Snapshot>, duration: int) returns (k: nat)
    requires Sorted(items) && items != []
    ensures StartsAt(items, Last(items).time - duration, k) && WindowOf(items, duration) == items[k..]
  {
    k := BisectLeft(items, Last(items).time - duration);
    FirstSince(items, Last(items).time - duration);
    SinceMeaning(items, Last(items).time - duration, k);
  }

  lemma BufferIsSorted(b: Bounds, history: seq<Snapshot>)
    requires b.Valid()
    ensures Sorted(Buffered(b, history))
  {
    BufferIsRecentLog(b, history);
    LogMeaning(history);
    RecentIsSorted(b, Log(history));
  }

  /** After any appends a window is the end of the buffer that reaches back its duration from the newest item. */
  lemma WindowMeaning(b: Bounds, history: seq<Snapshot>, duration: int) returns (k: nat)
    requires b.Valid() && Buffered(b, history) != []
    ensures var items := Buffered(b, history);
            && k <= |items| && WindowOf(items, duration) == items[k..]
            && forall i :: 0 <= i < |items| ==> (Last(items).time - items[i].time <= duration <==> i >= k)
  {
    BufferIsSorted(b, history);
    k := WindowIs(Buffered(b, history), duration);
  }

  lemma RecentIsSorted(b: Bounds, s: seq<Snapshot>)
    requires b.Valid() && Sorted(s)
    ensures Sorted(Recent(b, s))
  {
  }

  /** A window no longer than the retention is complete while the log fits the size limit. */
  lemma WholeWindow(b: Bounds, history: seq<Snapshot>, duration: int)
    requires b.Valid()
    ensures duration <= b.retention && |Log(history)| <= b.maxSize ==>
              WindowOf(Buffered(b, history), duration) == WindowOf(Log(history), duration)
  {
    BufferIsRecentLog(b, history);
    LogMeaning(history);
    if duration <= b.retention && |Log(history)| <= b.maxSize && Log(history) != [] {
      WindowOfLog(b, Log(history), duration);
    }
  }

  lemma WindowOfLog(b: Bounds, log: seq<Snapshot>, duration: int)
    requires b.Valid() && Sorted(log) && log != [] && duration <= b.retention && |log| <= b.maxSize
    ensures WindowOf(Recent(b, log), duration) == WindowOf(log, duration)
  {
    CutFacts(b, log);
    BoundedSince(b, log, Last(log).time - duration);
  }
}
