/** Completed sampled bars of the current session (features/bars.py). */
module Bars {
  import opened Common
  import opened Market
  import opened Session
  import opened Aligned
  import opened TimeSort
  import opened OrderedKeys

  datatype Bar = Bar(
    symbol: string,
    start: Ticks,
    end: Ticks,
    open: real,
    high: real,
    low: real,
    close: real,
    volume: Option<real>,
    turnover: Option<real>)

  // ---- Which bar a snapshot belongs to ----

  type Starting = Snapshot -> Option<Ticks>

  /** The start of a snapshot's bar: none outside the latest session and from the forming bar on. */
  function StartOf(x: Snapshot, latest: Ticks, width: int): Option<Ticks>
    requires width > 0
  {
    if !IsSameSession(x.time, latest) then None
    else if FloorTo(x.time, width) >= FloorTo(latest, width) then None
    else Some(FloorTo(x.time, width))
  }

  function StartingAt(latest: Ticks, width: int): Starting
    requires width > 0
  {
    x => StartOf(x, latest, width)
  }

  /** The snapshots of one bar, in order of arrival. */
  function Group(snaps: seq<Snapshot>, key: Starting, start: Ticks): seq<Snapshot> {
    Filter(snaps, (x: Snapshot) => key(x) == Some(start))
  }

  function StartSet(snaps: seq<Snapshot>, key: Starting): set<Ticks> {
    set x | x in snaps && key(x).Some? :: key(x).value
  }

  function Grouped(snaps: seq<Snapshot>, key: Starting): (m: map<Ticks, seq<Snapshot>>)
    ensures forall start :: start in m ==> m[start] != []
  {
    assert forall x :: x in snaps && key(x).Some? ==> x in Group(snaps, key, key(x).value);
    map start | start in StartSet(snaps, key) :: Group(snaps, key, start)
  }

  // ---- Bars ----

  function MaxPrice(s: seq<Snapshot>): (p: real)
    requires s != []
    ensures exists i :: 0 <= i < |s| && s[i].price == p
    ensures forall i :: 0 <= i < |s| ==> s[i].price <= p
  {
    if |s| == 1 then s[0].price
    else
      var rest := MaxPrice(s[..|s| - 1]);
      if Last(s).price > rest then Last(s).price else rest
  }

  function MinPrice(s: seq<Snapshot>): (p: real)
    requires s != []
    ensures exists i :: 0 <= i < |s| && s[i].price == p
    ensures forall i :: 0 <= i < |s| ==> s[i].price >= p
  {
    if |s| == 1 then s[0].price
    else
      var rest := MinPrice(s[..|s| - 1]);
      if Last(s).price < rest then Last(s).price else rest
  }

  function IntervalDelta(current: Option<real>, previous: Option<real>, contiguous: bool): Option<real> {
    if !contiguous || current.None? || previous.None? then None
    else Some(PositivePart(current.value - previous.value))
  }

  /** The newest snapshot of a bar. */
  function Closing(buckets: map<Ticks, seq<Snapshot>>, start: Ticks): Snapshot
    requires start in buckets && buckets[start] != []
  {
    Last(SortByTime(buckets[start]))
  }

  ghost predicate Filled(buckets: map<Ticks, seq<Snapshot>>, starts: seq<Ticks>) {
    forall k :: 0 <= k < |starts| ==> starts[k] in buckets && buckets[starts[k]] != []
  }

  /** What a bar leaves behind for the next one. */
  datatype Carry = Carry(prevEnd: Option<Ticks>, volume: Option<real>, turnover: Option<real>)

  function CarryAt(buckets: map<Ticks, seq<Snapshot>>, starts: seq<Ticks>, width: int, k: nat): Carry
    requires Filled(buckets, starts) && k <= |starts|
  {
    if k == 0 then Carry(None, None, None)
    else
      var last := Closing(buckets, starts[k - 1]);
      Carry(Some(starts[k - 1] + width), Some(last.volume), last.turnover)
  }

  function MakeBar(group: seq<Snapshot>, start: Ticks, width: int, carry: Carry): Bar
    requires group != []
  {
    var last := Last(group);
    var contiguous := carry.prevEnd == Some(start);
    Bar(last.symbol, start, start + width, group[0].price, MaxPrice(group), MinPrice(group), last.price,
        IntervalDelta(Some(last.volume), carry.volume, contiguous),
        IntervalDelta(last.turnover, carry.turnover, contiguous))
  }

  /** The k-th bar, from its own snapshots and the bar before it. */
  function BarAt(buckets: map<Ticks, seq<Snapshot>>, starts: seq<Ticks>, width: int, k: nat): Bar
    requires Filled(buckets, starts) && k < |starts|
  {
    MakeBar(SortByTime(buckets[starts[k]]), starts[k], width, CarryAt(buckets, starts, width, k))
  }

  function BarsFrom(buckets: map<Ticks, seq<Snapshot>>, starts: seq<Ticks>, width: int, k: nat): (bars: seq<Bar>)
    requires Filled(buckets, starts) && k <= |starts|
    ensures |bars| == k && forall i :: 0 <= i < k ==> bars[i] == BarAt(buckets, starts, width, i)
  {
    if k == 0 then [] else BarsFrom(buckets, starts, width, k - 1) + [BarAt(buckets, starts, width, k - 1)]
  }

  function BarsOf(snaps: seq<Snapshot>, latest: Ticks, width: int): seq<Bar> {
    if snaps == [] || width <= 0 then []
    else BarsIn(Grouped(snaps, StartingAt(latest, width)), width)
  }

  ghost predicate NoneEmpty(buckets: map<Ticks, seq<Snapshot>>) {
    forall start :: start in buckets ==> buckets[start] != []
  }

  lemma StartsFilled(buckets: map<Ticks, seq<Snapshot>>)
    requires NoneEmpty(buckets)
    ensures Filled(buckets, Ascending(buckets.Keys))
  {
    var starts := Ascending(buckets.Keys);
    AscendingMeaning(buckets.Keys);
    forall k | 0 <= k < |starts|
      ensures starts[k] in buckets
    {
      assert starts[k] in starts;
    }
  }

  function BarsIn(buckets: map<Ticks, seq<Snapshot>>, width: int): seq<Bar>
    requires NoneEmpty(buckets)
  {
    StartsFilled(buckets);
    var starts := Ascending(buckets.Keys);
    BarsFrom(buckets, starts, width, |starts|)
  }

  lemma NextSnapshot(snaps: seq<Snapshot>, key: Starting, i: nat)
    requires i < |snaps|
    ensures StartSet(snaps[..i + 1], key)
            == StartSet(snaps[..i], key) + if key(snaps[i]).Some? then {key(snaps[i]).value} else {}
    ensures forall t :: Group(snaps[..i + 1], key, t)
                        == if key(snaps[i]) == Some(t) then Group(snaps[..i], key, t) + [snaps[i]]
                           else Group(snaps[..i], key, t)
  {
    var x := snaps[i];
    assert snaps[..i + 1] == snaps[..i] + [x];
    forall t
      ensures Group(snaps[..i + 1], key, t)
              == if key(x) == Some(t) then Group(snaps[..i], key, t) + [x] else Group(snaps[..i], key, t)
    {
      GroupAppend(snaps[..i], x, key, t);
    }
  }

  lemma GroupAppend(snaps: seq<Snapshot>, x: Snapshot, key: Starting, t: Ticks)
    ensures Group(snaps + [x], key, t)
            == if key(x) == Some(t) then Group(snaps, key, t) + [x] else Group(snaps, key, t)
  {
    FilterConcat(snaps, [x], (x: Snapshot) => key(x) == Some(t));
    assert [x][1..] == [];
  }

  lemma GroupedNext(snaps: seq<Snapshot>, key: Starting, i: nat)
    requires i < |snaps|
    ensures var before := Grouped(snaps[..i], key);
            Grouped(snaps[..i + 1], key)
            == match key(snaps[i])
               case None => before
               case Some(t) => before[t := (if t in before then before[t] else []) + [snaps[i]]]
  {
    NextSnapshot(snaps, key, i);
    EmptyGroup(snaps[..i], key);
  }

  lemma EmptyGroup(snaps: seq<Snapshot>, key: Starting)
    ensures forall t :: t !in StartSet(snaps, key) ==> Group(snaps, key, t) == []
  {
    forall t | Group(snaps, key, t) != []
      ensures t in StartSet(snaps, key)
    {
      var x := Group(snaps, key, t)[0];
      assert x in Group(snaps, key, t);
    }
  }

  method FillBuckets(snaps: seq<Snapshot>, latest: Ticks, width: int) returns (buckets: map<Ticks, seq<Snapshot>>)
    requires width > 0
    ensures buckets == Grouped(snaps, StartingAt(latest, width))
  {
    var formingStart := FloorTo(latest, width);
    ghost var key := StartingAt(latest, width);
    buckets := map[];
    for i := 0 to |snaps|
      invariant buckets == Grouped(snaps[..i], key)
    {
      var x := snaps[i];
      GroupedNext(snaps, key, i);
      assert key(x) == StartOf(x, latest, width);
      if !IsSameSession(x.time, latest) {
        continue;
      }
      var start := FloorTo(x.time, width);
      if start >= formingStart {
        continue;
      }
      buckets := buckets[start := (if start in buckets then buckets[start] else []) + [x]];
    }
    assert snaps[..|snaps|] == snaps;
  }

  /** Builds the bars of all complete intervals of the latest session. */
  method CompletedMinuteBars(snaps: seq<Snapshot>, latest: Ticks, width: int) returns (bars: seq<Bar>)
    ensures bars == BarsOf(snaps, latest, width)
  {
    if snaps == [] || width <= 0 {
      return [];
    }
    var buckets := FillBuckets(snaps, latest, width);
    StartsFilled(buckets);
    bars := EmitBars(buckets, Ascending(buckets.Keys), width);
  }

  method EmitBars(buckets: map<Ticks, seq<Snapshot>>, starts: seq<Ticks>, width: int) returns (bars: seq<Bar>)
    requires Filled(buckets, starts)
    ensures bars == BarsFrom(buckets, starts, width, |starts|)
  {
    bars := [];
    var prevEnd: Option<Ticks> := None;
    var lastVolume: Option<real> := None;
    var lastTurnover: Option<real> := None;
    for k := 0 to |starts|
      invariant bars == BarsFrom(buckets, starts, width, k)
      invariant Carry(prevEnd, lastVolume, lastTurnover) == CarryAt(buckets, starts, width, k)
    {
      var start := starts[k];
      var group := SortByTime(buckets[start]);
      bars := bars + [MakeBar(group, start, width, Carry(prevEnd, lastVolume, lastTurnover))];
      var last := Last(group);
      lastVolume := Some(last.volume);
      lastTurnover := last.turnover;
      prevEnd := Some(start + width);
    }
  }

  // ---- Laws ----

  lemma StartIsAligned(snaps: seq<Snapshot>, latest: Ticks, width: int, start: Ticks)
    requires width > 0 && start in StartSet(snaps, StartingAt(latest, width))
    ensures start % width == 0 && start + width <= FloorTo(latest, width)
  {
    var x :| x in snaps && StartOf(x, latest, width) == Some(start);
    FloorMeaning(x.time, width, start);
    FloorMeaning(latest, width, FloorTo(latest, width));
    AlignedGap(start, FloorTo(latest, width), width);
  }

  lemma BarAtStart(buckets: map<Ticks, seq<Snapshot>>, width: int, k: nat)
    requires NoneEmpty(buckets) && k < |BarsIn(buckets, width)|
    ensures |BarsIn(buckets, width)| == |Ascending(buckets.Keys)|
    ensures Filled(buckets, Ascending(buckets.Keys))
    ensures BarsIn(buckets, width)[k] == BarAt(buckets, Ascending(buckets.Keys), width, k)
    ensures BarsIn(buckets, width)[k].start == Ascending(buckets.Keys)[k]
    ensures BarsIn(buckets, width)[k].end == Ascending(buckets.Keys)[k] + width
    ensures Ascending(buckets.Keys)[k] in buckets
  {
    StartsFilled(buckets);
  }

  /** Each bar starts at a multiple of the width, is one width long and ends before the forming bar begins. */
  lemma BarIsAligned(snaps: seq<Snapshot>, latest: Ticks, width: int, k: nat)
    requires k < |BarsOf(snaps, latest, width)|
    ensures var bar := BarsOf(snaps, latest, width)[k];
            width > 0 && bar.start % width == 0 && bar.end == bar.start + width <= FloorTo(latest, width)
  {
    BarAtStart(Grouped(snaps, StartingAt(latest, width)), width, k);
    StartIsAligned(snaps, latest, width, BarsOf(snaps, latest, width)[k].start);
  }

  lemma StartsRise(buckets: map<Ticks, seq<Snapshot>>, width: int, i: nat, j: nat)
    requires NoneEmpty(buckets)
    requires i < j < |BarsIn(buckets, width)|
    ensures BarsIn(buckets, width)[i].start < BarsIn(buckets, width)[j].start
  {
    BarAtStart(buckets, width, i);
    BarAtStart(buckets, width, j);
    AscendingMeaning(buckets.Keys);
  }

  /** Bars come in time order and do not overlap. */
  lemma BarsAreApart(snaps: seq<Snapshot>, latest: Ticks, width: int, i: nat, j: nat)
    requires i < j < |BarsOf(snaps, latest, width)|
    ensures BarsOf(snaps, latest, width)[i].end <= BarsOf(snaps, latest, width)[j].start
  {
    BarIsAligned(snaps, latest, width, i);
    BarIsAligned(snaps, latest, width, j);
    StartsRise(Grouped(snaps, StartingAt(latest, width)), width, i, j);
    AlignedGap(BarsOf(snaps, latest, width)[i].start, BarsOf(snaps, latest, width)[j].start, width);
  }

  predicate Within(x: Snapshot, bar: Bar) {
    bar.start <= x.time < bar.end
  }

  lemma BarFor(buckets: map<Ticks, seq<Snapshot>>, width: int, start: Ticks) returns (k: nat)
    requires NoneEmpty(buckets)
    requires start in buckets
    ensures k < |BarsIn(buckets, width)|
    ensures BarsIn(buckets, width)[k].start == start && BarsIn(buckets, width)[k].end == start + width
  {
    var starts := Ascending(buckets.Keys);
    AscendingMeaning(buckets.Keys);
    assert start in starts;
    StartsFilled(buckets);
    k :| 0 <= k < |starts| && starts[k] == start;
  }

  /** A snapshot of the latest session lies in a bar exactly when it comes before the forming bar. */
  lemma InSomeBar(snaps: seq<Snapshot>, latest: Ticks, width: int, x: Snapshot)
    requires width > 0 && x in snaps && IsSameSession(x.time, latest)
    ensures (exists k :: 0 <= k < |BarsOf(snaps, latest, width)| && Within(x, BarsOf(snaps, latest, width)[k]))
            <==> x.time < FloorTo(latest, width)
  {
    var start := FloorTo(x.time, width);
    FloorMeaning(x.time, width, start);
    FloorOrder(x.time, latest, width);
    if x.time < FloorTo(latest, width) {
      assert StartingAt(latest, width)(x) == Some(start);
      var k := BarFor(Grouped(snaps, StartingAt(latest, width)), width, start);
      assert Within(x, BarsOf(snaps, latest, width)[k]);
    }
    forall k | 0 <= k < |BarsOf(snaps, latest, width)| && Within(x, BarsOf(snaps, latest, width)[k])
      ensures x.time < FloorTo(latest, width)
    {
      BarIsAligned(snaps, latest, width, k);
    }
  }

  /** No snapshot lies in two bars. */
  lemma InOneBar(snaps: seq<Snapshot>, latest: Ticks, width: int, x: Snapshot, i: nat, j: nat)
    requires i < |BarsOf(snaps, latest, width)| && j < |BarsOf(snaps, latest, width)|
    requires Within(x, BarsOf(snaps, latest, width)[i]) && Within(x, BarsOf(snaps, latest, width)[j])
    ensures i == j
  {
    if i < j {
      BarsAreApart(snaps, latest, width, i, j);
    } else if j < i {
      BarsAreApart(snaps, latest, width, j, i);
    }
  }

  /** Bars share out the snapshots: every copy of a snapshot that counts is in the group of its own bar and no other. */
  lemma GroupsShareOut(snaps: seq<Snapshot>, latest: Ticks, width: int, start: Ticks, x: Snapshot)
    requires width > 0
    ensures multiset(Group(snaps, StartingAt(latest, width), start))[x]
            == if IsSameSession(x.time, latest) && x.time < FloorTo(latest, width)
                  && start % width == 0 && start <= x.time < start + width
               then multiset(snaps)[x] else 0
  {
    var key := StartingAt(latest, width);
    FilterMultiset(snaps, (y: Snapshot) => key(y) == Some(start), x);
    FloorMeaning(x.time, width, start);
    FloorOrder(x.time, latest, width);
  }

  /** A bar's prices: those of its earliest and newest snapshots, and the extremes over all of them. */
  ghost predicate Prices(bar: Bar, group: seq<Snapshot>) {
    RangePrices(bar, group) && EndPrices(bar, group)
  }

  ghost predicate RangePrices(bar: Bar, group: seq<Snapshot>) {
    && bar.low <= bar.open <= bar.high && bar.low <= bar.close <= bar.high
    && (forall x :: x in group ==> bar.low <= x.price <= bar.high)
    && (exists x :: x in group && x.price == bar.low)
    && (exists x :: x in group && x.price == bar.high)
  }

  ghost predicate EndPrices(bar: Bar, group: seq<Snapshot>) {
    && (exists x :: x in group && x.price == bar.open && EarliestIn(x, group))
    && (exists x :: x in group && x.price == bar.close && x.symbol == bar.symbol && NewestIn(x, group))
  }

  predicate EarliestIn(x: Snapshot, group: seq<Snapshot>) {
    forall y :: y in group ==> x.time <= y.time
  }

  predicate NewestIn(x: Snapshot, group: seq<Snapshot>) {
    forall y :: y in group ==> y.time <= x.time
  }

  lemma BarPrices(snaps: seq<Snapshot>, latest: Ticks, width: int, k: nat)
    requires k < |BarsOf(snaps, latest, width)|
    ensures var bar := BarsOf(snaps, latest, width)[k];
            width > 0 && Prices(bar, Group(snaps, StartingAt(latest, width), bar.start))
  {
    BarPricesIn(Grouped(snaps, StartingAt(latest, width)), width, k);
  }

  lemma BarPricesIn(buckets: map<Ticks, seq<Snapshot>>, width: int, k: nat)
    requires NoneEmpty(buckets)
    requires k < |BarsIn(buckets, width)|
    ensures BarsIn(buckets, width)[k].start in buckets
    ensures Prices(BarsIn(buckets, width)[k], buckets[BarsIn(buckets, width)[k].start])
  {
    BarAtStart(buckets, width, k);
    var group := buckets[Ascending(buckets.Keys)[k]];
    SortByTimeLaws(group, 0);
    SortedPrices(group, SortByTime(group), BarsIn(buckets, width)[k]);
  }

  lemma SortedPrices(group: seq<Snapshot>, sorted: seq<Snapshot>, bar: Bar)
    requires sorted != [] && TimeOrdered(sorted) && multiset(sorted) == multiset(group)
    requires bar.open == sorted[0].price && bar.close == Last(sorted).price && bar.symbol == Last(sorted).symbol
    requires bar.high == MaxPrice(sorted) && bar.low == MinPrice(sorted)
    ensures Prices(bar, group)
  {
    forall x
      ensures x in group <==> x in sorted
    {
      assert x in group <==> x in multiset(group);
      assert x in sorted <==> x in multiset(sorted);
    }
    OwnPrices(sorted, bar);
    SameMembers(sorted, group, bar);
  }

  lemma OwnEnds(sorted: seq<Snapshot>, bar: Bar)
    requires sorted != [] && TimeOrdered(sorted)
    requires bar.open == sorted[0].price && bar.close == Last(sorted).price && bar.symbol == Last(sorted).symbol
    ensures EndPrices(bar, sorted)
  {
    assert sorted[0] in sorted && EarliestIn(sorted[0], sorted);
    assert Last(sorted) in sorted && NewestIn(Last(sorted), sorted);
  }

  lemma OwnPrices(sorted: seq<Snapshot>, bar: Bar)
    requires sorted != [] && TimeOrdered(sorted)
    requires bar.open == sorted[0].price && bar.close == Last(sorted).price && bar.symbol == Last(sorted).symbol
    requires bar.high == MaxPrice(sorted) && bar.low == MinPrice(sorted)
    ensures Prices(bar, sorted)
  {
    OwnEnds(sorted, bar);
    Extremes(sorted, bar.low, bar.high);
    assert sorted[0] in sorted && Last(sorted) in sorted;
  }

  lemma Extremes(s: seq<Snapshot>, low: real, high: real)
    requires s != [] && low == MinPrice(s) && high == MaxPrice(s)
    ensures forall x :: x in s ==> low <= x.price <= high
    ensures exists x :: x in s && x.price == low
    ensures exists x :: x in s && x.price == high
  {
    var i :| 0 <= i < |s| && s[i].price == low;
    assert s[i] in s;
    var j :| 0 <= j < |s| && s[j].price == high;
    assert s[j] in s;
  }

  lemma SameMembers(sorted: seq<Snapshot>, group: seq<Snapshot>, bar: Bar)
    requires Prices(bar, sorted) && forall x :: x in group <==> x in sorted
    ensures Prices(bar, group)
  {
    var open :| open in sorted && open.price == bar.open && EarliestIn(open, sorted);
    assert EarliestIn(open, group);
    var close :|
      close in sorted && close.price == bar.close && close.symbol == bar.symbol && NewestIn(close, sorted);
    assert NewestIn(close, group);
  }

  // ---- Volume ----

  function BucketsOf(snaps: seq<Snapshot>, latest: Ticks, width: int): (m: map<Ticks, seq<Snapshot>>)
    requires width > 0
    ensures forall start :: start in m ==> m[start] != []
  {
    Grouped(snaps, StartingAt(latest, width))
  }

  /** Cumulative volume of the newest snapshot of the k-th bar. */
  function CloseVolume(buckets: map<Ticks, seq<Snapshot>>, k: nat): real
    requires NoneEmpty(buckets)
    requires k < |Ascending(buckets.Keys)|
  {
    StartsFilled(buckets);
    Closing(buckets, Ascending(buckets.Keys)[k]).volume
  }

  /** A bar has a volume exactly when it follows its predecessor without a gap. */
  lemma VolumeMeaning(buckets: map<Ticks, seq<Snapshot>>, width: int, k: nat)
    requires NoneEmpty(buckets)
    requires k < |BarsIn(buckets, width)|
    ensures |BarsIn(buckets, width)| == |Ascending(buckets.Keys)|
    ensures var bars := BarsIn(buckets, width);
            bars[k].volume == if k > 0 && bars[k].start == bars[k - 1].end
                              then Some(PositivePart(CloseVolume(buckets, k) - CloseVolume(buckets, k - 1)))
                              else None
  {
    BarAtStart(buckets, width, k);
    if k > 0 {
      BarAtStart(buckets, width, k - 1);
    }
  }

  function CloseTurnover(buckets: map<Ticks, seq<Snapshot>>, k: nat): Option<real>
    requires NoneEmpty(buckets) && k < |Ascending(buckets.Keys)|
  {
    StartsFilled(buckets);
    Closing(buckets, Ascending(buckets.Keys)[k]).turnover
  }

  /** A turnover also needs both closing snapshots to report one. */
  lemma TurnoverMeaning(buckets: map<Ticks, seq<Snapshot>>, width: int, k: nat)
    requires NoneEmpty(buckets) && k < |BarsIn(buckets, width)|
    ensures |BarsIn(buckets, width)| == |Ascending(buckets.Keys)|
    ensures var bars := BarsIn(buckets, width);
            bars[k].turnover == if k > 0 && bars[k].start == bars[k - 1].end && CloseTurnover(buckets, k).Some?
                                   && CloseTurnover(buckets, k - 1).Some?
                                then Some(PositivePart(CloseTurnover(buckets, k).value
                                                  - CloseTurnover(buckets, k - 1).value))
                                else None
  {
    BarAtStart(buckets, width, k);
    if k > 0 {
      BarAtStart(buckets, width, k - 1);
    }
  }

  predicate GapFree(bars: seq<Bar>, i: nat, j: nat) {
    i <= j < |bars| && forall k :: i < k <= j ==> bars[k].start == bars[k - 1].end
  }

  function VolumeOf(bar: Bar): real {
    if bar.volume.None? then 0.0 else bar.volume.value
  }

  /** The volume of bars i + 1 .. j. */
  function TotalVolume(bars: seq<Bar>, i: nat, j: nat): real
    requires i <= j < |bars|
  {
    if i == j then 0.0 else TotalVolume(bars, i, j - 1) + VolumeOf(bars[j])
  }

  predicate Rising(f: nat -> real, i: nat, j: nat) {
    forall k :: i < k <= j ==> f(k - 1) <= f(k)
  }

  lemma {:induction false} Telescopes(bars: seq<Bar>, close: nat -> real, i: nat, j: nat)
    requires i <= j < |bars|
    requires forall k :: i < k <= j ==> VolumeOf(bars[k]) == PositivePart(close(k) - close(k - 1))
    ensures TotalVolume(bars, i, j) >= close(j) - close(i)
    ensures TotalVolume(bars, i, j) == close(j) - close(i) <==> Rising(close, i, j)
  {
    if i < j {
      Telescopes(bars, close, i, j - 1);
      assert Rising(close, i, j) <==> Rising(close, i, j - 1) && close(j - 1) <= close(j);
    }
  }

  function CloseVolumes(buckets: map<Ticks, seq<Snapshot>>): nat -> real
    requires NoneEmpty(buckets)
  {
    (k: nat) => if k < |Ascending(buckets.Keys)| then CloseVolume(buckets, k) else 0.0
  }

  lemma GapFreeVolume(buckets: map<Ticks, seq<Snapshot>>, width: int, k: nat)
    requires NoneEmpty(buckets) && 0 < k < |BarsIn(buckets, width)|
    requires BarsIn(buckets, width)[k].start == BarsIn(buckets, width)[k - 1].end
    ensures VolumeOf(BarsIn(buckets, width)[k])
            == PositivePart(CloseVolumes(buckets)(k) - CloseVolumes(buckets)(k - 1))
  {
    VolumeMeaning(buckets, width, k);
  }

  /** Over a run of bars without a gap the interval volumes add up to at least the cumulative volume gained, and to
      exactly that if and only if the cumulative volume never fell from bar to bar. */
  lemma VolumeConserved(snaps: seq<Snapshot>, latest: Ticks, width: int, i: nat, j: nat)
    requires width > 0 && snaps != [] && GapFree(BarsOf(snaps, latest, width), i, j)
    ensures var bars, close := BarsOf(snaps, latest, width), CloseVolumes(BucketsOf(snaps, latest, width));
            && TotalVolume(bars, i, j) >= close(j) - close(i)
            && (TotalVolume(bars, i, j) == close(j) - close(i) <==> Rising(close, i, j))
  {
    VolumeConservedIn(BucketsOf(snaps, latest, width), width, i, j);
  }

  lemma GapFreeVolumes(buckets: map<Ticks, seq<Snapshot>>, width: int, bars: seq<Bar>, i: nat, j: nat)
    requires NoneEmpty(buckets) && bars == BarsIn(buckets, width) && GapFree(bars, i, j)
    ensures forall k :: i < k <= j ==>
              VolumeOf(bars[k]) == PositivePart(CloseVolumes(buckets)(k) - CloseVolumes(buckets)(k - 1))
  {
    forall k | i < k <= j
      ensures VolumeOf(bars[k]) == PositivePart(CloseVolumes(buckets)(k) - CloseVolumes(buckets)(k - 1))
    {
      GapFreeVolume(buckets, width, k);
    }
  }

  lemma VolumeConservedIn(buckets: map<Ticks, seq<Snapshot>>, width: int, i: nat, j: nat)
    requires NoneEmpty(buckets) && GapFree(BarsIn(buckets, width), i, j)
    ensures var bars, close := BarsIn(buckets, width), CloseVolumes(buckets);
            && TotalVolume(bars, i, j) >= close(j) - close(i)
            && (TotalVolume(bars, i, j) == close(j) - close(i) <==> Rising(close, i, j))
  {
    GapFreeVolumes(buckets, width, BarsIn(buckets, width), i, j);
    Telescopes(BarsIn(buckets, width), CloseVolumes(buckets), i, j);
  }
}
