/** Splitting one lineage's look-back events into directional episodes (signals/cluster.py). */
module Cluster {
  import opened Common
  import opened Domain

  function LineageOf(kind: EventType): Lineage {
    if kind == VwapCross then Vwap else Tape
  }

  /** The sort key (market timestamp, id) compared lexicographically. */
  predicate Before(a: MarketEvent, b: MarketEvent) {
    a.marketTs < b.marketTs || (a.marketTs == b.marketTs && a.id <= b.id)
  }

  ghost predicate Ordered(s: seq<MarketEvent>) {
    forall i, j :: 0 <= i < j < |s| ==> Before(s[i], s[j])
  }

  function Insert(e: MarketEvent, s: seq<MarketEvent>): (r: seq<MarketEvent>)
    ensures multiset(r) == multiset(s) + multiset{e}
  {
    if s == [] || Before(e, s[0]) then [e] + s
    else
      assert s == [s[0]] + s[1..];
      [s[0]] + Insert(e, s[1..])
  }

  /** A stable sort by (market timestamp, id). */
  function SortEvents(s: seq<MarketEvent>): (r: seq<MarketEvent>)
    ensures multiset(r) == multiset(s)
  {
    if s == [] then []
    else
      assert s == [s[0]] + s[1..];
      Insert(s[0], SortEvents(s[1..]))
  }

  lemma SameElements(r: seq<MarketEvent>, s: seq<MarketEvent>)
    requires multiset(r) == multiset(s)
    ensures |r| == |s|
    ensures forall e :: e in r <==> e in s
  {
    assert |r| == |multiset(r)| == |multiset(s)| == |s|;
    assert forall e :: e in r <==> e in multiset(r);
    assert forall e :: e in s <==> e in multiset(s);
  }

  lemma {:induction false} InsertKeepsOrder(e: MarketEvent, s: seq<MarketEvent>)
    requires Ordered(s)
    ensures Ordered(Insert(e, s))
  {
    if s != [] && !Before(e, s[0]) {
      InsertKeepsOrder(e, s[1..]);
      var rest := Insert(e, s[1..]);
      assert forall x :: x in rest ==> x in multiset(rest);
      forall x | x in rest
        ensures Before(s[0], x)
      {
        assert x == e || x in multiset(s[1..]);
      }
    }
  }

  lemma {:induction false} SortIsOrdered(s: seq<MarketEvent>)
    ensures Ordered(SortEvents(s))
    ensures forall i, j :: 0 <= i < j < |SortEvents(s)| ==>
              var a, b := SortEvents(s)[i], SortEvents(s)[j];
              a.marketTs < b.marketTs || (a.marketTs == b.marketTs && a.id <= b.id)
    ensures |SortEvents(s)| == |s|
    ensures forall e :: e in SortEvents(s) <==> e in s
  {
    SameElements(SortEvents(s), s);
    if s != [] {
      SortIsOrdered(s[1..]);
      InsertKeepsOrder(s[0], SortEvents(s[1..]));
    }
  }

  datatype Episode = Episode(direction: Direction, members: seq<MarketEvent>)

  function WithDirection(s: seq<MarketEvent>, d: Direction): (r: seq<MarketEvent>)
    ensures forall e :: e in r <==> e in s && e.direction == d
  {
    Filter(s, (e: MarketEvent) => e.direction == d)
  }

  function OneEpisode(d: Direction, members: seq<MarketEvent>): (r: seq<Episode>) {
    if members == [] then [] else [Episode(d, SortEvents(members))]
  }

  function PartitionLineageEpisodes(recent: seq<MarketEvent>, noneTarget: Direction): (r: seq<Episode>) {
    var nones := WithDirection(recent, NONE);
    OneEpisode(UP, (if noneTarget == UP then nones else []) + WithDirection(recent, UP))
    + OneEpisode(DOWN, (if noneTarget == DOWN then nones else []) + WithDirection(recent, DOWN))
    + OneEpisode(NONE, if noneTarget == NONE then nones else [])
  }

  /** The directions, NONE excluded, that occur in a list of events. */
  function DirectionsOf(s: seq<MarketEvent>): (r: set<Direction>)
    ensures forall d :: d in r <==> d != NONE && exists e :: e in s && e.direction == d
  {
    set e | e in s && e.direction != NONE :: e.direction
  }

  function ResolveNoneTarget(
    batch: seq<MarketEvent>, recent: seq<MarketEvent>, live: set<Direction>): (r: Direction)
  {
    var batchDirs := DirectionsOf(batch);
    if batchDirs == {UP} then UP
    else if batchDirs == {DOWN} then DOWN
    else if |batchDirs| > 1 then NONE
    else
      var candidates := DirectionsOf(recent) + (live * {UP, DOWN});
      if candidates == {UP} then UP
      else if candidates == {DOWN} then DOWN
      else NONE
  }

  function ClassifyFamily(events: seq<MarketEvent>): Family {
    var types := set e | e in events :: e.kind;
    var hasVol := types * {VolumeSpike, PriceVolumeExpansion} != {};
    var hasMove := types * {RapidMove, PriceVolumeExpansion} != {};
    if hasVol && hasMove then PriceVolume
    else if DayHighBreakout in types then Breakout
    else if DayLowBreakdown in types then Breakdown
    else if hasVol then Volume
    else if hasMove then Move
    else if VwapCross in types then VwapFamily
    else Other
  }

  // ---- Properties ----

  /** The shape every partition has: distinct directions, the NONE episode last, members sorted. */
  ghost predicate WellPartitioned(eps: seq<Episode>) {
    && (forall i :: 0 <= i < |eps| ==> WellFormed(eps[i]))
    && (forall i, j :: 0 <= i < j < |eps| ==> eps[i].direction != eps[j].direction && eps[i].direction != NONE)
  }

  ghost predicate WellFormed(ep: Episode) {
    && ep.members != []
    && Ordered(ep.members)
    && forall e :: e in ep.members ==> e.direction == ep.direction || e.direction == NONE
  }

  lemma TailIsPartitioned(eps: seq<Episode>)
    requires WellPartitioned(eps) && eps != []
    ensures WellPartitioned(eps[1..])
    ensures forall ep :: ep in eps[1..] ==> ep.direction != eps[0].direction
    ensures eps[0].direction != NONE || eps[1..] == []
  {
    var tail := eps[1..];
    if tail != [] {
      assert eps[0].direction != eps[1].direction && eps[0].direction != NONE;
    }
    forall i | 0 <= i < |tail|
      ensures WellFormed(tail[i]) && tail[i].direction != eps[0].direction && eps[0].direction != NONE
    {
      assert tail[i] == eps[i + 1];
      assert WellFormed(eps[i + 1]);
    }
    forall i, j | 0 <= i < j < |tail|
      ensures tail[i].direction != tail[j].direction && tail[i].direction != NONE
    {
      assert tail[i] == eps[i + 1] && tail[j] == eps[j + 1];
    }
  }

  /** The events filed under direction d. */
  function Filed(recent: seq<MarketEvent>, noneTarget: Direction, d: Direction): seq<MarketEvent> {
    (if noneTarget == d then WithDirection(recent, NONE) else [])
    + if d == NONE then [] else WithDirection(recent, d)
  }

  lemma FiledIsWellFormed(recent: seq<MarketEvent>, noneTarget: Direction, d: Direction)
    requires Filed(recent, noneTarget, d) != []
    ensures WellFormed(Episode(d, SortEvents(Filed(recent, noneTarget, d))))
  {
    SortIsOrdered(Filed(recent, noneTarget, d));
  }

  lemma PartitionShape(recent: seq<MarketEvent>, noneTarget: Direction)
    ensures PartitionLineageEpisodes(recent, noneTarget)
            == OneEpisode(UP, Filed(recent, noneTarget, UP))
               + OneEpisode(DOWN, Filed(recent, noneTarget, DOWN))
               + OneEpisode(NONE, Filed(recent, noneTarget, NONE))
  {
    assert Filed(recent, noneTarget, NONE)
        == if noneTarget == NONE then WithDirection(recent, NONE) else [];
  }

  /** At most one episode for each of UP, DOWN and NONE, in that order. */
  lemma InOrder(up: seq<Episode>, down: seq<Episode>, alone: seq<Episode>)
    requires |up| <= 1 && |down| <= 1 && |alone| <= 1
    requires up != [] ==> up[0].direction == UP && WellFormed(up[0])
    requires down != [] ==> down[0].direction == DOWN && WellFormed(down[0])
    requires alone != [] ==> alone[0].direction == NONE && WellFormed(alone[0])
    ensures WellPartitioned(up + down + alone)
  {
    var eps := up + down + alone;
    forall i | 0 <= i < |eps|
      ensures WellFormed(eps[i])
    {
      assert eps[i] in up || eps[i] in down || eps[i] in alone;
    }
  }

  lemma OneEpisodeIsWellFormed(recent: seq<MarketEvent>, noneTarget: Direction, d: Direction)
    ensures var ep := OneEpisode(d, Filed(recent, noneTarget, d));
            |ep| <= 1 && (ep != [] ==> ep[0].direction == d && WellFormed(ep[0]))
  {
    if Filed(recent, noneTarget, d) != [] {
      FiledIsWellFormed(recent, noneTarget, d);
    }
  }

  lemma PartitionIsWellFormed(recent: seq<MarketEvent>, noneTarget: Direction)
    ensures WellPartitioned(PartitionLineageEpisodes(recent, noneTarget))
  {
    PartitionShape(recent, noneTarget);
    OneEpisodeIsWellFormed(recent, noneTarget, UP);
    OneEpisodeIsWellFormed(recent, noneTarget, DOWN);
    OneEpisodeIsWellFormed(recent, noneTarget, NONE);
    InOrder(
      OneEpisode(UP, Filed(recent, noneTarget, UP)),
      OneEpisode(DOWN, Filed(recent, noneTarget, DOWN)),
      OneEpisode(NONE, Filed(recent, noneTarget, NONE)));
  }

  lemma PieceIs(up: seq<Episode>, down: seq<Episode>, alone: seq<Episode>, i: nat)
    requires |up| <= 1 && |down| <= 1 && |alone| <= 1 && i < |up + down + alone|
    ensures (up != [] && (up + down + alone)[i] == up[0])
            || (down != [] && (up + down + alone)[i] == down[0])
            || (alone != [] && (up + down + alone)[i] == alone[0])
  {
  }

  /** Every episode of the partition is the sorted list of the events filed under its direction. */
  lemma PartitionMembers(recent: seq<MarketEvent>, noneTarget: Direction, i: nat)
    requires i < |PartitionLineageEpisodes(recent, noneTarget)|
    ensures var ep := PartitionLineageEpisodes(recent, noneTarget)[i];
            ep.members == SortEvents(Filed(recent, noneTarget, ep.direction))
  {
    PartitionShape(recent, noneTarget);
    PieceIs(OneEpisode(UP, Filed(recent, noneTarget, UP)),
            OneEpisode(DOWN, Filed(recent, noneTarget, DOWN)),
            OneEpisode(NONE, Filed(recent, noneTarget, NONE)), i);
  }

  lemma PartitionHas(recent: seq<MarketEvent>, noneTarget: Direction, d: Direction) returns (i: nat)
    requires Filed(recent, noneTarget, d) != []
    ensures i < |PartitionLineageEpisodes(recent, noneTarget)|
    ensures PartitionLineageEpisodes(recent, noneTarget)[i].direction == d
  {
    PartitionShape(recent, noneTarget);
    i := PieceAt(
      OneEpisode(UP, Filed(recent, noneTarget, UP)),
      OneEpisode(DOWN, Filed(recent, noneTarget, DOWN)),
      OneEpisode(NONE, Filed(recent, noneTarget, NONE)),
      d, OneEpisode(d, Filed(recent, noneTarget, d)));
  }

  lemma PieceAt(up: seq<Episode>, down: seq<Episode>, alone: seq<Episode>, d: Direction, piece: seq<Episode>)
    returns (i: nat)
    requires piece == if d == UP then up else if d == DOWN then down else alone
    requires piece != []
    ensures i < |up + down + alone| && (up + down + alone)[i] == piece[0]
  {
    i := if d == UP then 0 else if d == DOWN then |up| else |up| + |down|;
  }

  /** Which direction an event is filed under: its own, or the NONE target for a NONE event. */
  function Destination(e: MarketEvent, noneTarget: Direction): Direction {
    if e.direction == NONE then noneTarget else e.direction
  }

  /** An episode of direction d is present exactly when some event is filed under d, and then it holds exactly
      the events filed under d, each as often as it was given: nothing is lost and nothing is duplicated. */
  lemma PartitionIsExact(recent: seq<MarketEvent>, noneTarget: Direction, e: MarketEvent)
    ensures var eps := PartitionLineageEpisodes(recent, noneTarget);
            && (e in recent ==> exists i :: 0 <= i < |eps| && eps[i].direction == Destination(e, noneTarget))
            && forall i :: 0 <= i < |eps| ==>
                 multiset(eps[i].members)[e]
                 == if eps[i].direction == Destination(e, noneTarget) then multiset(recent)[e] else 0
  {
    var eps := PartitionLineageEpisodes(recent, noneTarget);
    forall i | 0 <= i < |eps|
      ensures multiset(eps[i].members)[e]
              == if eps[i].direction == Destination(e, noneTarget) then multiset(recent)[e] else 0
    {
      PartitionMembers(recent, noneTarget, i);
      FiledCount(recent, noneTarget, eps[i].direction, e);
    }
    if e in recent {
      var d := Destination(e, noneTarget);
      FiledCount(recent, noneTarget, d, e);
      assert e in multiset(Filed(recent, noneTarget, d));
      var i := PartitionHas(recent, noneTarget, d);
    }
  }

  lemma FiledCount(recent: seq<MarketEvent>, noneTarget: Direction, d: Direction, e: MarketEvent)
    ensures multiset(Filed(recent, noneTarget, d))[e]
            == if d == Destination(e, noneTarget) then multiset(recent)[e] else 0
  {
    FilterMultiset(recent, (x: MarketEvent) => x.direction == d, e);
    FilterMultiset(recent, (x: MarketEvent) => x.direction == NONE, e);
  }

  lemma DirectionalPart(live: set<Direction>)
    ensures live * {UP, DOWN} == live - {NONE}
  {
    forall x: Direction
      ensures x in live * {UP, DOWN} <==> x in live - {NONE}
    {
      match x
      case NONE =>
      case UP =>
      case DOWN =>
    }
  }

  /** The target given to NONE events, read without following the branches: a direction d is chosen exactly when
      the batch's only direction is d, or the batch has none and d is the only direction seen or live. */
  lemma NoneTargetMeaning(batch: seq<MarketEvent>, recent: seq<MarketEvent>, live: set<Direction>, d: Direction)
    requires d != NONE
    ensures ResolveNoneTarget(batch, recent, live) == d <==>
            || DirectionsOf(batch) == {d}
            || (DirectionsOf(batch) == {} && DirectionsOf(recent) + (live - {NONE}) == {d})
  {
    var b := DirectionsOf(batch);
    DirectionalPart(live);
    assert forall x :: x in b ==> x == UP || x == DOWN;
    if UP in b && DOWN in b {
      assert b == {UP, DOWN};
    } else if UP in b {
      assert b == {UP};
    } else if DOWN in b {
      assert b == {DOWN};
    } else {
      assert b == {};
    }
  }
}
