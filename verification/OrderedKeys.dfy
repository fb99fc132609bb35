/** The keys of a map in ascending order, as sorting them gives. */
module OrderedKeys {

  lemma {:induction false} LeastExists(keys: set<int>, k: int)
    requires k in keys
    ensures exists m :: m in keys && forall j :: j in keys ==> m <= j
    decreases keys
  {
    if j :| j in keys && j < k {
      LeastExists(keys - {k}, j);
      var m :| m in keys - {k} && forall j :: j in keys - {k} ==> m <= j;
      assert m <= j;
      forall i | i in keys
        ensures m <= i
      {
        assert i == k || i in keys - {k};
      }
    }
  }

  function Least(keys: set<int>): (m: int)
    requires keys != {}
    ensures m in keys && forall j :: j in keys ==> m <= j
  {
    assert (forall k :: k !in keys) ==> keys == {};
    var k :| k in keys;
    LeastExists(keys, k);
    var m :| m in keys && forall j :: j in keys ==> m <= j;
    m
  }

  function Ascending(keys: set<int>): seq<int>
    decreases |keys|
  {
    if keys == {} then []
    else
      var m := Least(keys);
      [m] + Ascending(keys - {m})
  }

  ghost predicate Lists(s: seq<int>, keys: set<int>) {
    && (forall k :: k in s <==> k in keys)
    && forall i, j :: 0 <= i < j < |s| ==> s[i] < s[j]
  }

  lemma ListsNext(m: int, rest: seq<int>, keys: set<int>)
    requires m in keys && Lists(rest, keys - {m}) && forall k :: k in keys ==> m <= k
    ensures Lists([m] + rest, keys)
  {
    var s := [m] + rest;
    forall k
      ensures k in s <==> k in keys
    {
      assert k in s <==> k == m || k in rest;
    }
    forall i, j | 0 <= i < j < |s|
      ensures s[i] < s[j]
    {
      assert s[j] == rest[j - 1] && rest[j - 1] in rest;
    }
  }

  lemma {:induction false} AscendingLists(keys: set<int>)
    ensures Lists(Ascending(keys), keys)
    decreases |keys|
  {
    if keys != {} {
      var m := Least(keys);
      AscendingLists(keys - {m});
      ListsNext(m, Ascending(keys - {m}), keys);
    }
  }

  /** All keys, once each, in strictly rising order. */
  lemma AscendingMeaning(keys: set<int>)
    ensures forall k :: k in Ascending(keys) <==> k in keys
    ensures forall i, j :: 0 <= i < j < |Ascending(keys)| ==> Ascending(keys)[i] < Ascending(keys)[j]
  {
    AscendingLists(keys);
  }
}
