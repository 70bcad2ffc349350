/** The stable descending sort by urgency that both the assigner and the optimizer apply
    (src/decision_engine/task_assigner.py:30-34, src/sprint_planner/sprint_optimizer.py:72-76).
    Positions 0..n-1 of a list are ordered by their keys, highest first; a stable sort keeps
    positions with equal keys in list order. */
module UrgencyOrder {

  /** Position i comes before position j in the sorted list. */
  predicate Before(keys: seq<real>, i: nat, j: nat)
    requires i < |keys| && j < |keys|
  {
    keys[i] > keys[j] || (keys[i] == keys[j] && i < j)
  }

  predicate InRange(keys: seq<real>, s: seq<nat>)
  {
    forall k :: 0 <= k < |s| ==> s[k] < |keys|
  }

  predicate Ordered(keys: seq<real>, s: seq<nat>)
    requires InRange(keys, s)
  {
    forall a, b :: 0 <= a < b < |s| ==> Before(keys, s[a], s[b])
  }

  function Insert(keys: seq<real>, x: nat, s: seq<nat>): (r: seq<nat>)
    requires x < |keys| && InRange(keys, s)
    ensures InRange(keys, r) && |r| == |s| + 1
    ensures forall y :: y in r <==> y == x || y in s
  {
    if s == [] then [x]
    else if Before(keys, s[0], x) then
      var rest := Insert(keys, x, s[1..]);
      assert forall k :: 0 <= k < |s[1..]| ==> s[1..][k] in s;
      [s[0]] + rest
    else
      [x] + s
  }

  /** A position that comes before every entry of an ordered list can head it. */
  lemma PrependKeepsOrder(keys: seq<real>, h: nat, s: seq<nat>)
    requires h < |keys| && InRange(keys, s) && Ordered(keys, s)
    requires forall k :: 0 <= k < |s| ==> Before(keys, h, s[k])
    ensures InRange(keys, [h] + s) && Ordered(keys, [h] + s)
  {
    var r := [h] + s;
    forall a, b | 0 <= a < b < |r| ensures Before(keys, r[a], r[b]) {
      assert r[b] == s[b - 1];
      if a > 0 {
        assert r[a] == s[a - 1];
      }
    }
  }

  /** Inserting a new position into an ordered list keeps it ordered. */
  lemma {:induction false} InsertKeepsOrder(keys: seq<real>, x: nat, s: seq<nat>)
    requires x < |keys| && InRange(keys, s) && Ordered(keys, s) && x !in s
    ensures Ordered(keys, Insert(keys, x, s))
  {
    if s != [] && Before(keys, s[0], x) {
      var tail := s[1..];
      assert forall a, b :: 0 <= a < b < |tail| ==> tail[a] == s[a + 1] && tail[b] == s[b + 1];
      InsertKeepsOrder(keys, x, tail);
      var rest := Insert(keys, x, tail);
      forall k | 0 <= k < |rest| ensures Before(keys, s[0], rest[k]) {
        assert rest[k] in rest;
        if rest[k] != x {
          var j :| 0 <= j < |tail| && tail[j] == rest[k];
          assert tail[j] == s[j + 1];
        }
      }
      PrependKeepsOrder(keys, s[0], rest);
    } else if s != [] {
      forall k | 0 <= k < |s| ensures Before(keys, x, s[k]) {
        if k > 0 {
          assert Before(keys, s[0], s[k]);
        }
      }
      PrependKeepsOrder(keys, x, s);
    }
  }

  function SortFrom(keys: seq<real>, lo: nat): (r: seq<nat>)
    requires lo <= |keys|
    ensures InRange(keys, r) && Ordered(keys, r)
    ensures |r| == |keys| - lo
    ensures forall y :: y in r <==> lo <= y < |keys|
    decreases |keys| - lo
  {
    if lo == |keys| then []
    else
      var rest := SortFrom(keys, lo + 1);
      InsertKeepsOrder(keys, lo, rest);
      Insert(keys, lo, rest)
  }

  /** The positions of `keys` in the order a stable sort by key, descending, visits them. */
  function SortedPositions(keys: seq<real>): (r: seq<nat>)
    ensures |r| == |keys| && InRange(keys, r) && Ordered(keys, r)
    ensures forall y :: y in r <==> 0 <= y < |keys|
  {
    SortFrom(keys, 0)
  }

  /** The sort visits every position exactly once: keys never increase along it, and equal keys
      keep their list order. */
  lemma SortedPositionsIsStableSort(keys: seq<real>)
    ensures var r := SortedPositions(keys);
      && (forall a, b :: 0 <= a < b < |r| ==> r[a] != r[b])
      && (forall a, b :: 0 <= a < b < |r| ==> keys[r[a]] >= keys[r[b]])
      && (forall a, b :: 0 <= a < b < |r| && keys[r[a]] == keys[r[b]] ==> r[a] < r[b])
  {
    var r := SortedPositions(keys);
    forall a, b | 0 <= a < b < |r| ensures r[a] != r[b] && keys[r[a]] >= keys[r[b]] {
      assert Before(keys, r[a], r[b]);
    }
  }
}
