/**
 * Grouping a list by a key, as both uploads views do with a `reduce` into a
 * `{ [parentId]: asset[] }` accumulator: a new key opens a group holding the
 * element, a known key appends the element to its group.
 */
module Grouping {
  import opened Sequences

  /** The index of the group whose key is `k`, or `|groups|` when there is none. */
  function FindGroup<T, K(==)>(groups: seq<seq<T>>, key: T -> K, k: K): (i: nat)
    ensures i <= |groups|
    ensures i < |groups| ==> |groups[i]| > 0 && key(groups[i][0]) == k
    ensures forall j :: 0 <= j < i && |groups[j]| > 0 ==> key(groups[j][0]) != k
  {
    if |groups| == 0 then 0
    else if |groups[0]| > 0 && key(groups[0][0]) == k then 0
    else 1 + FindGroup(groups[1..], key, k)
  }

  /** One step of the reduce: push `x` into the group of its key, creating it if absent. */
  function AddToGroups<T, K(==)>(groups: seq<seq<T>>, x: T, key: T -> K): seq<seq<T>> {
    var i := FindGroup(groups, key, key(x));
    if i < |groups| then groups[i := groups[i] + [x]] else groups + [[x]]
  }

  /** The whole reduce over `s`, left to right; groups are listed in first-seen order. */
  function GroupBy<T, K(==)>(s: seq<T>, key: T -> K): seq<seq<T>> {
    if |s| == 0 then [] else AddToGroups(GroupBy(s[..|s| - 1], key), s[|s| - 1], key)
  }

  /** The elements of `s` whose key is `k`, in input order. */
  function WithKey<T, K(==)>(s: seq<T>, key: T -> K, k: K): seq<T> {
    Filter(s, x => key(x) == k)
  }

  /**
   * `groups` is the grouping of `s` by `key`: every group is non-empty and is
   * exactly the input-ordered list of the elements of its key, no two groups
   * share a key, and every element's key has a group.
   */
  ghost predicate IsGroupingOf<T, K>(groups: seq<seq<T>>, s: seq<T>, key: T -> K) {
    && (forall i :: 0 <= i < |groups| ==>
          |groups[i]| > 0 && groups[i] == WithKey(s, key, key(groups[i][0])))
    && (forall i, j :: 0 <= i < j < |groups| ==> key(groups[i][0]) != key(groups[j][0]))
    && (forall x :: x in s ==> exists i :: 0 <= i < |groups| && key(groups[i][0]) == key(x))
  }

  lemma WithKeySnoc<T, K>(s: seq<T>, x: T, key: T -> K, k: K)
    ensures WithKey(s + [x], key, k) == WithKey(s, key, k) + (if key(x) == k then [x] else [])
  {
    FilterSnoc(s, x, y => key(y) == k);
  }

  lemma WithKeyEmpty<T, K>(s: seq<T>, key: T -> K, k: K)
    requires forall x :: x in s ==> key(x) != k
    ensures WithKey(s, key, k) == []
  {
    var r := WithKey(s, key, k);
    if |r| > 0 {
      FilterMembership(s, y => key(y) == k, r[0]);
    }
  }

  /** The reduce computes the grouping. */
  lemma {:induction false} GroupByIsGrouping<T, K>(s: seq<T>, key: T -> K)
    ensures IsGroupingOf(GroupBy(s, key), s, key)
  {
    if |s| > 0 {
      var s', x := s[..|s| - 1], s[|s| - 1];
      assert s == s' + [x];
      var g' := GroupBy(s', key);
      GroupByIsGrouping(s', key);
      var g := GroupBy(s, key);
      var i := FindGroup(g', key, key(x));
      forall j | 0 <= j < |g'|
        ensures key(g[j][0]) == key(g'[j][0])
      {
      }
      forall j | 0 <= j < |g|
        ensures |g[j]| > 0 && g[j] == WithKey(s, key, key(g[j][0]))
      {
        WithKeySnoc(s', x, key, key(g[j][0]));
        if j == |g'| {
          forall y | y in s' ensures key(y) != key(x) { }
          WithKeyEmpty(s', key, key(x));
        }
      }
      forall y | y in s
        ensures exists j :: 0 <= j < |g| && key(g[j][0]) == key(y)
      {
        if y in s' {
          var j :| 0 <= j < |g'| && key(g'[j][0]) == key(y);
          assert key(g[j][0]) == key(y);
        } else if i < |g'| {
          assert key(g[i][0]) == key(y);
        } else {
          assert key(g[|g'|][0]) == key(y);
        }
      }
    }
  }

  /** Every element of the input lies in some group, and groups hold only input elements. */
  lemma GroupingCovers<T, K>(groups: seq<seq<T>>, s: seq<T>, key: T -> K, x: T)
    requires IsGroupingOf(groups, s, key)
    ensures x in s <==> exists i :: 0 <= i < |groups| && x in groups[i]
  {
    if x in s {
      var i :| 0 <= i < |groups| && key(groups[i][0]) == key(x);
      FilterMembership(s, y => key(y) == key(groups[i][0]), x);
    }
    if exists i :: 0 <= i < |groups| && x in groups[i] {
      var i :| 0 <= i < |groups| && x in groups[i];
      FilterMembership(s, y => key(y) == key(groups[i][0]), x);
    }
  }

  /** All members of a group share the group's key, and the group keeps the input order. */
  lemma GroupingMembers<T, K>(groups: seq<seq<T>>, s: seq<T>, key: T -> K, i: nat, x: T)
    requires IsGroupingOf(groups, s, key)
    requires i < |groups| && x in groups[i]
    ensures key(x) == key(groups[i][0])
    ensures IsSubsequence(groups[i], s)
  {
    FilterMembership(s, y => key(y) == key(groups[i][0]), x);
    FilterIsSubsequence(s, y => key(y) == key(groups[i][0]));
  }

  /** No element lies in two different groups. */
  lemma GroupingDisjoint<T, K>(groups: seq<seq<T>>, s: seq<T>, key: T -> K, i: nat, j: nat, x: T)
    requires IsGroupingOf(groups, s, key)
    requires i < |groups| && j < |groups| && x in groups[i] && x in groups[j]
    ensures i == j
  {
    GroupingMembers(groups, s, key, i, x);
    GroupingMembers(groups, s, key, j, x);
  }

  /** There is a group exactly when there is an element. */
  lemma GroupingNonEmpty<T, K>(groups: seq<seq<T>>, s: seq<T>, key: T -> K)
    requires IsGroupingOf(groups, s, key)
    ensures |groups| > 0 <==> |s| > 0
  {
    if |s| > 0 {
      assert s[0] in s;
    }
    if |groups| > 0 {
      GroupingCovers(groups, s, key, groups[0][0]);
    }
  }

  /** `x` is in group `i` and in no other. */
  ghost predicate OnlyIn<T>(groups: seq<seq<T>>, x: T, i: nat) {
    i < |groups| && x in groups[i] && forall j :: 0 <= j < |groups| && x in groups[j] ==> j == i
  }

  /**
   * The partition property of the grouping, for one element: it belongs to
   * exactly one group, and that group is the one of its key.
   */
  lemma {:induction false} GroupByPartition<T, K>(s: seq<T>, key: T -> K, x: T)
    requires x in s
    ensures exists i: nat :: OnlyIn(GroupBy(s, key), x, i) && key(GroupBy(s, key)[i][0]) == key(x)
  {
    var g := GroupBy(s, key);
    GroupByIsGrouping(s, key);
    GroupingCovers(g, s, key, x);
    var i :| 0 <= i < |g| && x in g[i];
    GroupingMembers(g, s, key, i, x);
    forall j | 0 <= j < |g| && x in g[j] ensures j == i {
      GroupingDisjoint(g, s, key, i, j, x);
    }
    assert OnlyIn(g, x, i);
  }
}
