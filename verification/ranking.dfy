/**
 * Python's `list.sort(key=...)` as the clients use it to order analysis
 * candidates: a stable sort into NON-INCREASING order of a two-level rank
 * (the clients sort on the negated visit count and win rate).
 *
 * The sort is specified by insertion: `StableSort` inserts the elements one by
 * one, each after every element whose rank is at least its own. The lemmas
 * show that the result is ordered, is a permutation of the input, and keeps
 * the input order among elements of equal rank (which pins down Python's
 * stable sort uniquely), and that it keeps a sequence free of duplicate keys.
 */
module Ranking {

  datatype Rank = Rank(major: int, minor: int)

  /** `a` may stand before `b` in a non-increasing order. */
  predicate Precedes(a: Rank, b: Rank) {
    a.major > b.major || (a.major == b.major && a.minor >= b.minor)
  }

  predicate Sorted<T>(s: seq<T>, key: T -> Rank) {
    forall i, j :: 0 <= i < j < |s| ==> Precedes(key(s[i]), key(s[j]))
  }

  /** The elements of `s` whose rank is `k`, in their order in `s`. */
  function Having<T>(s: seq<T>, key: T -> Rank, k: Rank): (tied: seq<T>) {
    if s == [] then [] else (if key(s[0]) == k then [s[0]] else []) + Having(s[1..], key, k)
  }

  /** No two elements of `s` share an identifier. */
  predicate Distinct<T, K(==)>(s: seq<T>, id: T -> K) {
    forall i, j :: 0 <= i < j < |s| ==> id(s[i]) != id(s[j])
  }

  /** `x` placed after every element of `s` that ranks at least as high. */
  function Insert<T>(x: T, s: seq<T>, key: T -> Rank): (r: seq<T>)
    ensures |r| == |s| + 1
    ensures multiset(r) == multiset(s) + multiset{x}
  {
    if s == [] then [x]
    else if Precedes(key(s[0]), key(x)) then
      assert s == [s[0]] + s[1..];
      [s[0]] + Insert(x, s[1..], key)
    else [x] + s
  }

  /** Python's stable `sort` into non-increasing rank order. */
  function StableSort<T>(s: seq<T>, key: T -> Rank): (r: seq<T>)
    ensures |r| == |s|
    ensures multiset(r) == multiset(s)
  {
    if s == [] then []
    else
      assert s == s[..|s| - 1] + [s[|s| - 1]];
      Insert(s[|s| - 1], StableSort(s[..|s| - 1], key), key)
  }

  lemma {:induction false} InsertSorted<T>(x: T, s: seq<T>, key: T -> Rank)
    requires Sorted(s, key)
    ensures Sorted(Insert(x, s, key), key)
  {
    if s != [] && Precedes(key(s[0]), key(x)) {
      var t := Insert(x, s[1..], key);
      InsertSorted(x, s[1..], key);
      forall y | y in t ensures Precedes(key(s[0]), key(y)) {
        assert y in multiset(t);
        assert y == x || y in multiset(s[1..]);
        if y != x {
          var j :| 0 <= j < |s[1..]| && s[1..][j] == y;
          assert s[j + 1] == y;
        }
      }
      var r := [s[0]] + t;
      forall i, j | 0 <= i < j < |r| ensures Precedes(key(r[i]), key(r[j])) {
        if i == 0 {
          assert r[j] == t[j - 1];
          assert r[j] in t;
        } else {
          assert r[i] == t[i - 1] && r[j] == t[j - 1];
        }
      }
    } else if s != [] {
      var r := [x] + s;
      forall i, j | 0 <= i < j < |r| ensures Precedes(key(r[i]), key(r[j])) {
        if i == 0 {
          assert r[j] == s[j - 1];
          assert Precedes(key(s[0]), key(s[j - 1])) || j - 1 == 0;
        } else {
          assert r[i] == s[i - 1] && r[j] == s[j - 1];
        }
      }
    }
  }

  lemma {:induction false} SortSorted<T>(s: seq<T>, key: T -> Rank)
    ensures Sorted(StableSort(s, key), key)
  {
    if s != [] {
      SortSorted(s[..|s| - 1], key);
      InsertSorted(s[|s| - 1], StableSort(s[..|s| - 1], key), key);
    }
  }

  lemma AppendAssoc<T>(a: seq<T>, b: seq<T>, c: seq<T>)
    ensures a + (b + c) == (a + b) + c
  {
  }

  /** Dropping the last element drops it from the elements of its rank. */
  lemma {:induction false} HavingLast<T>(s: seq<T>, key: T -> Rank, k: Rank)
    requires s != []
    ensures Having(s, key, k) == Having(s[..|s| - 1], key, k) + (if key(s[|s| - 1]) == k then [s[|s| - 1]] else [])
  {
    var b := if key(s[|s| - 1]) == k then [s[|s| - 1]] else [];
    if |s| == 1 {
      assert s[..0] == [];
      assert Having(s, key, k) == b + Having(s[1..], key, k);
      assert s[1..] == [];
    } else {
      var a := if key(s[0]) == k then [s[0]] else [];
      var front := s[..|s| - 1];
      HavingLast(s[1..], key, k);
      assert s[1..][..|s| - 2] == front[1..];
      assert s[1..][|s| - 2] == s[|s| - 1];
      assert front[0] == s[0];
      assert Having(front, key, k) == a + Having(front[1..], key, k);
      AppendAssoc(a, Having(front[1..], key, k), b);
    }
  }

  /** In a sorted sequence, nothing after a strictly lower rank has rank `k`. */
  lemma {:induction false} HavingBelow<T>(s: seq<T>, key: T -> Rank, k: Rank)
    requires Sorted(s, key)
    requires s != [] ==> !Precedes(key(s[0]), k)
    ensures Having(s, key, k) == []
  {
    if s != [] {
      assert key(s[0]) != k;
      if |s| > 1 {
        assert Precedes(key(s[0]), key(s[1]));
      }
      HavingBelow(s[1..], key, k);
    }
  }

  /** The step of `InsertHaving` where `x` goes past the first element. */
  lemma InsertHavingPast<T>(x: T, s: seq<T>, key: T -> Rank, k: Rank)
    requires s != [] && Precedes(key(s[0]), key(x))
    requires Having(Insert(x, s[1..], key), key, k) == Having(s[1..], key, k) + (if key(x) == k then [x] else [])
    ensures Having(Insert(x, s, key), key, k) == Having(s, key, k) + (if key(x) == k then [x] else [])
  {
    var a := if key(s[0]) == k then [s[0]] else [];
    var b := if key(x) == k then [x] else [];
    var rest := Insert(x, s[1..], key);
    var r := [s[0]] + rest;
    assert r[0] == s[0] && r[1..] == rest;
    assert Having(r, key, k) == a + Having(rest, key, k);
    AppendAssoc(a, Having(s[1..], key, k), b);
  }

  /** The step of `InsertHaving` where `x` goes in front. */
  lemma InsertHavingFront<T>(x: T, s: seq<T>, key: T -> Rank, k: Rank)
    requires Sorted(s, key) && s != [] && !Precedes(key(s[0]), key(x))
    ensures Having(Insert(x, s, key), key, k) == Having(s, key, k) + (if key(x) == k then [x] else [])
  {
    var b := if key(x) == k then [x] else [];
    var r := [x] + s;
    assert r[0] == x && r[1..] == s;
    assert Having(r, key, k) == b + Having(s, key, k);
    if key(x) == k {
      HavingBelow(s, key, k);
    }
  }

  lemma {:induction false} InsertHaving<T>(x: T, s: seq<T>, key: T -> Rank, k: Rank)
    requires Sorted(s, key)
    ensures Having(Insert(x, s, key), key, k)
         == Having(s, key, k) + (if key(x) == k then [x] else [])
  {
    if s == [] {
      assert Having([x], key, k) == (if key(x) == k then [x] else []) + Having([], key, k);
    } else if Precedes(key(s[0]), key(x)) {
      InsertHaving(x, s[1..], key, k);
      InsertHavingPast(x, s, key, k);
    } else {
      InsertHavingFront(x, s, key, k);
    }
  }

  /** The sort is stable: for every rank, the elements of that rank keep their order. */
  lemma {:induction false} SortStable<T>(s: seq<T>, key: T -> Rank, k: Rank)
    ensures Having(StableSort(s, key), key, k) == Having(s, key, k)
  {
    if s != [] {
      var p, x := s[..|s| - 1], s[|s| - 1];
      var t := StableSort(p, key);
      assert StableSort(s, key) == Insert(x, t, key);
      SortSorted(p, key);
      InsertHaving(x, t, key, k);
      SortStable(p, key, k);
      HavingLast(s, key, k);
    }
  }

  lemma {:induction false} InsertDistinct<T, K>(x: T, s: seq<T>, key: T -> Rank, id: T -> K)
    requires Distinct(s, id)
    requires forall y | y in s :: id(y) != id(x)
    ensures Distinct(Insert(x, s, key), id)
  {
    if s != [] && Precedes(key(s[0]), key(x)) {
      var t := Insert(x, s[1..], key);
      InsertDistinct(x, s[1..], key, id);
      forall y | y in t ensures id(y) != id(s[0]) {
        assert y in multiset(t);
        if y != x {
          assert y in multiset(s[1..]);
          var j :| 0 <= j < |s[1..]| && s[1..][j] == y;
          assert s[j + 1] == y;
        }
      }
      var r := [s[0]] + t;
      forall i, j | 0 <= i < j < |r| ensures id(r[i]) != id(r[j]) {
        if i == 0 {
          assert r[j] in t;
        } else {
          assert r[i] == t[i - 1] && r[j] == t[j - 1];
        }
      }
    } else if s != [] {
      var r := [x] + s;
      forall i, j | 0 <= i < j < |r| ensures id(r[i]) != id(r[j]) {
        if i == 0 {
          assert r[j] in s;
        } else {
          assert r[i] == s[i - 1] && r[j] == s[j - 1];
        }
      }
    }
  }

  /** Sorting never introduces two elements with the same identifier. */
  lemma {:induction false} SortDistinct<T, K>(s: seq<T>, key: T -> Rank, id: T -> K)
    requires Distinct(s, id)
    ensures Distinct(StableSort(s, key), id)
  {
    if s != [] {
      var p, x := s[..|s| - 1], s[|s| - 1];
      SortDistinct(p, key, id);
      var t := StableSort(p, key);
      forall y | y in t ensures id(y) != id(x) {
        assert y in multiset(t);
        assert y in multiset(p);
        var j :| 0 <= j < |p| && p[j] == y;
        assert s[j] == y;
      }
      InsertDistinct(x, t, key, id);
    }
  }
}
