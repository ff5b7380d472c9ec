/**
 * Stable ordering of sequences by a real-valued key: the linear sorted
 * insertion used by the taxi priority queue, and the stable sort that
 * `Array.prototype.sort` performs with a numeric comparator.
 */
module Sorting {

  /** Ascending (non-decreasing) by `key`. */
  ghost predicate SortedBy<T>(s: seq<T>, key: T -> real) {
    forall i, j :: 0 <= i < j < |s| ==> key(s[i]) <= key(s[j])
  }

  /** No two elements share the same `f` (used for identifiers). */
  ghost predicate DistinctBy<T, U>(s: seq<T>, f: T -> U) {
    forall i, j :: 0 <= i < j < |s| ==> f(s[i]) != f(s[j])
  }

  /**
   * Inserts `x` in front of the first element whose key is strictly larger
   * than `key(x)`, or at the end when there is none.
   */
  function InsertBy<T>(x: T, s: seq<T>, key: T -> real): (r: seq<T>)
    ensures |r| == |s| + 1
    ensures multiset(r) == multiset(s) + multiset{x}
  {
    if s == [] then [x]
    else if key(x) < key(s[0]) then [x] + s
    else
      assert s == [s[0]] + s[1..];
      [s[0]] + InsertBy(x, s[1..], key)
  }

  /** The elements after an insertion are the old ones and the new one. */
  lemma InsertByMembers<T>(x: T, s: seq<T>, key: T -> real)
    ensures forall y :: y in InsertBy(x, s, key) <==> y in s || y == x
  {
    var r := InsertBy(x, s, key);
    forall y ensures y in r <==> y in s || y == x {
      assert y in r <==> y in multiset(r);
      assert y in s <==> y in multiset(s);
    }
  }

  /**
   * The insertion position: everything before it has a key at most `key(x)`
   * and the element right after it, if any, has a strictly larger key.
   */
  lemma {:induction false} InsertByAt<T>(x: T, s: seq<T>, key: T -> real, k: nat)
    requires k <= |s|
    requires forall j :: 0 <= j < k ==> key(s[j]) <= key(x)
    requires k < |s| ==> key(x) < key(s[k])
    ensures InsertBy(x, s, key) == s[..k] + [x] + s[k..]
  {
    if k == 0 {
      assert s[..0] + [x] + s[0..] == [x] + s;
    } else {
      var t := s[1..];
      forall j | 0 <= j < k - 1 ensures key(t[j]) <= key(x) {
        assert t[j] == s[j + 1];
      }
      InsertByAt(x, t, key, k - 1);
      ConsSplit(s, x, k);
    }
  }

  lemma ConsSplit<T>(s: seq<T>, x: T, k: nat)
    requires 0 < k <= |s|
    ensures [s[0]] + (s[1..][..k - 1] + [x] + s[1..][k - 1..]) == s[..k] + [x] + s[k..]
  {
    assert [s[0]] + s[1..][..k - 1] == s[..k];
    assert s[1..][k - 1..] == s[k..];
  }

  /** The converse of InsertByAt: every insertion happens at such a position. */
  lemma {:induction false} InsertBySplit<T>(x: T, s: seq<T>, key: T -> real) returns (k: nat)
    ensures k <= |s|
    ensures forall j :: 0 <= j < k ==> key(s[j]) <= key(x)
    ensures k < |s| ==> key(x) < key(s[k])
    ensures InsertBy(x, s, key) == s[..k] + [x] + s[k..]
  {
    if s == [] || key(x) < key(s[0]) {
      k := 0;
    } else {
      var k' := InsertBySplit(x, s[1..], key);
      k := k' + 1;
    }
    InsertByAt(x, s, key, k);
  }

  /** Inserting into an ascending sequence keeps it ascending. */
  lemma {:induction false} InsertBySorted<T>(x: T, s: seq<T>, key: T -> real)
    requires SortedBy(s, key)
    ensures SortedBy(InsertBy(x, s, key), key)
  {
    if s != [] && !(key(x) < key(s[0])) {
      InsertBySorted(x, s[1..], key);
      var r := InsertBy(x, s[1..], key);
      forall e | e in multiset(r) ensures key(s[0]) <= key(e) {
        if e != x {
          assert e in multiset(s[1..]);
          var j :| 0 <= j < |s[1..]| && s[1..][j] == e;
          assert s[j + 1] == e;
        }
      }
      forall i | 0 <= i < |r| ensures key(s[0]) <= key(r[i]) {
        assert r[i] in multiset(r);
      }
    }
  }

  /**
   * In an ascending sequence the new element lands after every element whose
   * key equals its own and before every larger one.
   */
  lemma InsertByAfterEquals<T>(x: T, s: seq<T>, key: T -> real) returns (k: nat)
    requires SortedBy(s, key)
    ensures k <= |s|
    ensures InsertBy(x, s, key) == s[..k] + [x] + s[k..]
    ensures forall j :: 0 <= j < k ==> key(s[j]) <= key(x)
    ensures forall j :: k <= j < |s| ==> key(x) < key(s[j])
  {
    k := InsertBySplit(x, s, key);
  }

  /** Stable ascending sort: each later element goes after its earlier equals. */
  function SortBy<T>(s: seq<T>, key: T -> real): (r: seq<T>)
    ensures |r| == |s|
    ensures multiset(r) == multiset(s)
    ensures SortedBy(r, key)
  {
    if s == [] then []
    else
      var t := SortBy(s[..|s| - 1], key);
      InsertBySorted(s[|s| - 1], t, key);
      assert s == s[..|s| - 1] + [s[|s| - 1]];
      InsertBy(s[|s| - 1], t, key)
  }

  /** Sorting neither adds nor loses elements. */
  lemma SortByMembers<T>(s: seq<T>, key: T -> real)
    ensures forall y :: y in SortBy(s, key) <==> y in s
  {
    var r := SortBy(s, key);
    forall y ensures y in r <==> y in s {
      assert y in r <==> y in multiset(r);
      assert y in s <==> y in multiset(s);
    }
  }

  /** Putting an element with a new `f` in front keeps the identifiers distinct. */
  lemma ConsDistinct<T, U>(a: T, t: seq<T>, f: T -> U)
    requires DistinctBy(t, f)
    requires forall j :: 0 <= j < |t| ==> f(t[j]) != f(a)
    ensures DistinctBy([a] + t, f)
  {
    var r := [a] + t;
    forall i, j | 0 <= i < j < |r| ensures f(r[i]) != f(r[j]) {
      assert r[j] == t[j - 1];
      if i > 0 {
        assert r[i] == t[i - 1];
      }
    }
  }

  /** Inserting an element whose `f` is new keeps the identifiers distinct. */
  lemma {:induction false} InsertByDistinct<T, U>(x: T, s: seq<T>, key: T -> real, f: T -> U)
    requires DistinctBy(s, f)
    requires forall j :: 0 <= j < |s| ==> f(s[j]) != f(x)
    ensures DistinctBy(InsertBy(x, s, key), f)
  {
    if s == [] {
    } else if key(x) < key(s[0]) {
      ConsDistinct(x, s, f);
    } else {
      var tail := s[1..];
      assert DistinctBy(tail, f) by {
        forall i, j | 0 <= i < j < |tail| ensures f(tail[i]) != f(tail[j]) {
          assert tail[i] == s[i + 1] && tail[j] == s[j + 1];
        }
      }
      assert forall j :: 0 <= j < |tail| ==> tail[j] == s[j + 1];
      InsertByDistinct(x, tail, key, f);
      var t := InsertBy(x, tail, key);
      forall j | 0 <= j < |t| ensures f(t[j]) != f(s[0]) {
        assert t[j] in multiset(t);
        if t[j] != x {
          assert t[j] in multiset(tail);
          var m :| 0 <= m < |tail| && tail[m] == t[j];
          assert s[m + 1] == t[j];
        }
      }
      ConsDistinct(s[0], t, f);
    }
  }

  /** Sorting keeps the identifiers distinct. */
  lemma {:induction false} SortByDistinct<T, U>(s: seq<T>, key: T -> real, f: T -> U)
    requires DistinctBy(s, f)
    ensures DistinctBy(SortBy(s, key), f)
  {
    if s != [] {
      var p := s[..|s| - 1];
      var x := s[|s| - 1];
      SortByDistinct(p, key, f);
      var t := SortBy(p, key);
      forall j | 0 <= j < |t| ensures f(t[j]) != f(x) {
        assert t[j] in multiset(p);
        var q :| 0 <= q < |p| && p[q] == t[j];
        assert s[q] == t[j];
      }
      InsertByDistinct(x, t, key, f);
    }
  }
}
