/** Python's `sorted(..., key=...)` on a real-valued key: a stable insertion sort,
    proved to return an ascending permutation of its input. */
module Sorting {

  predicate SortedBy<T>(s: seq<T>, key: T -> real)
  {
    forall i, j :: 0 <= i < j < |s| ==> key(s[i]) <= key(s[j])
  }

  /** Inserts `x` after every element whose key is not greater than its own. */
  function Insert<T>(x: T, s: seq<T>, key: T -> real): (r: seq<T>)
    ensures |r| == |s| + 1
    ensures multiset(r) == multiset(s) + multiset{x}
  {
    if s == [] then [x]
    else if key(x) < key(s[0]) then [x] + s
    else
      assert s == [s[0]] + s[1..];
      [s[0]] + Insert(x, s[1..], key)
  }

  /** Inserting into an ascending sequence keeps it ascending. */
  lemma {:induction false} InsertSorted<T>(x: T, s: seq<T>, key: T -> real)
    requires SortedBy(s, key)
    ensures SortedBy(Insert(x, s, key), key)
    decreases |s|
  {
    if s != [] && key(x) >= key(s[0]) {
      var rest := Insert(x, s[1..], key);
      InsertSorted(x, s[1..], key);
      assert multiset(rest) == multiset(s[1..]) + multiset{x};
      forall i | 0 <= i < |rest| ensures key(s[0]) <= key(rest[i]) {
        assert rest[i] in multiset(rest);
        if rest[i] != x {
          assert rest[i] in multiset(s[1..]);
          var j :| 0 <= j < |s[1..]| && s[1..][j] == rest[i];
          assert s[j + 1] == rest[i];
        }
      }
      var r := [s[0]] + rest;
      forall i, j | 0 <= i < j < |r| ensures key(r[i]) <= key(r[j]) {
        if i > 0 {
          assert r[i] == rest[i - 1] && r[j] == rest[j - 1];
        } else {
          assert r[j] == rest[j - 1];
        }
      }
    }
  }

  /** `sorted(s, key=key)`. */
  function SortBy<T>(s: seq<T>, key: T -> real): (r: seq<T>)
    ensures |r| == |s|
    ensures multiset(r) == multiset(s)
    ensures SortedBy(r, key)
  {
    if s == [] then []
    else
      assert s == s[..|s| - 1] + [s[|s| - 1]];
      var sorted := SortBy(s[..|s| - 1], key);
      InsertSorted(s[|s| - 1], sorted, key);
      Insert(s[|s| - 1], sorted, key)
  }

  /** The first `n` elements of an ascending permutation are the `n` smallest:
      no element left out has a smaller key than one kept. */
  lemma {:induction false} SortedPrefixSmallest<T>(s: seq<T>, key: T -> real, n: nat, x: T)
    requires n <= |s|
    requires x in s && x !in SortBy(s, key)[..n]
    ensures forall i :: 0 <= i < n ==> key(SortBy(s, key)[i]) <= key(x)
  {
    var r := SortBy(s, key);
    assert x in multiset(s);
    assert x in multiset(r);
    assert x in r;
    var j :| 0 <= j < |r| && r[j] == x;
    assert j >= n;
  }

  /** A prefix of the sorted sequence is ascending and made of input elements. */
  lemma SortedPrefix<T>(s: seq<T>, key: T -> real, n: nat)
    requires n <= |s|
    ensures SortedBy(SortBy(s, key)[..n], key)
    ensures forall i :: 0 <= i < n ==> SortBy(s, key)[i] in s
  {
    var r := SortBy(s, key);
    forall i | 0 <= i < n ensures r[i] in s {
      assert r[i] in multiset(r);
    }
  }
}
