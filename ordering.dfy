/**
 * `ORDER BY key DESC`, `LIMIT` and `OFFSET`, and the client's `[...xs].sort(cmp).slice(0, n)`,
 * over sequences. Sorting is a stable insertion sort on a real-valued key: rows with equal keys
 * keep their original relative order, as JavaScript's `Array.prototype.sort` promises; SQL
 * leaves that order unspecified, so the stable order is one of the orders it may return.
 */
module Ordering {

  function Min(a: nat, b: nat): nat {
    if a <= b then a else b
  }

  /** Keys never increase from left to right. */
  ghost predicate SortedDesc<T>(s: seq<T>, key: T -> real) {
    forall i, j :: 0 <= i < j < |s| ==> key(s[i]) >= key(s[j])
  }

  /** Insert `x` into a list sorted by decreasing key, before the first element whose key is not larger. */
  function Insert<T>(x: T, s: seq<T>, key: T -> real): (r: seq<T>)
    requires SortedDesc(s, key)
    ensures |r| == |s| + 1
    ensures multiset(r) == multiset(s) + multiset{x}
    ensures r[0] == x || (s != [] && r[0] == s[0])
    ensures SortedDesc(r, key)
  {
    if s == [] || key(s[0]) <= key(x) then
      var r := [x] + s;
      assert SortedDesc(r, key) by {
        forall i, j | 0 <= i < j < |r| ensures key(r[i]) >= key(r[j]) {
          if i > 0 {
            assert r[i] == s[i - 1] && r[j] == s[j - 1];
          } else {
            assert r[j] == s[j - 1];
          }
        }
      }
      r
    else
      var tail := Insert(x, s[1..], key);
      var r := [s[0]] + tail;
      assert SortedDesc(r, key) by {
        assert key(tail[0]) <= key(s[0]);
        forall i, j | 0 <= i < j < |r| ensures key(r[i]) >= key(r[j]) {
          assert r[j] == tail[j - 1];
          if i > 0 {
            assert r[i] == tail[i - 1];
          } else if j > 1 {
            assert key(tail[0]) >= key(tail[j - 1]);
          }
        }
      }
      assert s == [s[0]] + s[1..];
      assert multiset(r) == multiset{s[0]} + multiset(tail);
      r
  }

  /** The elements of `s` ordered by decreasing key; stable. */
  function SortDesc<T>(s: seq<T>, key: T -> real): (r: seq<T>)
    ensures |r| == |s|
    ensures multiset(r) == multiset(s)
    ensures SortedDesc(r, key)
  {
    if s == [] then []
    else
      assert s == [s[0]] + s[1..];
      Insert(s[0], SortDesc(s[1..], key), key)
  }

  /** `ORDER BY key ASC` (and the comparator `(a, b) => key(a) - key(b)`), as a descending sort on the negated key. */
  function SortAsc<T>(s: seq<T>, key: T -> real): (r: seq<T>)
    ensures |r| == |s|
    ensures multiset(r) == multiset(s)
    ensures forall i, j :: 0 <= i < j < |r| ==> key(r[i]) <= key(r[j])
  {
    var r := SortDesc(s, x => -key(x));
    assert forall i, j :: 0 <= i < j < |r| ==> -key(r[i]) >= -key(r[j]);
    r
  }

  /** `LIMIT n` and `slice(0, n)`. */
  function Take<T>(s: seq<T>, n: nat): (r: seq<T>)
    ensures |r| == Min(n, |s|)
    ensures r <= s
  {
    s[..Min(n, |s|)]
  }

  /** `OFFSET n`. */
  function Drop<T>(s: seq<T>, n: nat): (r: seq<T>)
    ensures |r| == |s| - Min(n, |s|)
    ensures forall i :: 0 <= i < |r| ==> r[i] == s[i + Min(n, |s|)]
  {
    s[Min(n, |s|)..]
  }

  /** Cutting a sorted list at `n` leaves no key in the rest larger than a key in the prefix. */
  lemma {:induction false} CutSortedDesc<T>(sorted: seq<T>, key: T -> real, n: nat)
    requires SortedDesc(sorted, key)
    ensures sorted == Take(sorted, n) + Drop(sorted, n)
    ensures forall i, j :: 0 <= i < |Take(sorted, n)| && 0 <= j < |Drop(sorted, n)| ==>
              key(Take(sorted, n)[i]) >= key(Drop(sorted, n)[j])
  {
    var k := Min(n, |sorted|);
    forall i, j | 0 <= i < |Take(sorted, n)| && 0 <= j < |Drop(sorted, n)|
      ensures key(Take(sorted, n)[i]) >= key(Drop(sorted, n)[j])
    {
      assert Take(sorted, n)[i] == sorted[i] && Drop(sorted, n)[j] == sorted[k + j];
    }
  }

  /**
   * The first `n` of a descending sort are the top `n`: the input splits into the rows taken and the
   * rows left out, and no row left out has a larger key than a row taken.
   */
  lemma {:induction false} TopByKey<T>(s: seq<T>, key: T -> real, n: nat)
    ensures multiset(s) == multiset(Take(SortDesc(s, key), n)) + multiset(Drop(SortDesc(s, key), n))
    ensures forall i, j :: 0 <= i < |Take(SortDesc(s, key), n)| && 0 <= j < |Drop(SortDesc(s, key), n)| ==>
              key(Take(SortDesc(s, key), n)[i]) >= key(Drop(SortDesc(s, key), n)[j])
  {
    var sorted := SortDesc(s, key);
    CutSortedDesc(sorted, key, n);
    assert multiset(sorted) == multiset(Take(sorted, n)) + multiset(Drop(sorted, n));
  }

  /** The same for an ascending sort: no row left out has a smaller key than a row taken. */
  lemma {:induction false} BottomByKey<T>(s: seq<T>, key: T -> real, n: nat)
    ensures multiset(s) == multiset(Take(SortAsc(s, key), n)) + multiset(Drop(SortAsc(s, key), n))
    ensures forall i, j :: 0 <= i < |Take(SortAsc(s, key), n)| && 0 <= j < |Drop(SortAsc(s, key), n)| ==>
              key(Take(SortAsc(s, key), n)[i]) <= key(Drop(SortAsc(s, key), n)[j])
  {
    var sorted := SortAsc(s, key);
    var neg := x => -key(x);
    assert SortedDesc(sorted, neg);
    CutSortedDesc(sorted, neg, n);
    assert multiset(sorted) == multiset(Take(sorted, n)) + multiset(Drop(sorted, n));
  }
  /** A page (`LIMIT n OFFSET m`) of a descending list is itself descending. */
  lemma SortedPage<T>(sorted: seq<T>, key: T -> real, m: nat, n: nat)
    requires SortedDesc(sorted, key)
    ensures SortedDesc(Take(Drop(sorted, m), n), key)
  {
    var page := Take(Drop(sorted, m), n);
    forall i, j | 0 <= i < j < |page| ensures key(page[i]) >= key(page[j]) {
      assert page[i] == Drop(sorted, m)[i] && page[j] == Drop(sorted, m)[j];
    }
  }

  /** A page of a descending sort is descending, and every row on it is a row of the input. */
  lemma PageOfSort<T>(s: seq<T>, key: T -> real, m: nat, n: nat)
    ensures SortedDesc(Take(Drop(SortDesc(s, key), m), n), key)
    ensures forall x :: x in Take(Drop(SortDesc(s, key), m), n) ==> x in s
  {
    var sorted := SortDesc(s, key);
    var page := Take(Drop(sorted, m), n);
    SortedPage(sorted, key, m, n);
    forall x | x in page ensures x in s {
      var i :| 0 <= i < |page| && page[i] == x;
      assert page[i] == Drop(sorted, m)[i] == sorted[i + Min(m, |sorted|)];
      assert x in multiset(sorted);
    }
  }

  /** Element form of `TopByKey`: a row of the input left out of the first `n` has no larger key than a row taken. */
  lemma TopElements<T>(s: seq<T>, key: T -> real, n: nat)
    ensures forall x, y :: x in Take(SortDesc(s, key), n) && y in s && y !in Take(SortDesc(s, key), n) ==>
              key(x) >= key(y)
  {
    var shown := Take(SortDesc(s, key), n);
    var rest := Drop(SortDesc(s, key), n);
    TopByKey(s, key, n);
    forall x, y | x in shown && y in s && y !in shown ensures key(x) >= key(y) {
      assert y in multiset(s);
      assert y in multiset(rest);
      var i :| 0 <= i < |shown| && shown[i] == x;
      var j :| 0 <= j < |rest| && rest[j] == y;
    }
  }

  /** Element form of `BottomByKey`: a row of the input left out of the first `n` has no smaller key than a row taken. */
  lemma BottomElements<T>(s: seq<T>, key: T -> real, n: nat)
    ensures forall x, y :: x in Take(SortAsc(s, key), n) && y in s && y !in Take(SortAsc(s, key), n) ==>
              key(x) <= key(y)
  {
    var shown := Take(SortAsc(s, key), n);
    var rest := Drop(SortAsc(s, key), n);
    BottomByKey(s, key, n);
    forall x, y | x in shown && y in s && y !in shown ensures key(x) <= key(y) {
      assert y in multiset(s);
      assert y in multiset(rest);
      var i :| 0 <= i < |shown| && shown[i] == x;
      var j :| 0 <= j < |rest| && rest[j] == y;
    }
  }
}
