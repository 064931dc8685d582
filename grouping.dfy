/**
 * `GROUP BY`: rows split into groups by a key, the groups in order of the first row of each key,
 * the rows of a group in input order. Aggregates (`COUNT(*)`, `SUM(x)`) are computed over the
 * members of each group.
 */
module Grouping {

  datatype Group<K, T> = Group(key: K, members: seq<T>)

  /** The position of the group with key `k`, or -1 when there is none. */
  function IndexOfKey<K(==), T>(gs: seq<Group<K, T>>, k: K): (i: int)
    ensures -1 <= i < |gs|
    ensures i >= 0 ==> gs[i].key == k
    ensures i < 0 ==> forall j :: 0 <= j < |gs| ==> gs[j].key != k
  {
    if gs == [] then -1
    else if gs[|gs| - 1].key == k then |gs| - 1
    else IndexOfKey(gs[..|gs| - 1], k)
  }

  /** Add one row to its group, opening a new group at the end for a key not seen before. */
  function AddToGroups<K(==), T>(gs: seq<Group<K, T>>, k: K, x: T): seq<Group<K, T>> {
    var i := IndexOfKey(gs, k);
    if i < 0 then gs + [Group(k, [x])]
    else gs[i := Group(k, gs[i].members + [x])]
  }

  function GroupBy<K(==), T>(s: seq<T>, keyOf: T -> K): seq<Group<K, T>> {
    if s == [] then []
    else AddToGroups(GroupBy(s[..|s| - 1], keyOf), keyOf(s[|s| - 1]), s[|s| - 1])
  }

  /** The rows of `s` whose key is `k`, in order: a `WHERE key = k` filter. */
  function WithKey<K(==), T>(s: seq<T>, keyOf: T -> K, k: K): seq<T> {
    if s == [] then []
    else WithKey(s[..|s| - 1], keyOf, k) + (if keyOf(s[|s| - 1]) == k then [s[|s| - 1]] else [])
  }

  predicate DistinctKeys<K(==), T>(gs: seq<Group<K, T>>) {
    forall i, j :: 0 <= i < j < |gs| ==> gs[i].key != gs[j].key
  }

  /** What `GroupBy` computes: one group per key, holding exactly the rows with that key. */
  ghost predicate GroupsOf<K, T>(gs: seq<Group<K, T>>, s: seq<T>, keyOf: T -> K) {
    && DistinctKeys(gs)
    && (forall j :: 0 <= j < |gs| ==> gs[j].members == WithKey(s, keyOf, gs[j].key) && gs[j].members != [])
    && (forall i :: 0 <= i < |s| ==> IndexOfKey(gs, keyOf(s[i])) >= 0)
  }

  lemma {:induction false} GroupByCorrect<K, T>(s: seq<T>, keyOf: T -> K)
    ensures GroupsOf(GroupBy(s, keyOf), s, keyOf)
    decreases |s|
  {
    if s != [] {
      var init := s[..|s| - 1];
      var x := s[|s| - 1];
      var kx := keyOf(x);
      var g := GroupBy(init, keyOf);
      GroupByCorrect(init, keyOf);
      var g' := GroupBy(s, keyOf);
      var i := IndexOfKey(g, kx);
      assert g' == AddToGroups(g, kx, x);
      forall k ensures WithKey(s, keyOf, k) == WithKey(init, keyOf, k) + (if kx == k then [x] else []) {
      }
      forall j | 0 <= j < |g'|
        ensures g'[j].members == WithKey(s, keyOf, g'[j].key) && g'[j].members != []
      {
        if j == |g| {
          forall r | 0 <= r < |init| ensures keyOf(init[r]) != kx {
            assert g[IndexOfKey(g, keyOf(init[r]))].key == keyOf(init[r]);
          }
          WithKeyNone(init, keyOf, kx);
        } else if j != i {
          assert g'[j] == g[j];
          assert WithKey(s, keyOf, g[j].key) == WithKey(init, keyOf, g[j].key);
        }
      }
      assert DistinctKeys(g') by {
        forall a, b | 0 <= a < b < |g'| ensures g'[a].key != g'[b].key {
          if b == |g| {
            assert g'[a] == g[a];
          } else if a != i && b != i {
            assert g'[a] == g[a] && g'[b] == g[b];
          }
        }
      }
      forall r | 0 <= r < |s| ensures IndexOfKey(g', keyOf(s[r])) >= 0 {
        var k := keyOf(s[r]);
        if k == kx {
          if i < 0 {
            assert g'[|g|].key == kx;
          } else {
            assert g'[i].key == kx;
          }
        } else {
          assert s[r] == init[r];
          var t := IndexOfKey(g, k);
          assert g'[t].key == k;
        }
      }
    }
  }

  lemma {:induction false} WithKeyNone<K, T>(s: seq<T>, keyOf: T -> K, k: K)
    requires forall r :: 0 <= r < |s| ==> keyOf(s[r]) != k
    ensures WithKey(s, keyOf, k) == []
  {
    if s != [] {
      WithKeyNone(s[..|s| - 1], keyOf, k);
    }
  }

  /** Filtering by key distributes over concatenation. */
  lemma {:induction false} WithKeyAppend<K, T>(a: seq<T>, b: seq<T>, keyOf: T -> K, k: K)
    ensures WithKey(a + b, keyOf, k) == WithKey(a, keyOf, k) + WithKey(b, keyOf, k)
    decreases |b|
  {
    if b == [] {
      assert a + b == a;
    } else {
      var x := b[|b| - 1];
      assert (a + b)[..|a + b| - 1] == a + b[..|b| - 1];
      WithKeyAppend(a, b[..|b| - 1], keyOf, k);
    }
  }

  /** `SUM(f(row))` over the rows of `s`. */
  function SumOver<T>(s: seq<T>, f: T -> real): real {
    if s == [] then 0.0 else SumOver(s[..|s| - 1], f) + f(s[|s| - 1])
  }

  /** The aggregate of every group, added up over the groups. */
  function SumGroups<K, T>(gs: seq<Group<K, T>>, f: T -> real): real {
    if gs == [] then 0.0 else SumGroups(gs[..|gs| - 1], f) + SumOver(gs[|gs| - 1].members, f)
  }

  /** The number of rows in all groups together. */
  function CountGroups<K, T>(gs: seq<Group<K, T>>): nat {
    if gs == [] then 0 else CountGroups(gs[..|gs| - 1]) + |gs[|gs| - 1].members|
  }

  lemma {:induction false} SumGroupsUpdate<K, T>(gs: seq<Group<K, T>>, f: T -> real, i: nat, k: K, x: T)
    requires i < |gs|
    ensures SumGroups(gs[i := Group(k, gs[i].members + [x])], f) == SumGroups(gs, f) + f(x)
    ensures CountGroups(gs[i := Group(k, gs[i].members + [x])]) == CountGroups(gs) + 1
  {
    var gs' := gs[i := Group(k, gs[i].members + [x])];
    var n := |gs| - 1;
    assert (gs[i].members + [x])[..|gs[i].members|] == gs[i].members;
    if i == n {
      assert gs'[..n] == gs[..n];
    } else {
      assert gs'[..n] == gs[..n][i := Group(k, gs[..n][i].members + [x])];
      SumGroupsUpdate(gs[..n], f, i, k, x);
    }
  }

  /** Grouping loses and invents no row: the groups' sizes add up to the row count, their sums to the total. */
  lemma {:induction false} GroupByTotals<K, T>(s: seq<T>, keyOf: T -> K, f: T -> real)
    ensures SumGroups(GroupBy(s, keyOf), f) == SumOver(s, f)
    ensures CountGroups(GroupBy(s, keyOf)) == |s|
  {
    if s != [] {
      var init := s[..|s| - 1];
      var x := s[|s| - 1];
      var g := GroupBy(init, keyOf);
      GroupByTotals(init, keyOf, f);
      var i := IndexOfKey(g, keyOf(x));
      if i < 0 {
        assert (g + [Group(keyOf(x), [x])])[..|g|] == g;
        assert [x][..0] == [];
        assert SumOver([x], f) == f(x);
      } else {
        SumGroupsUpdate(g, f, i, keyOf(x), x);
      }
    }
  }

  lemma {:induction false} SumOverAppend<T>(a: seq<T>, b: seq<T>, f: T -> real)
    ensures SumOver(a + b, f) == SumOver(a, f) + SumOver(b, f)
  {
    if b == [] {
      assert a + b == a;
    } else {
      assert (a + b)[..|a + b| - 1] == a + b[..|b| - 1];
      SumOverAppend(a, b[..|b| - 1], f);
    }
  }

  /**
   * `WHERE p(row)` or `filter(p)`: the rows satisfying `p`, each as many times as it occurs in
   * the input (`WhereCounts`), in input order (`WhereAppend`).
   */
  function Where<T>(s: seq<T>, p: T -> bool): (r: seq<T>)
    ensures |r| <= |s|
    ensures forall i :: 0 <= i < |r| ==> p(r[i]) && r[i] in s
    ensures forall i :: 0 <= i < |s| && p(s[i]) ==> s[i] in r
  {
    if s == [] then []
    else
      var init := Where(s[..|s| - 1], p);
      var x := s[|s| - 1];
      assert forall i :: 0 <= i < |s| - 1 ==> s[i] == s[..|s| - 1][i];
      init + (if p(x) then [x] else [])
  }

  /** Each row that passes is kept as many times as it occurs; a row that fails is dropped every time. */
  lemma {:induction false} WhereCounts<T>(s: seq<T>, p: T -> bool, x: T)
    ensures multiset(Where(s, p))[x] == if p(x) then multiset(s)[x] else 0
  {
    if s != [] {
      var init, last := s[..|s| - 1], s[|s| - 1];
      var tail := if p(last) then [last] else [];
      WhereCounts(init, p, x);
      assert s == init + [last];
      assert multiset(s) == multiset(init) + multiset{last};
      assert Where(s, p) == Where(init, p) + tail;
      assert multiset(Where(s, p)) == multiset(Where(init, p)) + multiset(tail);
    }
  }

  /** Filtering keeps the order: the filter of a concatenation is the concatenation of the filters. */
  lemma {:induction false} WhereAppend<T>(a: seq<T>, b: seq<T>, p: T -> bool)
    ensures Where(a + b, p) == Where(a, p) + Where(b, p)
  {
    if b == [] {
      assert a + b == a;
    } else {
      var b', x := b[..|b| - 1], b[|b| - 1];
      assert (a + b)[..|a + b| - 1] == a + b';
      assert (a + b)[|a + b| - 1] == x;
      WhereAppend(a, b', p);
      var tail := if p(x) then [x] else [];
      assert Where(a + b, p) == Where(a + b', p) + tail;
      assert Where(b, p) == Where(b', p) + tail;
    }
  }

  /** A filter every row passes keeps the whole sequence. */
  lemma {:induction false} WhereAll<T>(s: seq<T>, p: T -> bool)
    requires forall i :: 0 <= i < |s| ==> p(s[i])
    ensures Where(s, p) == s
  {
    if s != [] {
      var init, last := s[..|s| - 1], s[|s| - 1];
      forall i | 0 <= i < |init| ensures p(init[i]) {
        assert init[i] == s[i];
      }
      WhereAll(init, p);
      assert Where(s, p) == Where(init, p) + [last];
      assert s == init + [last];
    }
  }

  /** A filter that no row passes selects nothing. */
  lemma {:induction false} WhereNone<T>(s: seq<T>, p: T -> bool)
    requires forall i :: 0 <= i < |s| ==> !p(s[i])
    ensures Where(s, p) == []
  {
    if s != [] {
      assert forall i :: 0 <= i < |s| - 1 ==> s[..|s| - 1][i] == s[i];
      WhereNone(s[..|s| - 1], p);
    }
  }

  /** Taking one element out of a sequence takes its value out of the sum. */
  lemma SumOverRemove<T>(b: seq<T>, k: nat, f: T -> real)
    requires k < |b|
    ensures SumOver(b, f) == SumOver(b[..k] + b[k + 1..], f) + f(b[k])
  {
    var front, x, back := b[..k], b[k], b[k + 1..];
    var tail := [x] + back;
    assert b == front + tail;
    SumOverAppend(front, tail, f);
    SumOverAppend([x], back, f);
    SumOverAppend(front, back, f);
    assert SumOver([x], f) == f(x) by {
      assert [x][..0] == [];
    }
  }

  /** Taking one element out of a sequence takes one copy of it out of its multiset. */
  lemma MultisetRemove<T>(b: seq<T>, k: nat)
    requires k < |b|
    ensures multiset(b[..k] + b[k + 1..]) == multiset(b) - multiset{b[k]}
  {
    assert b == b[..k] + [b[k]] + b[k + 1..];
    assert multiset(b) == multiset(b[..k]) + multiset{b[k]} + multiset(b[k + 1..]);
  }

  /** The order of the rows does not change their sum. */
  lemma {:induction false} SumOverPermutation<T>(a: seq<T>, b: seq<T>, f: T -> real)
    requires multiset(a) == multiset(b)
    ensures SumOver(a, f) == SumOver(b, f)
    decreases |a|
  {
    if a == [] {
      assert |b| == |multiset(b)| == 0;
    } else {
      var x := a[|a| - 1];
      var a' := a[..|a| - 1];
      assert a == a' + [x];
      assert x in multiset(b);
      var k :| 0 <= k < |b| && b[k] == x;
      MultisetRemove(b, k);
      assert multiset(a') == multiset(a) - multiset{x} by {
        assert multiset(a) == multiset(a') + multiset{x};
      }
      SumOverPermutation(a', b[..k] + b[k + 1..], f);
      SumOverRemove(b, k, f);
      SumOverAppend(a', [x], f);
      assert SumOver([x], f) == f(x) by {
        assert [x][..0] == [];
      }
    }
  }
}
