/**
 * SQL's `LIKE` as the user search uses it (server/routes/friends.js:18): the pattern is the
 * query with a `%` on either side, and any `%` or `_` typed into the query is a wildcard too.
 */
module SqlLike {
  import opened Strings

  /**
   * `text LIKE pattern`: `%` matches any run of characters (the empty one included), `_` matches
   * exactly one character, and every other character of the pattern matches only itself.
   */
  predicate Like(text: string, pattern: string)
    decreases |text| + |pattern|
  {
    if pattern == [] then text == []
    else if pattern[0] == '%' then Like(text, pattern[1..]) || (text != [] && Like(text[1..], pattern))
    else text != [] && (pattern[0] == '_' || pattern[0] == text[0]) && Like(text[1..], pattern[1..])
  }

  /** A query with no wildcard character in it. */
  predicate Plain(q: string) {
    '%' !in q && '_' !in q
  }

  /** The pattern the search sends for a query. */
  function SearchPattern(q: string): (p: string)
    ensures |p| == |q| + 2 && p[0] == '%' && p[|p| - 1] == '%'
    ensures p[1..|p| - 1] == q
  {
    "%" + q + "%"
  }

  /** A lone `%` matches every text. */
  lemma {:induction false} PercentMatchesAll(t: string)
    ensures Like(t, "%")
  {
    if t != [] {
      PercentMatchesAll(t[1..]);
    }
  }

  /** A plain prefix of the pattern must be a prefix of the text, and the rest matches what follows it. */
  lemma {:induction false} LikePlainPrefix(t: string, q: string, rest: string)
    requires Plain(q)
    ensures Like(t, q + rest) <==> q <= t && Like(t[|q|..], rest)
  {
    if q == [] {
      assert q + rest == rest;
    } else {
      var p := q + rest;
      assert p[0] == q[0] && p[1..] == q[1..] + rest;
      LikePlainPrefix(if t == [] then [] else t[1..], q[1..], rest);
      if t != [] && |q| <= |t| {
        assert t[1..][|q[1..]|..] == t[|q|..];
        assert q <= t <==> q[0] == t[0] && q[1..] <= t[1..];
      }
    }
  }

  /** A leading `%` lets the rest of the pattern match any suffix of the text. */
  lemma {:induction false} LikeLeadingPercent(t: string, r: string)
    ensures Like(t, "%" + r) <==> exists i :: 0 <= i <= |t| && Like(t[i..], r)
  {
    var p := "%" + r;
    assert p[0] == '%' && p[1..] == r;
    if t == [] {
      assert t[0..] == t;
    } else {
      LikeLeadingPercent(t[1..], r);
      if Like(t, p) {
        if Like(t, r) {
          assert t[0..] == t;
        } else {
          var j :| 0 <= j <= |t[1..]| && Like(t[1..][j..], r);
          assert t[1..][j..] == t[j + 1..];
        }
      }
      if exists i :: 0 <= i <= |t| && Like(t[i..], r) {
        var i :| 0 <= i <= |t| && Like(t[i..], r);
        if i == 0 {
          assert t[0..] == t;
        } else {
          assert t[1..][i - 1..] == t[i..];
        }
      }
    }
  }

  /** For a query without wildcards, the search pattern matches exactly the texts that contain the query. */
  lemma PlainPatternIsSubstring(t: string, q: string)
    requires Plain(q)
    ensures Like(t, SearchPattern(q)) <==> Contains(t, q)
  {
    assert SearchPattern(q) == "%" + (q + "%");
    LikeLeadingPercent(t, q + "%");
    if Like(t, SearchPattern(q)) {
      var i :| 0 <= i <= |t| && Like(t[i..], q + "%");
      LikePlainPrefix(t[i..], q, "%");
      assert t[i..][..|q|] == t[i..i + |q|];
      assert OccursAt(t, q, i);
    }
    if Contains(t, q) {
      var i: nat :| OccursAt(t, q, i);
      assert t[i..][..|q|] == t[i..i + |q|];
      PercentMatchesAll(t[i..][|q|..]);
      LikePlainPrefix(t[i..], q, "%");
    }
  }

  /** A query of two `%` is all wildcards: its pattern matches every text, the empty one included. */
  lemma DoublePercentMatchesAll(t: string)
    ensures Like(t, SearchPattern("%%"))
  {
    PercentMatchesAll(t);
    assert SearchPattern("%%") == "%%%%";
    assert "%%%%"[1..] == "%%%" && "%%%"[1..] == "%%" && "%%"[1..] == "%";
  }

  /** An underscore in the query stands for any one character: "a_c" finds "abc", which does not contain it. */
  lemma UnderscoreIsAWildcard()
    ensures Like("abc", SearchPattern("a_c"))
    ensures !Contains("abc", "a_c")
  {
    var p := SearchPattern("a_c");
    assert p == "%a_c%";
    assert Like([], "%") by { assert "%"[1..] == []; }
    assert Like("c", "c%") by { assert "c%"[1..] == "%" && "c"[1..] == []; }
    assert Like("bc", "_c%") by { assert "_c%"[1..] == "c%" && "bc"[1..] == "c"; }
    assert Like("abc", "a_c%") by { assert "a_c%"[1..] == "_c%" && "abc"[1..] == "bc"; }
    assert p[1..] == "a_c%";
    assert "abc"[0..3][1] != "a_c"[1];
  }
}
