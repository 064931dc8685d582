/**
 * The database shim of server/database.js: one query text with `?` placeholders serves both
 * backends. For PostgreSQL every `?` is rewritten, left to right, into `$1`, `$2`, ...; for SQLite
 * the text goes to the driver as written. The shim also reduces every driver's answer to the
 * shapes the routes use: the first row for `get`, and `{lastID, changes}` for `run`.
 */
module QueryShim {
  import opened Wrappers
  import opened Strings

  datatype Backend = Postgres | Sqlite

  /** The backend is fixed once, when the module loads: PostgreSQL exactly when `DATABASE_URL` is set. */
  function SelectBackend(databaseUrl: string): (b: Backend)
    ensures b == Postgres <==> databaseUrl != ""
    ensures b == Sqlite <==> databaseUrl == ""
  {
    if databaseUrl != "" then Postgres else Sqlite
  }

  /** The placeholder that replaces the `k`-th `?`. */
  function Marker(k: nat): (m: string)
    ensures |m| >= 2 && m[0] == '$'
    ensures '?' !in m
  {
    "$" + NatToString(k)
  }

  /** `s` with its `?` characters numbered from `k` on, left to right. */
  function Numbered(s: string, k: nat): string {
    if s == [] then ""
    else if s[0] == '?' then Marker(k) + Numbered(s[1..], k + 1)
    else [s[0]] + Numbered(s[1..], k)
  }

  /** Every `?` is replaced: none is left in the numbered text. */
  lemma {:induction false} NumberedHasNoPlaceholder(s: string, k: nat)
    ensures '?' !in Numbered(s, k)
  {
    if s != [] {
      var k' := if s[0] == '?' then k + 1 else k;
      NumberedHasNoPlaceholder(s[1..], k');
    }
  }

  /** The PostgreSQL text of a query: every `?` becomes `$n`, numbered from 1. */
  function Translate(q: string): string {
    Numbered(q, 1)
  }

  /**
   * The rewrite as the shim performs it: `text.replace(/\?/g, () => `$${counter++}`)` with a
   * counter starting at 1, walking the text once.
   */
  method ConvertPlaceholders(text: string) returns (converted: string)
    ensures converted == Translate(text)
    ensures '?' !in converted
  {
    var counter := 1;
    converted := "";
    var i := 0;
    while i < |text|
      invariant 0 <= i <= |text|
      invariant counter >= 1
      invariant converted + Numbered(text[i..], counter) == Numbered(text, 1)
    {
      var rest := text[i + 1..];
      assert text[i..] == [text[i]] + rest;
      NumberedCons(text[i], rest, counter);
      if text[i] == '?' {
        assert converted + (Marker(counter) + Numbered(rest, counter + 1))
            == (converted + Marker(counter)) + Numbered(rest, counter + 1);
        converted := converted + Marker(counter);
        counter := counter + 1;
      } else {
        assert converted + ([text[i]] + Numbered(rest, counter)) == (converted + [text[i]]) + Numbered(rest, counter);
        converted := converted + [text[i]];
      }
      i := i + 1;
    }
    assert text[i..] == [];
    NumberedHasNoPlaceholder(text, 1);
  }

  /** The text each backend's driver receives. */
  function StatementText(backend: Backend, q: string): (t: string)
    ensures backend == Sqlite ==> t == q
    ensures backend == Postgres ==> '?' !in t
  {
    match backend
    case Postgres => NumberedHasNoPlaceholder(q, 1); Translate(q)
    case Sqlite => q
  }

  /** One step of the walk over a text that starts with `c`. */
  lemma NumberedCons(c: char, t: string, k: nat)
    ensures c == '?' ==> Numbered([c] + t, k) == Marker(k) + Numbered(t, k + 1)
    ensures c != '?' ==> Numbered([c] + t, k) == [c] + Numbered(t, k)
  {
    assert ([c] + t)[0] == c && ([c] + t)[1..] == t;
  }

  /** Numbering distributes over concatenation: the second part continues where the first stopped. */
  lemma {:induction false} NumberedAppend(a: string, b: string, k: nat)
    ensures Numbered(a + b, k) == Numbered(a, k) + Numbered(b, k + CountChar(a, '?'))
  {
    if a == [] {
      assert a + b == b;
    } else {
      var c, t := a[0], a[1..];
      assert a == [c] + t;
      assert a + b == [c] + (t + b);
      NumberedCons(c, t + b, k);
      NumberedCons(c, t, k);
      if c == '?' {
        NumberedAppend(t, b, k + 1);
        assert CountChar(a, '?') == 1 + CountChar(t, '?');
        assert Marker(k) + (Numbered(t, k + 1) + Numbered(b, k + 1 + CountChar(t, '?')))
          == (Marker(k) + Numbered(t, k + 1)) + Numbered(b, k + 1 + CountChar(t, '?'));
      } else {
        NumberedAppend(t, b, k);
        assert CountChar(a, '?') == CountChar(t, '?');
        assert [c] + (Numbered(t, k) + Numbered(b, k + CountChar(t, '?')))
          == ([c] + Numbered(t, k)) + Numbered(b, k + CountChar(t, '?'));
      }
    }
  }

  /** A text without `?` is left exactly as it is. */
  lemma {:induction false} NumberedIdentity(s: string, k: nat)
    requires '?' !in s
    ensures Numbered(s, k) == s
  {
    if s != [] {
      NumberedIdentity(s[1..], k);
      assert s == [s[0]] + s[1..];
    }
  }

  /** The pieces between the placeholders, interleaved with `$k`, `$k+1`, ... */
  function Interleave(pieces: seq<string>, k: nat): string
    requires |pieces| >= 1
  {
    if |pieces| == 1 then pieces[0]
    else pieces[0] + Marker(k) + Interleave(pieces[1..], k + 1)
  }

  lemma {:induction false} NumberedJoin(pieces: seq<string>, k: nat)
    requires |pieces| >= 1
    requires forall i :: 0 <= i < |pieces| ==> '?' !in pieces[i]
    ensures Numbered(Join(pieces, "?"), k) == Interleave(pieces, k)
  {
    var p := pieces[0];
    if |pieces| == 1 {
      NumberedIdentity(p, k);
    } else {
      var tail := pieces[1..];
      var rest := Join(tail, "?");
      forall i | 0 <= i < |tail| ensures '?' !in tail[i] {
        assert tail[i] == pieces[i + 1];
      }
      NumberedJoin(tail, k + 1);
      assert Join(pieces, "?") == p + ("?" + rest);
      NumberedAfterPlain(p, rest, k);
      assert p + (Marker(k) + Interleave(tail, k + 1)) == Interleave(pieces, k);
    }
  }

  /** A `?` after a text without one takes the next number. */
  lemma NumberedAfterPlain(a: string, rest: string, k: nat)
    requires '?' !in a
    ensures Numbered(a + ("?" + rest), k) == a + (Marker(k) + Numbered(rest, k + 1))
  {
    var q := "?" + rest;
    NumberedAppend(a, q, k);
    CountCharZero(a, '?');
    NumberedIdentity(a, k);
    assert q[0] == '?' && q[1..] == rest;
  }

  /**
   * The whole behaviour of the rewrite: cut the query at its `?` characters; the result is the
   * same pieces, unchanged and in order, with `$1` between the first two, `$2` between the next
   * two, and so on. So only `?` characters change, the k-th becomes `$k`, and there are exactly
   * as many markers as there were placeholders.
   */
  lemma TranslateShape(q: string)
    ensures var pieces := Split(q, '?');
      |pieces| == CountChar(q, '?') + 1 && Translate(q) == Interleave(pieces, 1)
  {
    var pieces := Split(q, '?');
    NumberedJoin(pieces, 1);
  }

  /** A query without placeholders goes to PostgreSQL as written. */
  lemma TranslateNoPlaceholders(q: string)
    requires '?' !in q
    ensures Translate(q) == q
  {
    NumberedIdentity(q, 1);
  }

  /** The `k`-th `?` of the query becomes `$k`: what precedes it is translated on its own, numbered from 1. */
  lemma TranslateKth(a: string, b: string)
    ensures Translate(a + "?" + b) == Translate(a) + Marker(CountChar(a, '?') + 1) + Numbered(b, CountChar(a, '?') + 2)
  {
    NumberedAppend(a, "?" + b, 1);
    assert ("?" + b)[1..] == b;
    assert a + "?" + b == a + ("?" + b);
  }

  /** A quote before the rest leaves the rest's numbering untouched. */
  lemma NumberedQuote(b: string, k: nat)
    ensures Numbered("'" + b, k) == "'" + Numbered(b, k)
  {
    assert ("'" + b)[0] == '\'' && ("'" + b)[1..] == b;
  }

  /** The first `?` after a text without one becomes `$1`. */
  lemma NumberedFirst(a: string, rest: string)
    requires '?' !in a
    ensures Numbered(a + ("?" + rest), 1) == a + "$1" + Numbered(rest, 2)
  {
    NumberedAfterPlain(a, rest, 1);
    MarkerOne();
    assert a + ("$1" + Numbered(rest, 2)) == a + "$1" + Numbered(rest, 2);
  }

  lemma MarkerOne()
    ensures Marker(1) == "$1"
  {
    assert NatToString(1) == "1";
  }

  /** There is no escaping: a `?` inside a quoted SQL literal is numbered like any other. */
  lemma QuotedPlaceholderNumbered(a: string, b: string)
    requires '?' !in a
    ensures Translate(a + "'?'" + b) == a + "'$1'" + Numbered(b, 2)
  {
    assert '?' !in a + "'" by {
      assert forall i :: 0 <= i < |a + "'"| ==> (a + "'")[i] != '?';
    }
    assert a + "'?'" + b == (a + "'") + ("?" + ("'" + b));
    NumberedFirst(a + "'", "'" + b);
    NumberedQuote(b, 2);
    assert (a + "'") + "$1" + ("'" + Numbered(b, 2)) == a + "'$1'" + Numbered(b, 2);
  }

  /** The part of a PostgreSQL result that `run` looks at: the `id` column of each returned row, and `rowCount`. */
  datatype PgResult = PgResult(returnedIds: seq<Option<int>>, rowCount: nat)

  /** What `run` resolves with on both backends. */
  datatype RunResult = RunResult(lastId: Option<int>, changes: nat)

  /** PostgreSQL: `lastID` is the first returned row's `id`, or null when no row came back. */
  function PgRun(res: PgResult): (r: RunResult)
    ensures r.changes == res.rowCount
    ensures res.returnedIds == [] ==> r.lastId == None
    ensures res.returnedIds != [] ==> r.lastId == res.returnedIds[0]
  {
    RunResult(if res.returnedIds == [] then None else res.returnedIds[0], res.rowCount)
  }

  /** SQLite: the statement's own `lastID` and `changes`. */
  function SqliteRun(lastId: int, changes: nat): (r: RunResult)
    ensures r.lastId == Some(lastId) && r.changes == changes
  {
    RunResult(Some(lastId), changes)
  }

  /** `get`: the first row of the answer, or nothing when the answer is empty. */
  function FirstRow<R>(rows: seq<R>): (r: Option<R>)
    ensures r == None <==> rows == []
    ensures r.Some? ==> r.value == rows[0]
  {
    if rows == [] then None else Some(rows[0])
  }
}
