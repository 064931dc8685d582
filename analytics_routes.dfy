/**
 * The `/api/analytics` routes of server/routes/analytics.js: the monthly total converted to lira,
 * the subscriptions unused for thirty days, per-day usage of one subscription, its price history,
 * and the per-category breakdown.
 */
module AnalyticsRoutes {
  import opened Wrappers
  import opened Domain
  import opened Http
  import opened Ordering
  import opened Grouping

  /** The rough conversion to lira: lira 1, dollar 34, euro 36; any other currency is not counted. */
  function Rate(currency: string): (r: real)
    ensures r >= 0.0
    ensures currency !in {"₺", "$", "€"} ==> r == 0.0
  {
    if currency == "₺" then 1.0
    else if currency == "$" then 34.0
    else if currency == "€" then 36.0
    else 0.0
  }

  function PriceOf(s: Subscription): real {
    s.price
  }

  function CurrencyOf(s: Subscription): string {
    s.currency
  }

  function CategoryOf(s: Subscription): string {
    s.category
  }

  /** One subscription's price in lira. */
  function PriceInTl(s: Subscription): real {
    s.price * Rate(s.currency)
  }

  /** `SELECT SUM(price) … AND currency = ?`, with `|| 0` for the NULL of an empty sum. */
  function CurrencyTotal(mine: seq<Subscription>, currency: string): real {
    SumOver(WithKey(mine, CurrencyOf, currency), PriceOf)
  }

  /** `totalMonthly` as the handler computes it: three per-currency sums, two of them scaled. */
  function TotalMonthly(mine: seq<Subscription>): real {
    CurrencyTotal(mine, "₺") + CurrencyTotal(mine, "$") * 34.0 + CurrencyTotal(mine, "€") * 36.0
  }

  lemma CurrencyTotalLast(mine: seq<Subscription>, c: string)
    requires mine != []
    ensures var x := mine[|mine| - 1];
      CurrencyTotal(mine, c) == CurrencyTotal(mine[..|mine| - 1], c) + (if x.currency == c then x.price else 0.0)
  {
    var init := mine[..|mine| - 1];
    var x := mine[|mine| - 1];
    if x.currency == c {
      SumOverAppend(WithKey(init, CurrencyOf, c), [x], PriceOf);
      assert [x][..0] == [];
    } else {
      assert WithKey(init, CurrencyOf, c) + [] == WithKey(init, CurrencyOf, c);
    }
  }

  /** The total is each subscription's price converted to lira, added up. */
  lemma {:induction false} TotalMonthlyConverted(mine: seq<Subscription>)
    ensures TotalMonthly(mine) == SumOver(mine, PriceInTl)
  {
    if mine != [] {
      var init := mine[..|mine| - 1];
      var x := mine[|mine| - 1];
      TotalMonthlyConverted(init);
      var tl, usd, eur := CurrencyTotal(init, "₺"), CurrencyTotal(init, "$"), CurrencyTotal(init, "€");
      var tl', usd', eur' := CurrencyTotal(mine, "₺"), CurrencyTotal(mine, "$"), CurrencyTotal(mine, "€");
      CurrencyTotalLast(mine, "₺");
      CurrencyTotalLast(mine, "$");
      CurrencyTotalLast(mine, "€");
      assert "₺" != "$" && "₺" != "€" && "$" != "€" by {
        assert "₺"[0] != "$"[0] && "₺"[0] != "€"[0] && "$"[0] != "€"[0];
      }
      var p := x.price;
      var before := SumOver(init, PriceInTl);
      assert SumOver(mine, PriceInTl) == before + PriceInTl(x);
      assert before == tl + usd * 34.0 + eur * 36.0;
      assert TotalMonthly(mine) == tl' + usd' * 34.0 + eur' * 36.0;
      if x.currency == "₺" {
        assert PriceInTl(x) == p && tl' == tl + p && usd' == usd && eur' == eur;
      } else if x.currency == "$" {
        assert PriceInTl(x) == p * 34.0 && tl' == tl && usd' == usd + p && eur' == eur;
      } else if x.currency == "€" {
        assert PriceInTl(x) == p * 36.0 && tl' == tl && usd' == usd && eur' == eur + p;
      } else {
        assert PriceInTl(x) == 0.0 && tl' == tl && usd' == usd && eur' == eur;
      }
    }
  }

  /** The caller's subscriptions not used for thirty days (or never), in table order. */
  function UnderusedOf(mine: seq<Subscription>, now: Time): seq<Subscription> {
    Where(mine, s => UnderusedPg(s, now))
  }

  datatype Summary = Summary(totalMonthly: real, totalSubscriptions: nat, underusedCount: nat)

  /** GET /summary. */
  function GetSummary(st: Store, caller: int, now: Time): (r: Response<Summary>)
    reads st
    ensures r.IsOk()
    ensures r.body.value.totalMonthly == SumOver(SubsOf(st.subscriptions, caller), PriceInTl)
    ensures r.body.value.totalSubscriptions == |SubsOf(st.subscriptions, caller)|
    ensures r.body.value.underusedCount == |UnderusedOf(SubsOf(st.subscriptions, caller), now)|
  {
    var mine := SubsOf(st.subscriptions, caller);
    TotalMonthlyConverted(mine);
    Ok(Summary(TotalMonthly(mine), |mine|, |UnderusedOf(mine, now)|))
  }

  /** GET /underused: the caller's underused subscriptions, most expensive first. */
  function GetUnderused(st: Store, caller: int, now: Time): (r: Response<seq<Subscription>>)
    reads st
    ensures r.IsOk()
    ensures multiset(r.body.value) == multiset(UnderusedOf(SubsOf(st.subscriptions, caller), now))
    ensures SortedDesc(r.body.value, PriceOf)
    ensures forall i :: 0 <= i < |r.body.value| ==>
      r.body.value[i] in st.subscriptions && r.body.value[i].userId == caller && UnderusedPg(r.body.value[i], now)
  {
    var mine := SubsOf(st.subscriptions, caller);
    var u := UnderusedOf(mine, now);
    var rows := SortDesc(u, PriceOf);
    forall i | 0 <= i < |rows| ensures rows[i] in mine && UnderusedPg(rows[i], now) {
      assert rows[i] in multiset(u);
      var j :| 0 <= j < |u| && u[j] == rows[i];
    }
    Ok(rows)
  }

  /** The count on the summary is the length of the list: both use the same test. */
  lemma SummaryCountsTheList(st: Store, caller: int, now: Time)
    ensures GetSummary(st, caller, now).body.value.underusedCount == |GetUnderused(st, caller, now).body.value|
  {
  }

  /** Every subscription of the caller that is underused appears in the list. */
  lemma UnderusedListComplete(st: Store, caller: int, now: Time, s: Subscription)
    requires s in st.subscriptions && s.userId == caller && UnderusedPg(s, now)
    ensures s in GetUnderused(st, caller, now).body.value
  {
    var mine := SubsOf(st.subscriptions, caller);
    var k :| 0 <= k < |mine| && mine[k] == s;
    var u := UnderusedOf(mine, now);
    assert s in u;
    assert s in multiset(GetUnderused(st, caller, now).body.value);
  }

  /** PostgreSQL's window: `created_at >= NOW() - INTERVAL '30 days'`. */
  predicate RecentPg(l: UsageLog, now: Time) {
    l.createdAt >= now - 30 * MS_PER_DAY
  }

  /** SQLite's window: `julianday('now') - julianday(created_at) <= 30`, in fractional days. */
  predicate RecentSqlite(l: UsageLog, now: Time) {
    (now - l.createdAt) as real / MS_PER_DAY as real <= 30.0
  }

  lemma RecentDialectsAgree(l: UsageLog, now: Time)
    ensures RecentPg(l, now) <==> RecentSqlite(l, now)
  {
    var d := (now - l.createdAt) as real;
    var m := MS_PER_DAY as real;
    assert d / m <= 30.0 <==> d <= 30.0 * m by {
      assert d == (d / m) * m;
    }
  }

  /** The usage entries of one subscription inside the thirty-day window. */
  function RecentLogs(logs: seq<UsageLog>, id: int, now: Time): seq<UsageLog> {
    Where(logs, (l: UsageLog) => l.subscriptionId == id && RecentPg(l, now))
  }

  /** `DATE(created_at)`: the entry's insertion day, not the `used_at` it records. */
  function LogDay(l: UsageLog): Day {
    DayOf(l.createdAt)
  }

  /** One row of `SELECT DATE(created_at) as date, COUNT(*) as count … GROUP BY DATE(created_at)`. */
  datatype DayCount = DayCount(date: Day, count: nat)

  function DateKey(d: DayCount): real {
    d.date as real
  }

  function CountOf(d: DayCount): real {
    d.count as real
  }

  function DayCounts(gs: seq<Group<Day, UsageLog>>): (r: seq<DayCount>)
    ensures |r| == |gs|
    ensures forall i :: 0 <= i < |gs| ==> r[i] == DayCount(gs[i].key, |gs[i].members|)
  {
    seq(|gs|, i requires 0 <= i < |gs| => DayCount(gs[i].key, |gs[i].members|))
  }

  lemma {:induction false} DayCountsTotal(gs: seq<Group<Day, UsageLog>>)
    ensures SumOver(DayCounts(gs), CountOf) == CountGroups(gs) as real
  {
    if gs != [] {
      DayCountsTotal(gs[..|gs| - 1]);
      assert DayCounts(gs)[..|gs| - 1] == DayCounts(gs[..|gs| - 1]);
    }
  }

  datatype UsageReport = UsageReport(
    subscription: Subscription,
    usage: seq<DayCount>,
    totalUsage: real,
    daysActive: nat,
    avgPerDay: real)

  /** The per-day rows of one subscription's recent entries, newest day first. */
  function UsageRows(recent: seq<UsageLog>): (rows: seq<DayCount>)
    ensures SortedDesc(rows, DateKey)
    ensures multiset(rows) == multiset(DayCounts(GroupBy(recent, LogDay)))
  {
    SortDesc(DayCounts(GroupBy(recent, LogDay)), DateKey)
  }

  /** The counts add up to the number of entries: grouping and sorting lose none and invent none. */
  lemma UsageRowsTotal(recent: seq<UsageLog>)
    ensures SumOver(UsageRows(recent), CountOf) == |recent| as real
  {
    var gs := GroupBy(recent, LogDay);
    GroupByTotals(recent, LogDay, (l: UsageLog) => 0.0);
    DayCountsTotal(gs);
    SumOverPermutation(UsageRows(recent), DayCounts(gs), CountOf);
  }

  /** Each row counts the entries inserted on its day, and there is at least one. */
  lemma UsageRowsCount(recent: seq<UsageLog>)
    ensures forall i :: 0 <= i < |UsageRows(recent)| ==>
      UsageRows(recent)[i].count == |WithKey(recent, LogDay, UsageRows(recent)[i].date)| && UsageRows(recent)[i].count >= 1
  {
    var gs := GroupBy(recent, LogDay);
    var counts := DayCounts(gs);
    var usage := UsageRows(recent);
    GroupByCorrect(recent, LogDay);
    forall i | 0 <= i < |usage|
      ensures usage[i].count == |WithKey(recent, LogDay, usage[i].date)| && usage[i].count >= 1
    {
      assert usage[i] in multiset(counts);
      var j :| 0 <= j < |counts| && counts[j] == usage[i];
      assert counts[j] == DayCount(gs[j].key, |gs[j].members|);
    }
  }

  /** Every day with an entry has its row. */
  lemma UsageRowsCover(recent: seq<UsageLog>)
    ensures forall k :: 0 <= k < |recent| ==>
      exists i :: 0 <= i < |UsageRows(recent)| && UsageRows(recent)[i].date == LogDay(recent[k])
  {
    var gs := GroupBy(recent, LogDay);
    var counts := DayCounts(gs);
    var usage := UsageRows(recent);
    GroupByCorrect(recent, LogDay);
    forall k | 0 <= k < |recent| ensures exists i :: 0 <= i < |usage| && usage[i].date == LogDay(recent[k]) {
      var g := IndexOfKey(gs, LogDay(recent[k]));
      assert counts[g] in multiset(usage);
      var i :| 0 <= i < |usage| && usage[i] == counts[g];
    }
  }

  /** No day has two rows. */
  lemma UsageRowsDistinct(recent: seq<UsageLog>)
    ensures forall i, j :: 0 <= i < j < |UsageRows(recent)| ==> UsageRows(recent)[i].date != UsageRows(recent)[j].date
  {
    var gs := GroupBy(recent, LogDay);
    GroupByCorrect(recent, LogDay);
    forall i, j | 0 <= i < j < |UsageRows(recent)| ensures UsageRows(recent)[i].date != UsageRows(recent)[j].date {
      DistinctAfterSort(gs, DayCounts(gs), UsageRows(recent), i, j);
    }
  }

  /**
   * `(total / 30).toFixed(1)` for a whole count: the tenth nearest to total/30. A third of a
   * whole number is never halfway between two whole numbers, so there is no tie to break.
   */
  function AvgPerDay(total: nat): (r: real)
    ensures r * 10.0 == (r * 10.0).Floor as real
    ensures -0.05 < r - total as real / 30.0 < 0.05
  {
    var k := (total + 1) / 3;
    assert 3 * k - 1 <= total <= 3 * k + 1;
    k as real / 10.0
  }

  /** The per-day counts, newest day first, and the three statistics derived from them. */
  function UsageReportOf(s: Subscription, recent: seq<UsageLog>): (u: UsageReport)
    ensures u.subscription == s
    ensures SortedDesc(u.usage, DateKey)
    ensures u.daysActive == |u.usage|
    ensures u.totalUsage == |recent| as real
    ensures u.avgPerDay == if u.daysActive > 0 then AvgPerDay(|recent|) else 0.0
    ensures forall i :: 0 <= i < |u.usage| ==>
      u.usage[i].count == |WithKey(recent, LogDay, u.usage[i].date)| && u.usage[i].count >= 1
    ensures forall i, j :: 0 <= i < j < |u.usage| ==> u.usage[i].date != u.usage[j].date
    ensures forall k :: 0 <= k < |recent| ==> exists i :: 0 <= i < |u.usage| && u.usage[i].date == LogDay(recent[k])
  {
    var usage := UsageRows(recent);
    var total := SumOver(usage, CountOf);
    UsageRowsTotal(recent);
    UsageRowsCount(recent);
    UsageRowsCover(recent);
    UsageRowsDistinct(recent);
    UsageReport(s, usage, total, |usage|, if |usage| > 0 then AvgPerDay(|recent|) else 0.0)
  }

  /** Sorting the per-day rows keeps their dates distinct. */
  lemma DistinctAfterSort(gs: seq<Group<Day, UsageLog>>, counts: seq<DayCount>, usage: seq<DayCount>, i: nat, j: nat)
    requires DistinctKeys(gs)
    requires counts == DayCounts(gs)
    requires multiset(usage) == multiset(counts)
    requires i < j < |usage|
    ensures usage[i].date != usage[j].date
  {
    if usage[i].date == usage[j].date {
      assert usage[i] in multiset(counts) && usage[j] in multiset(counts);
      var a :| 0 <= a < |counts| && counts[a] == usage[i];
      var b :| 0 <= b < |counts| && counts[b] == usage[j];
      assert gs[a].key == gs[b].key;
      RepeatedTwice(usage, i, j);
      MultiplicityOfDistinct(gs, counts, a);
      assert false;
    }
  }

  lemma RepeatedTwice<T>(s: seq<T>, i: nat, j: nat)
    requires i < j < |s| && s[i] == s[j]
    ensures multiset(s)[s[i]] >= 2
  {
    assert s == s[..i] + [s[i]] + s[i + 1..j] + [s[j]] + s[j + 1..];
  }

  lemma MultiplicityOfDistinct(gs: seq<Group<Day, UsageLog>>, counts: seq<DayCount>, a: nat)
    requires DistinctKeys(gs)
    requires counts == DayCounts(gs)
    requires a < |counts|
    ensures multiset(counts)[counts[a]] == 1
  {
    var x := counts[a];
    assert counts == counts[..a] + [x] + counts[a + 1..];
    assert x !in counts[..a] by {
      forall t | 0 <= t < a ensures counts[..a][t] != x {
        assert counts[..a][t] == counts[t];
      }
    }
    assert x !in counts[a + 1..] by {
      forall t | a + 1 <= t < |counts| ensures counts[t] != x {
      }
    }
  }

  /**
   * GET /usage/:id. A missing or foreign subscription gives 404; otherwise the report over the
   * usage entries inserted in the last thirty days.
   */
  function GetUsage(st: Store, caller: int, now: Time, id: int): (r: Response<UsageReport>)
    reads st
    ensures r.status == 200 || r.status == 404
    ensures r.status == 404 <==> OwnedSub(st.subscriptions, id, caller).None?
    ensures r.status == 200 ==>
      r.body.Json? && r.body.value == UsageReportOf(OwnedSub(st.subscriptions, id, caller).value, RecentLogs(st.usageLogs, id, now))
  {
    match OwnedSub(st.subscriptions, id, caller)
    case None => Fail(404, "Subscription not found")
    case Some(s) => Ok(UsageReportOf(s, RecentLogs(st.usageLogs, id, now)))
  }

  function ChangeKey(h: PriceChange): real {
    h.changeDate as real
  }

  /** `SELECT * FROM price_history WHERE subscription_id = ?`. */
  function ChangesOf(history: seq<PriceChange>, id: int): seq<PriceChange> {
    Where(history, (h: PriceChange) => h.subscriptionId == id)
  }

  /** GET /price-history/:id: the subscription's price changes, newest first; 404 for a missing or foreign id. */
  function GetPriceHistory(st: Store, caller: int, id: int): (r: Response<seq<PriceChange>>)
    reads st
    ensures r.status == 200 || r.status == 404
    ensures r.status == 404 <==> OwnedSub(st.subscriptions, id, caller).None?
    ensures r.status == 200 ==>
      r.body.Json? && multiset(r.body.value) == multiset(ChangesOf(st.priceHistory, id))
      && SortedDesc(r.body.value, ChangeKey)
  {
    match OwnedSub(st.subscriptions, id, caller)
    case None => Fail(404, "Subscription not found")
    case Some(_) => Ok(SortDesc(ChangesOf(st.priceHistory, id), ChangeKey))
  }

  /** One row of `SELECT category, COUNT(*) as count, SUM(price) as total … GROUP BY category`. */
  datatype CategoryTotal = CategoryTotal(category: string, count: nat, total: real)

  function CategoryTotals(gs: seq<Group<string, Subscription>>): (r: seq<CategoryTotal>)
    ensures |r| == |gs|
    ensures forall i :: 0 <= i < |gs| ==> r[i] == CategoryTotal(gs[i].key, |gs[i].members|, SumOver(gs[i].members, PriceOf))
  {
    seq(|gs|, i requires 0 <= i < |gs| => CategoryTotal(gs[i].key, |gs[i].members|, SumOver(gs[i].members, PriceOf)))
  }

  /** The breakdown rows of a list of subscriptions, in order of each category's first subscription. */
  function CategoryRows(mine: seq<Subscription>): seq<CategoryTotal> {
    CategoryTotals(GroupBy(mine, CategoryOf))
  }

  /** Each row counts and adds up the subscriptions of its category; no category has two rows. */
  lemma CategoryRowsExact(mine: seq<Subscription>)
    ensures forall i :: 0 <= i < |CategoryRows(mine)| ==>
      var c := CategoryRows(mine)[i];
      c.count == |WithKey(mine, CategoryOf, c.category)| && c.count >= 1
      && c.total == SumOver(WithKey(mine, CategoryOf, c.category), PriceOf)
    ensures forall i, j :: 0 <= i < j < |CategoryRows(mine)| ==> CategoryRows(mine)[i].category != CategoryRows(mine)[j].category
  {
    GroupByCorrect(mine, CategoryOf);
  }

  /** Every subscription's category has its row. */
  lemma CategoryRowsCover(mine: seq<Subscription>)
    ensures forall k :: 0 <= k < |mine| ==>
      exists i :: 0 <= i < |CategoryRows(mine)| && CategoryRows(mine)[i].category == mine[k].category
  {
    var gs := GroupBy(mine, CategoryOf);
    GroupByCorrect(mine, CategoryOf);
    forall k | 0 <= k < |mine| ensures exists i :: 0 <= i < |CategoryRows(mine)| && CategoryRows(mine)[i].category == mine[k].category {
      var i := IndexOfKey(gs, CategoryOf(mine[k]));
      assert CategoryRows(mine)[i].category == mine[k].category;
    }
  }

  /** GET /categories: one row per category of the caller's subscriptions, with their count and raw price sum. */
  function GetCategories(st: Store, caller: int): (r: Response<seq<CategoryTotal>>)
    reads st
    ensures r.IsOk()
    ensures r.body.value == CategoryRows(SubsOf(st.subscriptions, caller))
  {
    Ok(CategoryRows(SubsOf(st.subscriptions, caller)))
  }

  function SumCounts(rows: seq<CategoryTotal>): nat {
    if rows == [] then 0 else SumCounts(rows[..|rows| - 1]) + rows[|rows| - 1].count
  }

  function SumTotals(rows: seq<CategoryTotal>): real {
    if rows == [] then 0.0 else SumTotals(rows[..|rows| - 1]) + rows[|rows| - 1].total
  }

  lemma {:induction false} CategoryTotalsSum(gs: seq<Group<string, Subscription>>)
    ensures SumCounts(CategoryTotals(gs)) == CountGroups(gs)
    ensures SumTotals(CategoryTotals(gs)) == SumGroups(gs, PriceOf)
  {
    if gs != [] {
      CategoryTotalsSum(gs[..|gs| - 1]);
      assert CategoryTotals(gs)[..|gs| - 1] == CategoryTotals(gs[..|gs| - 1]);
    }
  }

  /** The breakdown covers every subscription once: the counts add up to the caller's count, the totals to the raw price sum. */
  lemma CategoriesCoverAll(mine: seq<Subscription>)
    ensures SumCounts(CategoryRows(mine)) == |mine|
    ensures SumTotals(CategoryRows(mine)) == SumOver(mine, PriceOf)
  {
    var gs := GroupBy(mine, CategoryOf);
    CategoryTotalsSum(gs);
    GroupByTotals(mine, CategoryOf, PriceOf);
  }
}
