/**
 * The logic of the mobile statistics screen (mobile/src/screens/StatsScreen.js): the three most
 * expensive and the three cheapest subscriptions, the yearly total, the category colours and
 * each category's share of the monthly total. The screen's data are the answers of GET
 * /subscriptions, GET /analytics/summary and GET /analytics/categories.
 */
module StatsScreen {
  import opened Wrappers
  import opened Domain
  import opened Ordering
  import opened Grouping
  import opened AnalyticsRoutes

  const RANKING_SIZE: nat := 3

  // ----- rankings -----

  /**
   * `getMostExpensive`: at most three subscriptions of the list, most expensive first; no
   * subscription left out costs more than one shown. The list itself is a value, so sorting a
   * copy leaves it as it was.
   */
  function MostExpensive(subs: seq<Subscription>): (r: seq<Subscription>)
    ensures |r| == Min(RANKING_SIZE, |subs|)
    ensures subs == [] ==> r == []
    ensures SortedDesc(r, PriceOf)
    ensures forall x :: x in r ==> x in subs
    ensures forall x, y :: x in r && y in subs && y !in r ==> x.price >= y.price
  {
    if subs == [] then []
    else
      MostExpensiveFacts(subs);
      Take(SortDesc(subs, PriceOf), RANKING_SIZE)
  }

  lemma MostExpensiveFacts(subs: seq<Subscription>)
    ensures var r := Take(SortDesc(subs, PriceOf), RANKING_SIZE);
      && SortedDesc(r, PriceOf)
      && (forall x :: x in r ==> x in subs)
      && (forall x, y :: x in r && y in subs && y !in r ==> x.price >= y.price)
  {
    var r := Take(SortDesc(subs, PriceOf), RANKING_SIZE);
    PageOfSort(subs, PriceOf, 0, RANKING_SIZE);
    assert Drop(SortDesc(subs, PriceOf), 0) == SortDesc(subs, PriceOf);
    TopElements(subs, PriceOf, RANKING_SIZE);
    forall x, y | x in r && y in subs && y !in r ensures x.price >= y.price {
      assert PriceOf(x) >= PriceOf(y);
    }
  }

  /** `getCheapest`: at most three subscriptions of the list, cheapest first; none left out costs less than one shown. */
  function Cheapest(subs: seq<Subscription>): (r: seq<Subscription>)
    ensures |r| == Min(RANKING_SIZE, |subs|)
    ensures subs == [] ==> r == []
    ensures forall i, j :: 0 <= i < j < |r| ==> r[i].price <= r[j].price
    ensures forall x :: x in r ==> x in subs
    ensures forall x, y :: x in r && y in subs && y !in r ==> x.price <= y.price
  {
    if subs == [] then []
    else
      CheapestFacts(subs);
      Take(SortAsc(subs, PriceOf), RANKING_SIZE)
  }

  lemma CheapestFacts(subs: seq<Subscription>)
    ensures var r := Take(SortAsc(subs, PriceOf), RANKING_SIZE);
      && (forall i, j :: 0 <= i < j < |r| ==> r[i].price <= r[j].price)
      && (forall x :: x in r ==> x in subs)
      && (forall x, y :: x in r && y in subs && y !in r ==> x.price <= y.price)
  {
    CheapestInOrder(subs);
    CheapestFromList(subs);
    BottomElements(subs, PriceOf, RANKING_SIZE);
  }

  lemma CheapestInOrder(subs: seq<Subscription>)
    ensures var r := Take(SortAsc(subs, PriceOf), RANKING_SIZE);
      forall i, j :: 0 <= i < j < |r| ==> r[i].price <= r[j].price
  {
    var sorted := SortAsc(subs, PriceOf);
    var r := Take(sorted, RANKING_SIZE);
    forall i, j | 0 <= i < j < |r| ensures r[i].price <= r[j].price {
      assert r[i] == sorted[i] && r[j] == sorted[j];
      assert PriceOf(sorted[i]) <= PriceOf(sorted[j]);
    }
  }

  lemma CheapestFromList(subs: seq<Subscription>)
    ensures forall x :: x in Take(SortAsc(subs, PriceOf), RANKING_SIZE) ==> x in subs
  {
    var sorted := SortAsc(subs, PriceOf);
    forall x | x in Take(sorted, RANKING_SIZE) ensures x in subs {
      assert x in sorted;
      assert x in multiset(sorted);
    }
  }

  // ----- totals -----

  /** `getYearlyTotal`: twelve times the monthly total, or 0 before the summary has arrived. */
  function YearlyTotal(analytics: Option<Summary>): (r: real)
    ensures analytics.None? ==> r == 0.0
    ensures analytics.Some? ==> r == 12.0 * analytics.value.totalMonthly
  {
    match analytics
    case None => 0.0
    case Some(a) => a.totalMonthly * 12.0
  }

  /** With the server's summary, the yearly total is twelve times the caller's prices in lira. */
  lemma YearlyTotalOfStore(st: Store, caller: int, now: Time)
    ensures YearlyTotal(Some(GetSummary(st, caller, now).body.value)) == 12.0 * SumOver(SubsOf(st.subscriptions, caller), PriceInTl)
  {
  }

  // ----- category colours -----

  const CATEGORY_COLORS: seq<string> := ["#a855f7", "#ec4899", "#06b6d4", "#f59e0b", "#22c55e", "#ef4444"]

  /** `getCategoryColor(index)`: the palette, cycled. */
  function CategoryColor(index: nat): (c: string)
    ensures c in CATEGORY_COLORS
  {
    CATEGORY_COLORS[index % |CATEGORY_COLORS|]
  }

  /** The colours repeat every six categories, and any six consecutive categories have six different colours. */
  lemma CategoryColorCycle(i: nat, j: nat)
    ensures CategoryColor(i + 6) == CategoryColor(i)
    ensures i < j < i + 6 ==> CategoryColor(i) != CategoryColor(j)
  {
    if i < j < i + 6 {
      assert i % 6 != j % 6;
    }
  }

  // ----- category percentages -----

  /** `Math.round(x)`: the nearest integer, halves rounding up. */
  function RoundHalfUp(x: real): (r: int)
    ensures (r as real) - 0.5 <= x < (r as real) + 0.5
  {
    (x + 0.5).Floor
  }

  /**
   * One category's percentage: 0 before the summary has arrived; otherwise the rounded share of
   * the monthly total. The summary's total is the string `toFixed(2)` makes, which is truthy even
   * for "0.00", so a zero total divides by zero and shows NaN or Infinity: `None` here.
   */
  function Percentage(part: real, analytics: Option<Summary>): (r: Option<int>)
    ensures analytics.None? ==> r == Some(0)
    ensures analytics.Some? && analytics.value.totalMonthly == 0.0 ==> r.None?
    ensures analytics.Some? && analytics.value.totalMonthly != 0.0 ==>
      r.Some? && (r.value as real) - 0.5 <= part / analytics.value.totalMonthly * 100.0 < (r.value as real) + 0.5
  {
    match analytics
    case None => Some(0)
    case Some(a) => if a.totalMonthly == 0.0 then None else Some(RoundHalfUp(part / a.totalMonthly * 100.0))
  }

  /**
   * The percentages as the screen computes them: each category row's `total`, which the server
   * sums in the subscriptions' own currencies, over the monthly total, which it converts to lira.
   */
  function CategoryPercentagesAsWritten(rows: seq<CategoryTotal>, analytics: Option<Summary>): (r: seq<Option<int>>)
    ensures |r| == |rows|
    ensures forall i :: 0 <= i < |rows| ==> r[i] == Percentage(rows[i].total, analytics)
  {
    seq(|rows|, i requires 0 <= i < |rows| => Percentage(rows[i].total, analytics))
  }

  /** Each category's total in lira, in the order of the breakdown's rows. */
  function TotalsInTl(gs: seq<Group<string, Subscription>>): (r: seq<real>)
    ensures |r| == |gs|
    ensures forall i :: 0 <= i < |gs| ==> r[i] == SumOver(gs[i].members, PriceInTl)
  {
    seq(|gs|, i requires 0 <= i < |gs| => SumOver(gs[i].members, PriceInTl))
  }

  function SumReals(xs: seq<real>): real {
    if xs == [] then 0.0 else SumReals(xs[..|xs| - 1]) + xs[|xs| - 1]
  }

  lemma {:induction false} TotalsInTlSum(gs: seq<Group<string, Subscription>>)
    ensures SumReals(TotalsInTl(gs)) == SumGroups(gs, PriceInTl)
  {
    if gs != [] {
      TotalsInTlSum(gs[..|gs| - 1]);
      assert TotalsInTl(gs)[..|gs| - 1] == TotalsInTl(gs[..|gs| - 1]);
    }
  }

  /** The categories' lira totals add up to the summary's monthly total: the shares are parts of one whole. */
  lemma CategoryTotalsInTlAddUp(mine: seq<Subscription>)
    ensures SumReals(TotalsInTl(GroupBy(mine, CategoryOf))) == SumOver(mine, PriceInTl)
  {
    TotalsInTlSum(GroupBy(mine, CategoryOf));
    GroupByTotals(mine, CategoryOf, PriceInTl);
  }

  /**
   * The percentages meant: every category's total converted to lira, like the monthly total, so
   * that the same currency is on both sides of the division. One row per category of the
   * breakdown, in its order.
   */
  function CategoryPercentages(mine: seq<Subscription>, analytics: Option<Summary>): (r: seq<Option<int>>)
    ensures |r| == |CategoryRows(mine)|
    ensures forall i :: 0 <= i < |r| ==>
      r[i] == Percentage(SumOver(WithKey(mine, CategoryOf, CategoryRows(mine)[i].category), PriceInTl), analytics)
  {
    var gs := GroupBy(mine, CategoryOf);
    GroupByCorrect(mine, CategoryOf);
    var totals := TotalsInTl(gs);
    seq(|totals|, i requires 0 <= i < |totals| => Percentage(totals[i], analytics))
  }

  lemma {:induction false} SumOverAgree(s: seq<Subscription>, f: Subscription -> real, g: Subscription -> real)
    requires forall i :: 0 <= i < |s| ==> f(s[i]) == g(s[i])
    ensures SumOver(s, f) == SumOver(s, g)
  {
    if s != [] {
      SumOverAgree(s[..|s| - 1], f, g);
    }
  }

  lemma {:induction false} WithKeyFrom(s: seq<Subscription>, k: string)
    ensures forall x :: x in WithKey(s, CategoryOf, k) ==> x in s
  {
    if s != [] {
      WithKeyFrom(s[..|s| - 1], k);
      assert forall x :: x in s[..|s| - 1] ==> x in s;
    }
  }

  /** In lira, a category's raw total and its converted total are the same. */
  lemma LiraCategoryTotal(mine: seq<Subscription>, k: string)
    requires forall x :: x in mine ==> x.currency == "₺"
    ensures SumOver(WithKey(mine, CategoryOf, k), PriceOf) == SumOver(WithKey(mine, CategoryOf, k), PriceInTl)
  {
    var members := WithKey(mine, CategoryOf, k);
    WithKeyFrom(mine, k);
    forall j | 0 <= j < |members| ensures PriceOf(members[j]) == PriceInTl(members[j]) {
      assert members[j] in mine;
    }
    SumOverAgree(members, PriceOf, PriceInTl);
  }

  /** When every subscription is in lira, the screen's percentages are the intended ones. */
  lemma LiraOnlyAgrees(mine: seq<Subscription>, analytics: Option<Summary>)
    requires forall x :: x in mine ==> x.currency == "₺"
    ensures CategoryPercentagesAsWritten(CategoryRows(mine), analytics) == CategoryPercentages(mine, analytics)
  {
    var rows := CategoryRows(mine);
    var asWritten := CategoryPercentagesAsWritten(rows, analytics);
    var meant := CategoryPercentages(mine, analytics);
    CategoryRowsExact(mine);
    forall i | 0 <= i < |rows| ensures asWritten[i] == meant[i] {
      LiraCategoryTotal(mine, rows[i].category);
    }
  }

  /** A single $10 subscription: its category shows 3% of the monthly ₺340 instead of 100%. */
  lemma DollarCategoryCounterexample()
    ensures var s := Subscription(1, 1, "ChatGPT Plus", 10.0, "$", "Yapay Zeka", "bg-purple-500", "monthly", None, None, false, 0);
      var analytics := Some(Summary(SumOver([s], PriceInTl), 1, 0));
      && analytics.value.totalMonthly == 340.0
      && CategoryPercentagesAsWritten(CategoryRows([s]), analytics) == [Some(3)]
      && CategoryPercentages([s], analytics) == [Some(100)]
  {
    var s := Subscription(1, 1, "ChatGPT Plus", 10.0, "$", "Yapay Zeka", "bg-purple-500", "monthly", None, None, false, 0);
    var analytics := Some(Summary(SumOver([s], PriceInTl), 1, 0));
    assert [s][..0] == [];
    assert GroupBy([s], CategoryOf) == [Group("Yapay Zeka", [s])] by {
      assert [s][..0] == [];
    }
    assert WithKey([s], CategoryOf, "Yapay Zeka") == [s] by {
      assert [s][..0] == [];
    }
    assert Rate("$") == 34.0;
    assert SumOver([s], PriceInTl) == SumOver([], PriceInTl) + PriceInTl(s);
    assert analytics.value.totalMonthly == 340.0;
    assert CategoryRows([s]) == [CategoryTotal("Yapay Zeka", 1, 10.0)] by {
      assert SumOver([s], PriceOf) == SumOver([], PriceOf) + PriceOf(s);
    }
    var x := 10.0 / 340.0 * 100.0;
    assert 2.5 <= x < 3.5;
    var p := Percentage(10.0, analytics);
    assert p == Some(3);
    var q := Percentage(340.0, analytics);
    assert q == Some(100);
  }
}
