/**
 * The logic of the web dashboard (client/src/pages/Dashboard.jsx): the add form's guard and
 * random colour, the "last used" text and the usage bar's percentage, and the approximate lira
 * price shown under a dollar or euro price. `Math.random()` is a parameter in [0, 1).
 */
module WebDashboard {
  import opened Wrappers
  import opened Strings
  import opened Domain
  import opened SubscriptionRoutes
  import opened AnalyticsRoutes
  import opened CalendarScreen
  import opened DashboardScreen

  // ----- adding a subscription -----

  const CARD_COLORS: seq<string> := [
    "bg-blue-500", "bg-purple-500", "bg-pink-500", "bg-orange-500",
    "bg-indigo-500", "bg-red-500", "bg-green-500", "bg-emerald-500"
  ]

  /** `colors[Math.floor(Math.random() * colors.length)]`. */
  function ColorOfRoll(roll: real): (c: string)
    requires 0.0 <= roll < 1.0
    ensures c in CARD_COLORS
  {
    var i := (roll * |CARD_COLORS| as real).Floor;
    assert 0 <= i < |CARD_COLORS| by {
      assert 0.0 <= roll * 8.0 < 8.0;
    }
    CARD_COLORS[i]
  }

  /** Every colour of the palette can come up: the roll i/8 picks the i-th. */
  lemma EveryColorPossible(i: nat)
    requires i < |CARD_COLORS|
    ensures ColorOfRoll(i as real / 8.0) == CARD_COLORS[i]
  {
    assert i as real / 8.0 * 8.0 == i as real;
  }

  /** The web add form: name, price, currency and category, as typed. */
  datatype WebSubForm = WebSubForm(name: string, price: string, currency: string, category: string)

  /**
   * `addSubscription`: an empty name or price posts nothing; otherwise one POST with the parsed
   * price and a colour drawn from the palette, without a billing date.
   */
  function WebAddRequest(form: WebSubForm, parsedPrice: real, roll: real): (r: Option<NewSubscription>)
    requires 0.0 <= roll < 1.0
    ensures r.None? <==> form.name == "" || form.price == ""
    ensures r.Some? ==>
      && r.value.name == form.name && r.value.price == parsedPrice
      && r.value.currency == form.currency && r.value.category == form.category
      && r.value.color in CARD_COLORS && r.value.nextBillingDate.None? && !r.value.isPrivate
  {
    if form.name == "" || form.price == "" then None
    else Some(NewSubscription(form.name, parsedPrice, form.currency, form.category, ColorOfRoll(roll), "", None, false))
  }

  // ----- last used -----

  /** The whole days between the two instants, rounded up, in either direction. */
  function DaysApart(t: Time, now: Time): (d: nat)
    ensures (d - 1) * MS_PER_DAY < Abs(now - t) <= d * MS_PER_DAY
    ensures d == 0 <==> t == now
  {
    CeilDiv(Abs(now - t), MS_PER_DAY)
  }

  function Abs(x: int): nat {
    if x < 0 then -x else x
  }

  /** Which text `getLastUsedText` shows, with its count. */
  datatype WebLastUsed = NeverUsedWeb | Today | DaysAgoWeb(days: nat) | WeeksAgo(weeks: nat) | MonthsAgo(months: nat)

  /**
   * `getLastUsedText`'s buckets, by whole days apart rounded up: 'Bugün' only when the two
   * instants coincide, days below a week, whole weeks below 30 days, whole 30-day months after.
   */
  function WebLastUsedOf(lastUsed: Option<Time>, now: Time): (l: WebLastUsed)
    ensures l == NeverUsedWeb <==> lastUsed.None?
    ensures l == Today <==> lastUsed == Some(now)
    ensures l.DaysAgoWeb? ==> 1 <= l.days < 7 && l.days == DaysApart(lastUsed.value, now)
    ensures l.WeeksAgo? ==>
      1 <= l.weeks <= 4 && l.weeks == DaysApart(lastUsed.value, now) / 7 && 7 <= DaysApart(lastUsed.value, now) < 30
    ensures l.MonthsAgo? ==>
      l.months >= 1 && l.months == DaysApart(lastUsed.value, now) / 30 && DaysApart(lastUsed.value, now) >= 30
  {
    match lastUsed
    case None => NeverUsedWeb
    case Some(t) =>
      var d := DaysApart(t, now);
      if d == 0 then Today
      else if d < 7 then DaysAgoWeb(d)
      else if d < 30 then WeeksAgo(d / 7)
      else MonthsAgo(d / 30)
  }

  /** `getLastUsedText`; the separate 'd = 1' branch gives the same text as the general one. */
  function WebLastUsedText(lastUsed: Option<Time>, now: Time): string {
    match WebLastUsedOf(lastUsed, now)
    case NeverUsedWeb => "Hiç kullanılmadı"
    case Today => "Bugün"
    case DaysAgoWeb(n) => NatToString(n) + " gün önce"
    case WeeksAgo(w) => NatToString(w) + " hafta önce"
    case MonthsAgo(m) => NatToString(m) + " ay önce"
  }

  /** A `last_used` in the future reads like the same distance in the past. */
  lemma FutureReadsAsPast(now: Time, x: int)
    ensures WebLastUsedOf(Some(now + x), now) == WebLastUsedOf(Some(now - x), now)
  {
  }

  /**
   * The two clients disagree about a use a moment ago: the mobile screen says 'Bugün
   * kullanıldı', the web page '1 gün önce'.
   */
  lemma MomentAgoOnBothClients(now: Time)
    ensures LastUsedLabelOf(Some(now - 1), now) == UsedToday
    ensures WebLastUsedOf(Some(now - 1), now) == DaysAgoWeb(1)
  {
  }

  // ----- usage bar -----

  /**
   * `getUsagePercentage`: 10 without a date, otherwise 100 less two per day apart, never below
   * 10. It is 100 exactly at the instant of use and falls as the distance grows.
   */
  function WebUsagePercentage(lastUsed: Option<Time>, now: Time): (r: int)
    ensures 10 <= r <= 100
    ensures lastUsed.None? ==> r == 10
    ensures r == 100 <==> lastUsed == Some(now)
    ensures lastUsed.Some? && DaysApart(lastUsed.value, now) < 45 ==> r == 100 - 2 * DaysApart(lastUsed.value, now)
    ensures lastUsed.Some? && DaysApart(lastUsed.value, now) >= 45 ==> r == 10
  {
    match lastUsed
    case None => 10
    case Some(t) =>
      var p := 100 - 2 * DaysApart(t, now);
      if p > 10 then p else 10
  }

  /** A use further away never shows a fuller bar. */
  lemma UsageBarFalls(t1: Time, t2: Time, now: Time)
    requires Abs(now - t1) <= Abs(now - t2)
    ensures WebUsagePercentage(Some(t1), now) >= WebUsagePercentage(Some(t2), now)
  {
    var d1 := DaysApart(t1, now);
    var d2 := DaysApart(t2, now);
    assert d1 <= d2 by {
      assert (d1 - 1) * MS_PER_DAY < Abs(now - t1) <= Abs(now - t2) <= d2 * MS_PER_DAY;
    }
  }

  // ----- price in lira -----

  /** The `≈ ₺…` line: a dollar price times 34, a euro price times 36, nothing for lira or any other currency. */
  function ApproxTl(s: Subscription): (r: Option<real>)
    ensures r.Some? <==> s.currency == "$" || s.currency == "€"
  {
    if s.currency == "$" then Some(s.price * 34.0)
    else if s.currency == "€" then Some(s.price * 36.0)
    else None
  }

  /** The page uses the server's rates: what it shows is the lira price the monthly total counts. */
  lemma ApproxTlMatchesServer(s: Subscription)
    ensures ApproxTl(s).Some? ==> ApproxTl(s).value == PriceInTl(s)
    ensures s.currency == "₺" ==> ApproxTl(s).None? && PriceInTl(s) == s.price
  {
  }
}
