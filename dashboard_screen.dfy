/**
 * The logic of the mobile dashboard screen (mobile/src/screens/DashboardScreen.js): the service
 * icon, the add form's guard and the `next_billing_date` it derives from a billing day, the days
 * until renewal with the upcoming and overdue badges, and the "last used" label.
 * The clock and the device's time zone are a `Clock` value; `parseInt` and `parseFloat` of the
 * form's text fields are given as their results. Local days are numbered like UTC days, and a
 * date string "YYYY-MM-DD" is represented by the number of its day.
 */
module DashboardScreen {
  import opened Wrappers
  import opened Strings
  import opened Domain
  import opened SubscriptionRoutes
  import opened CalendarScreen

  // ----- service icons -----

  const SERVICE_ICONS: map<string, string> := map[
    "Paycal Premium (Aylık)" := "\U{1F451}",
    "Paycal Premium (Yıllık)" := "\U{1F451}",
    "Paycal Premium" := "\U{1F451}",
    "Netflix" := "\U{1F3AC}",
    "Spotify" := "\U{1F3B5}",
    "YouTube Premium" := "\U{25B6}\U{FE0F}",
    "Disney+" := "\U{2728}",
    "ChatGPT Plus" := "\U{1F916}",
    "Google Drive" := "\U{1F4C1}",
    "Dropbox" := "\U{1F4E6}",
    "iCloud+" := "\U{2601}\U{FE0F}",
    "Amazon Prime" := "\U{1F4E6}",
    "Apple Music" := "\U{1F3B6}",
    "Adobe Creative Cloud" := "\U{1F3A8}",
    "Microsoft 365" := "\U{1F4CA}",
    "LinkedIn Premium" := "\U{1F4BC}",
    "LinkedIn" := "\U{1F4BC}"
  ]

  /** The names offered as one-tap choices in the add form. */
  const POPULAR_NAMES: seq<string> := [
    "Paycal Premium (Aylık)", "Paycal Premium (Yıllık)", "Netflix", "Spotify", "YouTube Premium",
    "Disney+", "ChatGPT Plus", "Google Drive", "Dropbox", "iCloud+", "Amazon Prime", "Apple Music",
    "Adobe Creative Cloud", "Microsoft 365", "LinkedIn Premium"
  ]

  /**
   * `getServiceIcon`: `SERVICE_ICONS[name] || name.charAt(0).toUpperCase()`. Every mapped icon is
   * non-empty, so a mapped name always shows its icon; any other name shows its capitalised
   * first letter (nothing for an empty name).
   */
  function ServiceIcon(name: string): (icon: string)
    ensures name in SERVICE_ICONS ==> icon == SERVICE_ICONS[name]
    ensures name !in SERVICE_ICONS ==> |icon| <= 1 && (name != "" ==> icon == [UpperChar(name[0])])
  {
    var mapped := if name in SERVICE_ICONS then SERVICE_ICONS[name] else "";
    if mapped != "" then mapped else UpperFirst(name)
  }

  /** Every popular choice has an icon of its own. */
  lemma PopularNamesHaveIcons()
    ensures forall i :: 0 <= i < |POPULAR_NAMES| ==> POPULAR_NAMES[i] in SERVICE_ICONS
  {
  }

  // ----- adding a subscription -----

  /** The add form's fields, as typed. */
  datatype NewSubForm = NewSubForm(
    name: string,
    price: string,
    currency: string,
    category: string,
    billingDay: string,
    isPrivate: bool)

  /**
   * The moment the screen reads `new Date()`: the local day, its day of the month and the length
   * of its month, how far into the day it is, and the zone's offset east of UTC in minutes.
   */
  datatype Clock = Clock(today: Day, dayOfMonth: int, monthLength: int, msIntoDay: int, utcOffsetMinutes: int)

  predicate ClockValid(c: Clock) {
    && 28 <= c.monthLength <= 31
    && 1 <= c.dayOfMonth <= c.monthLength
    && 0 <= c.msIntoDay < MS_PER_DAY
    && -24 * 60 < c.utcOffsetMinutes < 24 * 60
  }

  /** Whether `parseInt(billing_day)` gives a day from 1 to 31 (a blank field is not parsed at all). */
  predicate BillingDayGiven(billingDay: string, parsed: Option<int>) {
    billingDay != "" && parsed.Some? && 1 <= parsed.value <= 31
  }

  /**
   * `new Date(year, month, day)`: day `day` of the current month, counted on from its first day,
   * so that a day past the month's end runs into the next month as JavaScript's `Date` does.
   */
  function DayInMonth(c: Clock, day: int): Day {
    c.today - c.dayOfMonth + day
  }

  /**
   * `toISOString().split('T')[0]` of local midnight of `local`: the UTC day that instant falls in.
   */
  function IsoDay(local: Day, utcOffsetMinutes: int): Day {
    (local * MS_PER_DAY - utcOffsetMinutes * 60_000) / MS_PER_DAY
  }

  /** East of UTC, local midnight is still the previous day in UTC; on or west of it, the same day. */
  lemma IsoDayShift(local: Day, utcOffsetMinutes: int)
    requires -24 * 60 < utcOffsetMinutes < 24 * 60
    ensures utcOffsetMinutes > 0 ==> IsoDay(local, utcOffsetMinutes) == local - 1
    ensures utcOffsetMinutes <= 0 ==> IsoDay(local, utcOffsetMinutes) == local
  {
    var x := local * MS_PER_DAY - utcOffsetMinutes * 60_000;
    if utcOffsetMinutes > 0 {
      DivBetween(x, local - 1);
    } else {
      DivBetween(x, local);
    }
  }

  lemma DivBetween(x: int, q: int)
    requires q * MS_PER_DAY <= x < (q + 1) * MS_PER_DAY
    ensures x / MS_PER_DAY == q
  {
  }

  /**
   * The `next_billing_date` block as the screen has it: the billing day of the current month at
   * local midnight is compared with the current instant, moved on by a month (`setMonth`, which
   * adds the length of the current month to a day within it) when earlier, and sent as the UTC
   * day of that local midnight.
   */
  function BillingDateAsWritten(billingDay: string, parsed: Option<int>, c: Clock): (r: Option<Day>)
    ensures r.Some? <==> BillingDayGiven(billingDay, parsed)
  {
    if !BillingDayGiven(billingDay, parsed) then None
    else
      var b := DayInMonth(c, parsed.value);
      var local := if b * MS_PER_DAY < c.today * MS_PER_DAY + c.msIntoDay then b + c.monthLength else b;
      Some(IsoDay(local, c.utcOffsetMinutes))
  }

  /**
   * The block as the screen runs it: a date set to the billing day and moved on a month in place
   * when it is earlier than the current instant, then turned into its UTC date.
   */
  method ComputeBillingDate(billingDay: string, parsed: Option<int>, c: Clock) returns (r: Option<Day>)
    ensures r == BillingDateAsWritten(billingDay, parsed, c)
  {
    r := None;
    if billingDay != "" && parsed.Some? {
      var day := parsed.value;
      if 1 <= day <= 31 {
        var billingDate := DayInMonth(c, day);
        if billingDate * MS_PER_DAY < c.today * MS_PER_DAY + c.msIntoDay {
          billingDate := billingDate + c.monthLength;
        }
        r := Some(IsoDay(billingDate, c.utcOffsetMinutes));
      }
    }
  }

  /**
   * The billing date meant: the billing day of the current month when it is today or later,
   * otherwise the same day a month on, kept as the local calendar day. It is never before today
   * and at most 30 days ahead.
   */
  function NextBillingDate(billingDay: string, parsed: Option<int>, c: Clock): (r: Option<Day>)
    requires ClockValid(c)
    ensures r.Some? <==> BillingDayGiven(billingDay, parsed)
    ensures r.Some? ==> c.today <= r.value <= c.today + 30
    ensures r.Some? && parsed.value >= c.dayOfMonth ==> r.value == c.today + (parsed.value - c.dayOfMonth)
    ensures r.Some? && parsed.value < c.dayOfMonth ==> r.value == c.today + (parsed.value - c.dayOfMonth) + c.monthLength
  {
    if !BillingDayGiven(billingDay, parsed) then None
    else
      var b := DayInMonth(c, parsed.value);
      Some(if b < c.today then b + c.monthLength else b)
  }

  /**
   * East of UTC the screen stores the day before the one chosen: a billing day later in the
   * month than today arrives at the server one day early.
   */
  lemma BillingDateEastOneDayEarly(billingDay: string, parsed: Option<int>, c: Clock)
    requires ClockValid(c) && c.utcOffsetMinutes > 0
    requires BillingDayGiven(billingDay, parsed) && parsed.value > c.dayOfMonth
    ensures BillingDateAsWritten(billingDay, parsed, c) == Some(NextBillingDate(billingDay, parsed, c).value - 1)
  {
    IsoDayShift(DayInMonth(c, parsed.value), c.utcOffsetMinutes);
  }

  /**
   * A billing day equal to today's date, chosen any time after midnight, is pushed a whole month
   * on, since local midnight is already earlier than the current instant.
   */
  lemma BillingTodayPushedAMonth(billingDay: string, parsed: Option<int>, c: Clock)
    requires ClockValid(c) && c.utcOffsetMinutes == 0 && c.msIntoDay > 0
    requires BillingDayGiven(billingDay, parsed) && parsed.value == c.dayOfMonth
    ensures NextBillingDate(billingDay, parsed, c) == Some(c.today)
    ensures BillingDateAsWritten(billingDay, parsed, c) == Some(c.today + c.monthLength)
  {
    IsoDayShift(c.today + c.monthLength, 0);
  }

  /** On or west of UTC, a billing day later in the month than today is stored as the day chosen. */
  lemma BillingDateWestAsIntended(billingDay: string, parsed: Option<int>, c: Clock)
    requires ClockValid(c) && c.utcOffsetMinutes <= 0
    requires BillingDayGiven(billingDay, parsed) && parsed.value > c.dayOfMonth
    ensures BillingDateAsWritten(billingDay, parsed, c) == NextBillingDate(billingDay, parsed, c)
  {
    IsoDayShift(DayInMonth(c, parsed.value), c.utcOffsetMinutes);
  }

  /** The two discrepancies on one concrete clock: the 15th of a 30-day month, 10:00, at UTC+3. */
  lemma BillingDateCounterexamples()
    ensures BillingDateAsWritten("20", Some(20), Clock(100, 15, 30, 36_000_000, 180)) == Some(104)
    ensures NextBillingDate("20", Some(20), Clock(100, 15, 30, 36_000_000, 180)) == Some(105)
    ensures BillingDateAsWritten("15", Some(15), Clock(100, 15, 30, 36_000_000, 0)) == Some(130)
    ensures NextBillingDate("15", Some(15), Clock(100, 15, 30, 36_000_000, 0)) == Some(100)
  {
    BillingDateEastOneDayEarly("20", Some(20), Clock(100, 15, 30, 36_000_000, 180));
    BillingTodayPushedAMonth("15", Some(15), Clock(100, 15, 30, 36_000_000, 0));
  }

  /**
   * `addSubscription`: an empty name or price sends nothing; otherwise one POST with the parsed
   * price, the fixed colour 'bg-purple-500' and the billing date the screen computes, the other
   * fields as typed. The date is the one `BillingDateAsWritten` gives, not the intended local
   * date: west of UTC and at UTC the two agree on any later day of the month, east of UTC it is a
   * day early.
   */
  function AddRequest(form: NewSubForm, parsedPrice: real, parsedDay: Option<int>, c: Clock): (r: Option<NewSubscription>)
    ensures r.None? <==> form.name == "" || form.price == ""
    ensures r.Some? ==>
      && r.value.name == form.name && r.value.price == parsedPrice
      && r.value.currency == form.currency && r.value.category == form.category
      && r.value.color == "bg-purple-500" && r.value.billingCycle == ""
      && r.value.isPrivate == form.isPrivate
      && r.value.nextBillingDate == BillingDateAsWritten(form.billingDay, parsedDay, c)
      && (r.value.nextBillingDate.Some? <==> BillingDayGiven(form.billingDay, parsedDay))
  {
    if form.name == "" || form.price == "" then None
    else Some(NewSubscription(form.name, parsedPrice, form.currency, form.category, "bg-purple-500", "",
      BillingDateAsWritten(form.billingDay, parsedDay, c), form.isPrivate))
  }

  /**
   * The form's guard is weaker than the server's: a price typed as "0" passes the form and is
   * sent, and the request is one `SubscriptionRoutes.Create` answers with 400, since it treats a
   * zero price as missing.
   */
  lemma ZeroPricePassesFormOnly(form: NewSubForm, parsedDay: Option<int>, c: Clock)
    requires form.name != "" && form.price == "0"
    ensures AddRequest(form, 0.0, parsedDay, c).Some?
    ensures MissingField(AddRequest(form, 0.0, parsedDay, c).value)
  {
  }

  // ----- renewal badges -----

  /**
   * `getDaysUntilRenewal`: nothing without a date; otherwise the whole days from now to the UTC
   * midnight the date string denotes, rounded up.
   */
  function DaysUntilRenewal(date: Option<Day>, now: Time): (r: Option<int>)
    ensures r.None? <==> date.None?
    ensures r.Some? ==> (r.value - 1) * MS_PER_DAY < date.value * MS_PER_DAY - now <= r.value * MS_PER_DAY
  {
    match date
    case None => None
    case Some(d) => Some(CeilDiv(d * MS_PER_DAY - now, MS_PER_DAY))
  }

  predicate IsUpcoming(daysUntil: Option<int>) {
    daysUntil.Some? && 0 <= daysUntil.value <= 7
  }

  predicate IsOverdue(daysUntil: Option<int>) {
    daysUntil.Some? && daysUntil.value < 0
  }

  /**
   * A card is overdue exactly when the whole renewal day has passed, and upcoming exactly from
   * seven days before it to its end; never both.
   */
  lemma RenewalBadges(date: Option<Day>, now: Time)
    ensures IsOverdue(DaysUntilRenewal(date, now)) <==> date.Some? && now >= (date.value + 1) * MS_PER_DAY
    ensures IsUpcoming(DaysUntilRenewal(date, now)) <==>
      date.Some? && (date.value - 7) * MS_PER_DAY <= now < (date.value + 1) * MS_PER_DAY
    ensures !(IsOverdue(DaysUntilRenewal(date, now)) && IsUpcoming(DaysUntilRenewal(date, now)))
  {
  }

  // ----- the "last used" label -----

  /** Which of the four labels `formatLastUsed` shows; `DaysAgo` carries the count and the warning. */
  datatype LastUsedLabel = NeverUsed | UsedToday | UsedYesterday | DaysAgo(days: int, rarelyUsed: bool)

  /**
   * The bucket of `formatLastUsed`, by whole days elapsed (rounded down): today and yesterday by
   * name, otherwise the count, with a warning past 30 days. A `last_used` in the future gives a
   * negative count.
   */
  function LastUsedLabelOf(lastUsed: Option<Time>, now: Time): (l: LastUsedLabel)
    ensures l == NeverUsed <==> lastUsed.None?
    ensures l == UsedToday <==> lastUsed.Some? && 0 <= now - lastUsed.value < MS_PER_DAY
    ensures l == UsedYesterday <==> lastUsed.Some? && MS_PER_DAY <= now - lastUsed.value < 2 * MS_PER_DAY
    ensures l.DaysAgo? ==>
      && lastUsed.Some?
      && l.days * MS_PER_DAY <= now - lastUsed.value < (l.days + 1) * MS_PER_DAY
      && (l.days < 0 || l.days >= 2)
      && (l.rarelyUsed <==> now - lastUsed.value >= 31 * MS_PER_DAY)
  {
    match lastUsed
    case None => NeverUsed
    case Some(t) =>
      var n := (now - t) / MS_PER_DAY;
      if n == 0 then UsedToday
      else if n == 1 then UsedYesterday
      else DaysAgo(n, n > 30)
  }

  function LabelText(l: LastUsedLabel): string {
    match l
    case NeverUsed => "Hiç kullanılmadı"
    case UsedToday => "Bugün kullanıldı"
    case UsedYesterday => "Dün kullanıldı"
    case DaysAgo(n, rarely) => IntToString(n) + " gün önce" + (if rarely then " (Az kullanılıyor!)" else "")
  }

  /** `formatLastUsed`. */
  function FormatLastUsed(lastUsed: Option<Time>, now: Time): string {
    LabelText(LastUsedLabelOf(lastUsed, now))
  }

  /** The text ends in the warning's closing parenthesis exactly when the warning is shown. */
  lemma WarningShownInText(lastUsed: Option<Time>, now: Time)
    ensures var text := FormatLastUsed(lastUsed, now);
      |text| > 0 && (text[|text| - 1] == ')' <==> LastUsedLabelOf(lastUsed, now).DaysAgo? && LastUsedLabelOf(lastUsed, now).rarelyUsed)
  {
  }

  /** The screen's warning is stricter than the server's underused test: a warned card is underused. */
  lemma WarnedIsUnderused(s: Subscription, now: Time)
    requires LastUsedLabelOf(s.lastUsed, now).DaysAgo? && LastUsedLabelOf(s.lastUsed, now).rarelyUsed
    ensures UnderusedPg(s, now)
  {
  }

  /** The converse fails: a subscription last used 30 days and a moment ago is underused, with no warning. */
  lemma UnderusedWithoutWarning(s: Subscription, now: Time)
    requires s.lastUsed == Some(now - 30 * MS_PER_DAY - 1)
    ensures UnderusedPg(s, now)
    ensures LastUsedLabelOf(s.lastUsed, now) == DaysAgo(30, false)
  {
    DivBetween(30 * MS_PER_DAY + 1, 30);
  }
}
