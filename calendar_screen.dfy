/**
 * The usage calendar of mobile/src/screens/CalendarScreen.js: the optional single-subscription
 * filter, fetching each subscription's per-day usage, building the calendar's marked dates, the
 * per-date lookups, the multi-select used to log usage for a date, and the usage percentage on
 * the statistics cards. Dates are day numbers; the screen's `YYYY-MM-DD` strings are not modelled.
 */
module CalendarScreen {
  import opened Wrappers
  import opened Strings
  import opened Domain
  import opened Grouping
  import opened Ordering
  import opened AnalyticsRoutes

  /** One property of the screen's `usageLogs` object: a subscription id and its fetched usage rows. */
  datatype LogEntry = LogEntry(subId: int, rows: seq<DayCount>)

  /** The screen's `usageLogs` object, as its list of properties in the order they were set. */
  type UsageLogs = seq<LogEntry>

  /** `filterSubscriptionId ? allSubs.filter(sub => sub.id === filterSubscriptionId) : allSubs`. */
  function FilterSubs(all: seq<Subscription>, filter: Option<int>): (r: seq<Subscription>)
    ensures filter.None? || filter.value == 0 ==> r == all
    ensures filter.Some? && filter.value != 0 ==>
      forall s :: s in r <==> s in all && s.id == filter.value
  {
    if filter.None? || filter.value == 0 then all
    else Where(all, (s: Subscription) => s.id == filter.value)
  }

  /**
   * `fetchData`'s loop: one usage request per subscription, in order; `fetched` is the answer to
   * GET /analytics/usage/:id, `None` when the request fails, which stores `[]`.
   */
  method FetchLogs(subs: seq<Subscription>, fetched: int -> Option<seq<DayCount>>) returns (logs: UsageLogs)
    ensures |logs| == |subs|
    ensures forall i :: 0 <= i < |subs| ==> logs[i] == LogEntry(subs[i].id, fetched(subs[i].id).GetOr([]))
  {
    logs := [];
    var i := 0;
    while i < |subs|
      invariant 0 <= i <= |subs|
      invariant |logs| == i
      invariant forall j :: 0 <= j < i ==> logs[j] == LogEntry(subs[j].id, fetched(subs[j].id).GetOr([]))
    {
      logs := logs + [LogEntry(subs[i].id, fetched(subs[i].id).GetOr([]))];
      i := i + 1;
    }
  }

  /** `usageLogs[id] || []`. */
  function LogsOf(logs: UsageLogs, id: int): (rows: seq<DayCount>)
    ensures (forall e :: e in logs ==> e.subId != id) ==> rows == []
    ensures rows != [] ==> LogEntry(id, rows) in logs
  {
    if logs == [] then []
    else if logs[0].subId == id then logs[0].rows
    else LogsOf(logs[1..], id)
  }

  // ----- marked dates -----

  /** `subs.find(s => s.id == subId)`: the first subscription with that id. */
  function FindSub(subs: seq<Subscription>, id: int): (r: Option<Subscription>)
    ensures r.Some? ==> r.value in subs && r.value.id == id
    ensures r.None? ==> forall s :: s in subs ==> s.id != id
  {
    if subs == [] then None
    else if subs[0].id == id then Some(subs[0])
    else FindSub(subs[1..], id)
  }

  function EntryKey(e: LogEntry): real {
    e.subId as real
  }

  /** `Object.entries(logs)`: an object's integer-like keys are listed in ascending numeric order. */
  function ObjectEntries(logs: UsageLogs): (entries: seq<LogEntry>)
    ensures multiset(entries) == multiset(logs)
    ensures forall i, j :: 0 <= i < j < |entries| ==> entries[i].subId <= entries[j].subId
  {
    SortAsc(logs, EntryKey)
  }

  /** `dailyUsage[date].push({ name })` for each of one subscription's usage rows, in order. */
  function AddDays(daily: seq<Group<Day, string>>, rows: seq<DayCount>, name: string): seq<Group<Day, string>> {
    if rows == [] then daily
    else AddToGroups(AddDays(daily, rows[..|rows| - 1], name), rows[|rows| - 1].date, name)
  }

  /**
   * `dailyUsage` after the entries have been gone through in order: the dates in order of first
   * use, each with the names of the subscriptions used that day. Entries without a subscription are skipped.
   */
  function DailyUsage(entries: seq<LogEntry>, subs: seq<Subscription>): seq<Group<Day, string>> {
    if entries == [] then []
    else
      var prev := DailyUsage(entries[..|entries| - 1], subs);
      var e := entries[|entries| - 1];
      match FindSub(subs, e.subId)
      case None => prev
      case Some(s) => AddDays(prev, e.rows, s.name)
  }

  lemma AddToGroupsKeys<T>(gs: seq<Group<Day, T>>, k: Day, x: T)
    requires DistinctKeys(gs)
    ensures DistinctKeys(AddToGroups(gs, k, x))
    ensures forall d :: IndexOfKey(AddToGroups(gs, k, x), d) >= 0 <==> IndexOfKey(gs, d) >= 0 || d == k
  {
    var r := AddToGroups(gs, k, x);
    forall d ensures IndexOfKey(r, d) >= 0 <==> IndexOfKey(gs, d) >= 0 || d == k {
      if IndexOfKey(gs, d) >= 0 {
        assert r[IndexOfKey(gs, d)].key == d;
      }
      if IndexOfKey(r, d) >= 0 {
        var i := IndexOfKey(r, d);
        if i < |gs| && d != k {
          assert gs[i].key == d;
        }
      }
      if d == k {
        assert r[if IndexOfKey(gs, k) >= 0 then IndexOfKey(gs, k) else |gs|].key == k;
      }
    }
  }

  lemma {:induction false} AddDaysKeys(daily: seq<Group<Day, string>>, rows: seq<DayCount>, name: string)
    requires DistinctKeys(daily)
    ensures DistinctKeys(AddDays(daily, rows, name))
    ensures forall d :: IndexOfKey(AddDays(daily, rows, name), d) >= 0 <==>
      IndexOfKey(daily, d) >= 0 || exists j :: 0 <= j < |rows| && rows[j].date == d
  {
    if rows != [] {
      var init := rows[..|rows| - 1];
      var last := rows[|rows| - 1].date;
      var prev := AddDays(daily, init, name);
      AddDaysKeys(daily, init, name);
      AddToGroupsKeys(prev, last, name);
      forall d ensures IndexOfKey(AddDays(daily, rows, name), d) >= 0 <==>
        IndexOfKey(daily, d) >= 0 || exists j :: 0 <= j < |rows| && rows[j].date == d
      {
        if exists j :: 0 <= j < |rows| && rows[j].date == d {
          var j :| 0 <= j < |rows| && rows[j].date == d;
          if j < |rows| - 1 {
            assert init[j].date == d;
          }
        }
        if exists j :: 0 <= j < |init| && init[j].date == d {
          var j :| 0 <= j < |init| && init[j].date == d;
          assert rows[j].date == d;
        }
      }
    }
  }

  /** Some entry of a subscription in the list has a usage row on day `d`. */
  ghost predicate UsedOn(entries: seq<LogEntry>, subs: seq<Subscription>, d: Day) {
    exists e, j :: e in entries && FindSub(subs, e.subId).Some? && 0 <= j < |e.rows| && e.rows[j].date == d
  }

  /** `dailyUsage` has one entry per date, and a date has one exactly when a listed subscription was used on it. */
  lemma {:induction false} DailyUsageKeys(entries: seq<LogEntry>, subs: seq<Subscription>)
    ensures DistinctKeys(DailyUsage(entries, subs))
    ensures forall d :: IndexOfKey(DailyUsage(entries, subs), d) >= 0 <==> UsedOn(entries, subs, d)
  {
    if entries != [] {
      var init := entries[..|entries| - 1];
      var e := entries[|entries| - 1];
      DailyUsageKeys(init, subs);
      var prev := DailyUsage(init, subs);
      if FindSub(subs, e.subId).Some? {
        AddDaysKeys(prev, e.rows, FindSub(subs, e.subId).value.name);
      }
      forall d ensures IndexOfKey(DailyUsage(entries, subs), d) >= 0 <==> UsedOn(entries, subs, d) {
        if UsedOn(entries, subs, d) {
          var e', j :| e' in entries && FindSub(subs, e'.subId).Some? && 0 <= j < |e'.rows| && e'.rows[j].date == d;
          var i :| 0 <= i < |entries| && entries[i] == e';
          if i < |entries| - 1 {
            assert e' == init[i];
            assert UsedOn(init, subs, d);
          }
        }
        if UsedOn(init, subs, d) {
          var e', j :| e' in init && FindSub(subs, e'.subId).Some? && 0 <= j < |e'.rows| && e'.rows[j].date == d;
          var i :| 0 <= i < |init| && init[i] == e';
          assert entries[i] == e';
        }
      }
    }
  }

  /** One entry of `markedDates`: the initials shown on the day, and whether a renewal falls on it. */
  datatype Mark = Mark(customText: Option<string>, isRenewal: bool)

  /** `marked[date].customText`: the upper-case first letters of the first three names, joined. */
  function Initials(names: seq<string>): (r: string)
    ensures |r| <= 3 && |r| <= |names|
    ensures (forall i :: 0 <= i < |names| ==> names[i] != "") ==> |r| == if |names| < 3 then |names| else 3
  {
    InitialsOf(if |names| <= 3 then names else names[..3])
  }

  function InitialsOf(names: seq<string>): (r: string)
    ensures |r| <= |names|
    ensures (forall i :: 0 <= i < |names| ==> names[i] != "") ==> |r| == |names|
  {
    if names == [] then "" else UpperFirst(names[0]) + InitialsOf(names[1..])
  }

  /** Each initial is the upper-case first letter of the corresponding name. */
  lemma {:induction false} InitialsAreFirstLetters(names: seq<string>)
    requires forall i :: 0 <= i < |names| ==> names[i] != ""
    ensures forall i :: 0 <= i < |InitialsOf(names)| ==> InitialsOf(names)[i] == UpperChar(names[i][0])
  {
    if names != [] {
      InitialsAreFirstLetters(names[1..]);
      var r := InitialsOf(names);
      forall i | 0 <= i < |r| ensures r[i] == UpperChar(names[i][0]) {
        if i > 0 {
          assert r[i] == InitialsOf(names[1..])[i - 1];
          assert names[1..][i - 1] == names[i];
        }
      }
    }
  }

  /** The marks of the usage pass: every date of `dailyUsage`, with its initials, not yet a renewal. */
  function UsageMarks(daily: seq<Group<Day, string>>): map<Day, Mark> {
    if daily == [] then map[]
    else
      var g := daily[|daily| - 1];
      UsageMarks(daily[..|daily| - 1])[g.key := Mark(Some(Initials(g.members)), false)]
  }

  lemma {:induction false} UsageMarksShape(daily: seq<Group<Day, string>>)
    requires DistinctKeys(daily)
    ensures forall d :: d in UsageMarks(daily) <==> IndexOfKey(daily, d) >= 0
    ensures forall d :: d in UsageMarks(daily) ==>
      UsageMarks(daily)[d] == Mark(Some(Initials(daily[IndexOfKey(daily, d)].members)), false)
  {
    if daily != [] {
      var init := daily[..|daily| - 1];
      assert DistinctKeys(init);
      UsageMarksShape(init);
      forall d | IndexOfKey(init, d) >= 0 ensures IndexOfKey(daily, d) == IndexOfKey(init, d) {
        assert daily[|daily| - 1].key != d;
      }
    }
  }

  /** The renewal pass: the day of each subscription's `next_billing_date` gets `isRenewal`. */
  function WithRenewals(marked: map<Day, Mark>, subs: seq<Subscription>): map<Day, Mark> {
    if subs == [] then marked
    else
      var m := WithRenewals(marked, subs[..|subs| - 1]);
      var s := subs[|subs| - 1];
      match s.nextBillingDate
      case None => m
      case Some(d) => m[d := (if d in m then m[d] else Mark(None, false)).(isRenewal := true)]
  }

  /** The days on which some subscription renews. */
  ghost predicate RenewsOn(subs: seq<Subscription>, d: Day) {
    exists s :: s in subs && s.nextBillingDate == Some(d)
  }

  lemma {:induction false} WithRenewalsShape(marked: map<Day, Mark>, subs: seq<Subscription>)
    ensures forall d :: d in WithRenewals(marked, subs) <==> d in marked || RenewsOn(subs, d)
    ensures forall d :: d in WithRenewals(marked, subs) ==>
      && WithRenewals(marked, subs)[d].customText == (if d in marked then marked[d].customText else None)
      && (WithRenewals(marked, subs)[d].isRenewal <==> (d in marked && marked[d].isRenewal) || RenewsOn(subs, d))
  {
    if subs != [] {
      var init := subs[..|subs| - 1];
      var s := subs[|subs| - 1];
      WithRenewalsShape(marked, init);
      assert forall d :: RenewsOn(subs, d) <==> RenewsOn(init, d) || s.nextBillingDate == Some(d) by {
        forall d ensures RenewsOn(subs, d) <==> RenewsOn(init, d) || s.nextBillingDate == Some(d) {
          if RenewsOn(subs, d) {
            var t :| t in subs && t.nextBillingDate == Some(d);
            var i :| 0 <= i < |subs| && subs[i] == t;
            if i < |subs| - 1 {
              assert init[i] == t;
            }
          }
          if RenewsOn(init, d) {
            var t :| t in init && t.nextBillingDate == Some(d);
            assert t in subs;
          }
        }
      }
    }
  }

  /** What `generateMarkedDates` computes. */
  function MarkedDates(logs: UsageLogs, subs: seq<Subscription>): map<Day, Mark> {
    WithRenewals(UsageMarks(DailyUsage(ObjectEntries(logs), subs)), subs)
  }

  /**
   * `generateMarkedDates`: go through the fetched usage in ascending id order collecting each
   * day's subscription names, mark each such day with their initials, then mark every renewal day.
   */
  method GenerateMarkedDates(logs: UsageLogs, subs: seq<Subscription>) returns (marked: map<Day, Mark>)
    ensures marked == MarkedDates(logs, subs)
  {
    var daily := CollectDailyUsage(ObjectEntries(logs), subs);
    marked := MarkUsage(daily);
    marked := MarkRenewals(marked, subs);
  }

  /** The first pass, into `dailyUsage`. */
  method CollectDailyUsage(entries: seq<LogEntry>, subs: seq<Subscription>) returns (daily: seq<Group<Day, string>>)
    ensures daily == DailyUsage(entries, subs)
  {
    daily := [];
    var i := 0;
    while i < |entries|
      invariant 0 <= i <= |entries|
      invariant daily == DailyUsage(entries[..i], subs)
    {
      var e := entries[i];
      assert entries[..i + 1][..i] == entries[..i];
      var found := FindSub(subs, e.subId);
      if found.Some? {
        daily := AddAll(daily, e.rows, found.value.name);
      }
      i := i + 1;
    }
    assert entries[..i] == entries;
  }

  /** The inner loop over one subscription's usage rows. */
  method AddAll(daily0: seq<Group<Day, string>>, rows: seq<DayCount>, name: string) returns (daily: seq<Group<Day, string>>)
    ensures daily == AddDays(daily0, rows, name)
  {
    daily := daily0;
    var j := 0;
    while j < |rows|
      invariant 0 <= j <= |rows|
      invariant daily == AddDays(daily0, rows[..j], name)
    {
      assert rows[..j + 1][..j] == rows[..j];
      var k := IndexOfKey(daily, rows[j].date);
      if k < 0 {
        daily := daily + [Group(rows[j].date, [name])];
      } else {
        daily := daily[k := Group(rows[j].date, daily[k].members + [name])];
      }
      j := j + 1;
    }
    assert rows[..j] == rows;
  }

  /** The second pass: a mark with the initials on every date of `dailyUsage`. */
  method MarkUsage(daily: seq<Group<Day, string>>) returns (marked: map<Day, Mark>)
    ensures marked == UsageMarks(daily)
  {
    marked := map[];
    var i := 0;
    while i < |daily|
      invariant 0 <= i <= |daily|
      invariant marked == UsageMarks(daily[..i])
    {
      assert daily[..i + 1][..i] == daily[..i];
      marked := marked[daily[i].key := Mark(Some(Initials(daily[i].members)), false)];
      i := i + 1;
    }
    assert daily[..i] == daily;
  }

  /** The third pass over the subscriptions. */
  method MarkRenewals(marked0: map<Day, Mark>, subs: seq<Subscription>) returns (marked: map<Day, Mark>)
    ensures marked == WithRenewals(marked0, subs)
  {
    marked := marked0;
    var i := 0;
    while i < |subs|
      invariant 0 <= i <= |subs|
      invariant marked == WithRenewals(marked0, subs[..i])
    {
      var s := subs[i];
      assert subs[..i + 1][..i] == subs[..i];
      if s.nextBillingDate.Some? {
        var d := s.nextBillingDate.value;
        if d !in marked {
          marked := marked[d := Mark(None, false)];
        }
        marked := marked[d := marked[d].(isRenewal := true)];
      }
      i := i + 1;
    }
    assert subs[..i] == subs;
  }

  /**
   * The calendar marks exactly the days with usage or a renewal. A day with usage carries the
   * initials of the first three subscriptions used that day (at most three letters); a day is a
   * renewal exactly when some subscription's next billing date falls on it.
   */
  lemma MarkedDatesShape(logs: UsageLogs, subs: seq<Subscription>)
    ensures var marked := MarkedDates(logs, subs);
      && (forall d :: d in marked <==> UsedOn(logs, subs, d) || RenewsOn(subs, d))
      && (forall d :: d in marked ==> (marked[d].isRenewal <==> RenewsOn(subs, d)))
      && (forall d :: d in marked ==> (marked[d].customText.Some? <==> UsedOn(logs, subs, d)))
      && (forall d :: d in marked && marked[d].customText.Some? ==> |marked[d].customText.value| <= 3)
  {
    var entries := ObjectEntries(logs);
    var daily := DailyUsage(entries, subs);
    DailyUsageKeys(entries, subs);
    UsageMarksShape(daily);
    WithRenewalsShape(UsageMarks(daily), subs);
    forall d ensures UsedOn(entries, subs, d) <==> UsedOn(logs, subs, d) {
      if UsedOn(entries, subs, d) {
        var e, j :| e in entries && FindSub(subs, e.subId).Some? && 0 <= j < |e.rows| && e.rows[j].date == d;
        assert e in multiset(logs);
      }
      if UsedOn(logs, subs, d) {
        var e, j :| e in logs && FindSub(subs, e.subId).Some? && 0 <= j < |e.rows| && e.rows[j].date == d;
        assert e in multiset(entries);
      }
    }
  }

  /** Every day on which a listed subscription has a usage row is marked, with initials. */
  lemma UsageDayMarked(logs: UsageLogs, subs: seq<Subscription>, e: LogEntry, j: nat)
    requires e in logs && FindSub(subs, e.subId).Some? && j < |e.rows|
    ensures e.rows[j].date in MarkedDates(logs, subs)
    ensures MarkedDates(logs, subs)[e.rows[j].date].customText.Some?
  {
    MarkedDatesShape(logs, subs);
    assert UsedOn(logs, subs, e.rows[j].date);
  }

  // ----- per-date lookups -----

  /** `logs.find(log => log.date === date)`. */
  function FindLog(rows: seq<DayCount>, date: Day): (r: Option<DayCount>)
    ensures r.Some? ==> r.value in rows && r.value.date == date
    ensures r.None? <==> forall i :: 0 <= i < |rows| ==> rows[i].date != date
  {
    if rows == [] then None
    else if rows[0].date == date then Some(rows[0])
    else FindLog(rows[1..], date)
  }

  datatype UsedSub = UsedSub(sub: Subscription, count: nat)

  /**
   * `getUsageForDate`: the subscriptions having a usage row for that date, in list order, each with
   * the count of that row.
   */
  function UsageForDate(subs: seq<Subscription>, logs: UsageLogs, date: Day): (r: seq<UsedSub>)
    ensures |r| <= |subs|
    ensures forall u :: u in r ==>
      u.sub in subs && FindLog(LogsOf(logs, u.sub.id), date) == Some(DayCount(date, u.count))
    ensures forall s :: s in subs && FindLog(LogsOf(logs, s.id), date).Some? ==>
      UsedSub(s, FindLog(LogsOf(logs, s.id), date).value.count) in r
  {
    if subs == [] then []
    else
      var s := subs[0];
      var rest := UsageForDate(subs[1..], logs, date);
      assert forall t :: t in subs[1..] ==> t in subs;
      match FindLog(LogsOf(logs, s.id), date)
      case None => rest
      case Some(row) => [UsedSub(s, row.count)] + rest
  }

  /** `getRenewalsForDate`: the subscriptions whose next billing date is that date. */
  function RenewalsForDate(subs: seq<Subscription>, date: Day): (r: seq<Subscription>)
    ensures forall s :: s in r <==> s in subs && s.nextBillingDate == Some(date)
  {
    var r := Where(subs, (s: Subscription) => s.nextBillingDate == Some(date));
    assert forall s :: s in subs && s.nextBillingDate == Some(date) ==> s in r by {
      forall s | s in subs && s.nextBillingDate == Some(date) ensures s in r {
        var i :| 0 <= i < |subs| && subs[i] == s;
      }
    }
    assert forall s :: s in r ==> s in subs && s.nextBillingDate == Some(date) by {
      forall s | s in r ensures s in subs && s.nextBillingDate == Some(date) {
        var i :| 0 <= i < |r| && r[i] == s;
      }
    }
    r
  }

  // ----- selecting subscriptions and logging usage -----

  /** `toggleSubscriptionSelection`: drop the id when selected, append it otherwise. */
  function Toggle(selected: seq<int>, id: int): (r: seq<int>)
    ensures id in selected ==> id !in r && forall x :: x in r <==> x in selected && x != id
    ensures id !in selected ==> r == selected + [id]
  {
    if id in selected then Where(selected, (x: int) => x != id) else selected + [id]
  }

  predicate NoDuplicates(ids: seq<int>) {
    forall i, j :: 0 <= i < j < |ids| ==> ids[i] != ids[j]
  }

  /** Toggling never introduces a duplicate. */
  lemma ToggleNoDuplicates(selected: seq<int>, id: int)
    requires NoDuplicates(selected)
    ensures NoDuplicates(Toggle(selected, id))
  {
    if id in selected {
      NoDuplicatesWhere(selected, (x: int) => x != id);
    }
  }

  lemma {:induction false} NoDuplicatesWhere(s: seq<int>, p: int -> bool)
    requires NoDuplicates(s)
    ensures NoDuplicates(Where(s, p))
  {
    if s != [] {
      var init := s[..|s| - 1];
      var x := s[|s| - 1];
      assert NoDuplicates(init);
      NoDuplicatesWhere(init, p);
      assert x !in init;
      assert forall y :: y in Where(init, p) ==> y in init by {
        forall y | y in Where(init, p) ensures y in init {
          var i :| 0 <= i < |Where(init, p)| && Where(init, p)[i] == y;
        }
      }
    }
  }

  /** Toggling the same id twice leaves the same set of selected ids; exactly the same list when it was not selected. */
  lemma ToggleTwice(selected: seq<int>, id: int)
    ensures forall x :: x in Toggle(Toggle(selected, id), id) <==> x in selected
    ensures id !in selected ==> Toggle(Toggle(selected, id), id) == selected
  {
    if id !in selected {
      var once := selected + [id];
      var twice := Toggle(once, id);
      assert forall x :: x in twice <==> x in selected;
      assert once[..|once| - 1] == selected;
      WhereLastDropped(selected, id);
    }
  }

  /** Filtering `id` out of `s + [id]`, when `s` does not hold it, gives back `s`. */
  lemma {:induction false} WhereLastDropped(s: seq<int>, id: int)
    requires id !in s
    ensures Where(s + [id], (x: int) => x != id) == s
  {
    var p := (x: int) => x != id;
    assert (s + [id])[..|s|] == s;
    WhereAllKept(s, p);
  }

  lemma {:induction false} WhereAllKept(s: seq<int>, p: int -> bool)
    requires forall i :: 0 <= i < |s| ==> p(s[i])
    ensures Where(s, p) == s
  {
    if s != [] {
      assert s[..|s| - 1] + [s[|s| - 1]] == s;
      WhereAllKept(s[..|s| - 1], p);
    }
  }

  /** One POST /subscriptions/:id/usage, with `used_at` at noon of the chosen date. */
  datatype UsagePost = UsagePost(subscriptionId: int, usedAt: string)

  datatype AddUsageOutcome = NothingSelected | Posts(posts: seq<UsagePost>)

  /**
   * `addUsageForDate`: with nothing selected, the alert 'Lütfen en az bir abonelik seçin' and no
   * request; otherwise one request per selected id, in order.
   */
  function AddUsage(selected: seq<int>, date: string): (r: AddUsageOutcome)
    ensures r.NothingSelected? <==> selected == []
    ensures r.Posts? ==> |r.posts| == |selected|
    ensures r.Posts? ==> forall i :: 0 <= i < |selected| ==> r.posts[i] == UsagePost(selected[i], date + "T12:00:00")
  {
    if selected == [] then NothingSelected
    else Posts(seq(|selected|, i requires 0 <= i < |selected| => UsagePost(selected[i], date + "T12:00:00")))
  }

  // ----- usage percentage -----

  /** `Math.ceil(a / b)` for a positive divisor (Dafny's `/` rounds down for one). */
  function CeilDiv(a: int, b: int): (q: int)
    requires b > 0
    ensures (q - 1) * b < a <= q * b
  {
    -((-a) / b)
  }

  /**
   * `Math.round(100 * used / days)` for non-negative counts and positive days: the whole number
   * nearest to the ratio, halves rounding up, i.e. r - 1/2 <= 100 * used / days < r + 1/2,
   * stated multiplied out by 2 * days.
   */
  function RoundPercent(used: nat, days: int): (r: nat)
    requires days > 0
    ensures 2 * days * r - days <= 200 * used < 2 * days * r + days
  {
    var n := 200 * used + days;
    var q := n / (2 * days);
    assert n == 2 * days * q + n % (2 * days);
    q
  }

  /**
   * The usage percentage on a statistics card: usage days over whole days since the subscription
   * was added (rounded up), rounded to a whole percent; 0 when less than a moment has passed.
   */
  function UsagePercentage(logs: UsageLogs, s: Subscription, now: Time): (r: nat)
    ensures CeilDiv(now - s.createdAt, MS_PER_DAY) <= 0 ==> r == 0
    ensures CeilDiv(now - s.createdAt, MS_PER_DAY) > 0 ==>
      var days := CeilDiv(now - s.createdAt, MS_PER_DAY);
      2 * days * r - days <= 200 * |LogsOf(logs, s.id)| < 2 * days * r + days
  {
    var days := CeilDiv(now - s.createdAt, MS_PER_DAY);
    if days > 0 then RoundPercent(|LogsOf(logs, s.id)|, days) else 0
  }

  /** A subscription used on every day since it was added shows 100%, and never more. */
  lemma FullUsageIsHundred(used: nat, days: int)
    requires days > 0 && used <= days
    ensures RoundPercent(used, days) <= 100
    ensures used == days ==> RoundPercent(used, days) == 100
  {
    var r: int := RoundPercent(used, days);
    assert 2 * days * r - days <= 200 * used <= 200 * days;
    assert days * (2 * r - 201) == 2 * days * r - 201 * days;
    PositiveFactor(days, 2 * r - 201);
    if used == days {
      assert days * (2 * r - 199) == 2 * days * r - 199 * days;
      PositiveFactor(days, 2 * r - 199);
    }
  }

  /** Multiplying by a positive number keeps the sign. */
  lemma PositiveFactor(a: int, m: int)
    requires a > 0
    ensures a * m <= 0 ==> m <= 0
    ensures a * m > 0 ==> m > 0
  {
  }
}
