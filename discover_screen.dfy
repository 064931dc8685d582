/**
 * The logic of the mobile discover screen (mobile/src/screens/DiscoverScreen.js): the sentence
 * shown for a friend's activity, the "time ago" label, and the impression posted for each
 * featured item received.
 */
module DiscoverScreen {
  import opened Wrappers
  import opened Strings
  import opened Domain
  import opened DiscoverRoutes
  import opened QueryShim

  // ----- activity sentences -----

  /** `activity.user_name || activity.user_email.split('@')[0]`. */
  function DisplayName(item: FeedItem): (name: string)
    ensures item.userName != "" ==> name == item.userName
    ensures item.userName == "" ==> name <= item.userEmail && '@' !in name
  {
    if item.userName != "" then item.userName else Split(item.userEmail, '@')[0]
  }

  /** Without a name, the sentence names the whole address up to its first '@'. */
  lemma LocalPartOfAddress(item: FeedItem, local: string, domain: string)
    requires item.userName == "" && '@' !in local
    requires item.userEmail == local + "@" + domain
    ensures DisplayName(item) == local
  {
    SplitAfterPiece(local, domain, '@');
    assert local + "@" + domain == local + ['@'] + domain;
  }

  /** `getActivityMessage`: an 'ekledi' or a 'kullandı' sentence by type, a generic one otherwise. */
  function ActivityMessage(item: FeedItem): (m: string)
    ensures DisplayName(item) <= m
    ensures item.activity.activityType == "subscription_added" ==>
      m == DisplayName(item) + ", " + item.activity.subscriptionName + " ekledi"
    ensures item.activity.activityType == "subscription_used" ==>
      m == DisplayName(item) + ", " + item.activity.subscriptionName + " kullandı"
    ensures item.activity.activityType !in {"subscription_added", "subscription_used"} ==>
      m == DisplayName(item) + " bir aktivite gerçekleştirdi"
  {
    var who := DisplayName(item);
    if item.activity.activityType == "subscription_added" then who + ", " + item.activity.subscriptionName + " ekledi"
    else if item.activity.activityType == "subscription_used" then who + ", " + item.activity.subscriptionName + " kullandı"
    else who + " bir aktivite gerçekleştirdi"
  }

  // ----- time ago -----

  /** The five labels of `getTimeAgo`, with the count the label shows. */
  datatype Ago = JustNow | MinutesAgo(minutes: nat) | HoursAgo(hours: nat) | DaysAgo(days: nat) | WeeksAgo(weeks: nat)

  /** `Math.floor((now - date) / 1000)`. */
  function SecondsSince(date: Time, now: Time): int {
    (now - date) / 1000
  }

  /**
   * `getTimeAgo`: under a minute (and any moment in the future) is 'Az önce'; after that the
   * whole number of the largest unit below the next bucket's bound, so each count is at least
   * one and stays below the next unit.
   */
  function TimeAgo(date: Time, now: Time): (a: Ago)
    ensures a == JustNow <==> SecondsSince(date, now) < 60
    ensures a.MinutesAgo? ==>
      60 <= SecondsSince(date, now) < 3600
      && a.minutes == SecondsSince(date, now) / 60 && 1 <= a.minutes < 60
    ensures a.HoursAgo? ==>
      3600 <= SecondsSince(date, now) < 86400
      && a.hours == SecondsSince(date, now) / 3600 && 1 <= a.hours < 24
    ensures a.DaysAgo? ==>
      86400 <= SecondsSince(date, now) < 604800
      && a.days == SecondsSince(date, now) / 86400 && 1 <= a.days < 7
    ensures a.WeeksAgo? ==>
      604800 <= SecondsSince(date, now)
      && a.weeks == SecondsSince(date, now) / 604800 && a.weeks >= 1
  {
    var s := SecondsSince(date, now);
    if s < 60 then JustNow
    else if s < 3600 then MinutesAgo(s / 60)
    else if s < 86400 then HoursAgo(s / 3600)
    else if s < 604800 then DaysAgo(s / 86400)
    else WeeksAgo(s / 604800)
  }

  function AgoText(a: Ago): string {
    match a
    case JustNow => "Az önce"
    case MinutesAgo(n) => NatToString(n) + " dakika önce"
    case HoursAgo(n) => NatToString(n) + " saat önce"
    case DaysAgo(n) => NatToString(n) + " gün önce"
    case WeeksAgo(n) => NatToString(n) + " hafta önce"
  }

  /** A date in the future (a clock ahead of the phone's) reads 'Az önce'. */
  lemma FutureIsJustNow(date: Time, now: Time)
    requires date > now
    ensures TimeAgo(date, now) == JustNow
  {
  }

  /** The label only moves on as time passes: the bucket never goes back to a smaller unit. */
  lemma TimeAgoMovesOn(date: Time, now1: Time, now2: Time)
    requires now1 <= now2
    ensures Rank(TimeAgo(date, now1)) <= Rank(TimeAgo(date, now2))
  {
    assert SecondsSince(date, now1) <= SecondsSince(date, now2);
  }

  function Rank(a: Ago): nat {
    match a
    case JustNow => 0
    case MinutesAgo(_) => 1
    case HoursAgo(_) => 2
    case DaysAgo(_) => 3
    case WeeksAgo(_) => 4
  }

  // ----- impressions -----

  function IdsOf(featured: seq<Featured>): (ids: seq<int>)
    ensures |ids| == |featured|
    ensures forall i :: 0 <= i < |featured| ==> ids[i] == featured[i].id
  {
    seq(|featured|, i requires 0 <= i < |featured| => featured[i].id)
  }

  /** The `featured_impressions` rows the posts add, with consecutive fresh ids from `start`. */
  function ImpressionRows(start: int, ids: seq<int>, caller: int, now: Time): (rows: seq<Domain.Impression>)
    ensures |rows| == |ids|
    ensures forall k :: 0 <= k < |ids| ==> rows[k] == Domain.Impression(start + k, ids[k], caller, now)
  {
    seq(|ids|, k requires 0 <= k < |ids| => Domain.Impression(start + k, ids[k], caller, now))
  }

  /** The featured rows after one impression for each id in turn. */
  function CountImpressions(fs: seq<Featured>, ids: seq<int>): (r: seq<Featured>)
    ensures |r| == |fs|
  {
    if ids == [] then fs
    else CountImpression(CountImpressions(fs, ids[..|ids| - 1]), ids[|ids| - 1])
  }

  /** Each featured row gains one impression per time its id was posted, and nothing else changes. */
  lemma {:induction false} CountImpressionsTotal(fs: seq<Featured>, ids: seq<int>)
    ensures |CountImpressions(fs, ids)| == |fs|
    ensures forall j :: 0 <= j < |fs| ==>
      CountImpressions(fs, ids)[j].totalImpressions == fs[j].totalImpressions + multiset(ids)[fs[j].id]
    ensures forall j :: 0 <= j < |fs| ==>
      CountImpressions(fs, ids)[j].(totalImpressions := fs[j].totalImpressions) == fs[j]
  {
    if ids != [] {
      var init := ids[..|ids| - 1];
      CountImpressionsTotal(fs, init);
      assert ids == init + [ids[|ids| - 1]];
      assert multiset(ids) == multiset(init) + multiset{ids[|ids| - 1]};
    }
  }

  /**
   * The impression posts of `fetchData`: one POST per featured item received, in list order
   * (none for an empty list), each going through the server's impression handler.
   */
  method PostImpressions(st: Store, backend: Backend, caller: int, featured: seq<Featured>, now: Time) returns (posted: seq<int>)
    requires st.Valid()
    modifies st`featuredImpressions, st`weeklyFeatured, st`nextId
    ensures st.Valid()
    ensures posted == IdsOf(featured)
    ensures st.nextId == old(st.nextId) + |featured|
    ensures st.featuredImpressions == old(st.featuredImpressions) + ImpressionRows(old(st.nextId), IdsOf(featured), caller, now)
    ensures st.weeklyFeatured == CountImpressions(old(st.weeklyFeatured), IdsOf(featured))
  {
    var ids := IdsOf(featured);
    posted := [];
    var i := 0;
    while i < |featured|
      invariant 0 <= i <= |featured|
      invariant st.Valid()
      invariant posted == ids[..i]
      invariant st.nextId == old(st.nextId) + i
      invariant st.featuredImpressions == old(st.featuredImpressions) + ImpressionRows(old(st.nextId), ids[..i], caller, now)
      invariant st.weeklyFeatured == CountImpressions(old(st.weeklyFeatured), ids[..i])
    {
      var _ := DiscoverRoutes.Impression(st, backend, caller, ids[i], now);
      assert ids[..i + 1][..i] == ids[..i];
      assert ImpressionRows(old(st.nextId), ids[..i + 1], caller, now)
        == ImpressionRows(old(st.nextId), ids[..i], caller, now) + [Domain.Impression(old(st.nextId) + i, ids[i], caller, now)];
      posted := posted + [ids[i]];
      i := i + 1;
    }
    assert ids[..i] == ids;
  }

  /** After the posts every featured item shown has gained at least one impression. */
  lemma ShownItemsCounted(fs: seq<Featured>, featured: seq<Featured>, j: nat)
    requires j < |fs| && exists k :: 0 <= k < |featured| && featured[k].id == fs[j].id
    ensures CountImpressions(fs, IdsOf(featured))[j].totalImpressions >= fs[j].totalImpressions + 1
  {
    CountImpressionsTotal(fs, IdsOf(featured));
    var k :| 0 <= k < |featured| && featured[k].id == fs[j].id;
    assert IdsOf(featured)[k] == fs[j].id;
    assert fs[j].id in multiset(IdsOf(featured));
  }
}
