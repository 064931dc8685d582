/**
 * The `/api/discover` routes of server/routes/discover.js: the friends' activity feed, what is
 * popular among friends, one friend's activity, and the sponsored "featured this week" slots
 * with their impression and click counters.
 */
module DiscoverRoutes {
  import opened Wrappers
  import opened Strings
  import opened Domain
  import opened Http
  import opened Ordering
  import opened Grouping
  import opened QueryShim

  const DEFAULT_FEED_LIMIT: nat := 50
  const POPULAR_LIMIT: nat := 10
  const FRIEND_ACTIVITY_LIMIT: nat := 50
  const FEATURED_LIMIT: nat := 3
  const TRENDING_LIMIT: nat := 20
  const SUGGESTION_LIMIT: nat := 10

  /** A feed entry joined with its author's name and email. */
  datatype FeedItem = FeedItem(activity: Activity, userName: string, userEmail: string)

  function ItemOf(a: Activity, u: User): FeedItem {
    FeedItem(a, u.name, u.email)
  }

  function ItemKey(x: FeedItem): real {
    x.activity.createdAt as real
  }

  /** The feed entries that satisfy `p`, joined with the author's user row (entries whose author is gone drop out). */
  function ItemsWhere(feed: seq<Activity>, users: seq<User>, p: Activity -> bool): (r: seq<FeedItem>)
    ensures |r| <= |feed|
    ensures forall x :: x in r ==>
      p(x.activity) && x.activity in feed && FindUser(users, x.activity.userId).Some?
      && x == ItemOf(x.activity, FindUser(users, x.activity.userId).value)
    ensures forall i :: 0 <= i < |feed| && p(feed[i]) && FindUser(users, feed[i].userId).Some? ==>
      ItemOf(feed[i], FindUser(users, feed[i].userId).value) in r
  {
    if feed == [] then []
    else
      var a := feed[0];
      var rest := ItemsWhere(feed[1..], users, p);
      assert forall i :: 1 <= i < |feed| ==> feed[i] == feed[1..][i - 1];
      var u := FindUser(users, a.userId);
      (if p(a) && u.Some? then [ItemOf(a, u.value)] else []) + rest
  }

  /** An entry the caller's feed shows: by somebody else, to whom the caller has a friends row. */
  predicate ByFriend(a: Activity, friends: seq<Friendship>, caller: int) {
    a.userId != caller && HasFriendRow(friends, caller, a.userId)
  }

  /** `limit`/`offset` of the query string, 50 and 0 when absent. */
  function PageOf(limit: Option<nat>, offset: Option<nat>): (r: (nat, nat))
    ensures r.0 == (if limit.Some? then limit.value else DEFAULT_FEED_LIMIT)
    ensures r.1 == (if offset.Some? then offset.value else 0)
  {
    (limit.GetOr(DEFAULT_FEED_LIMIT), offset.GetOr(0))
  }

  /** The caller's friends' entries, joined with their authors. */
  function FeedItems(st: Store, caller: int): (r: seq<FeedItem>)
    reads st
    ensures forall x :: x in r ==> x.activity in st.activityFeed && ByFriend(x.activity, st.friends, caller)
    ensures forall i ::
      (0 <= i < |st.activityFeed| && ByFriend(st.activityFeed[i], st.friends, caller)
       && FindUser(st.users, st.activityFeed[i].userId).Some?) ==>
        ItemOf(st.activityFeed[i], FindUser(st.users, st.activityFeed[i].userId).value) in r
  {
    var friends := st.friends;
    ItemsWhere(st.activityFeed, st.users, (a: Activity) => ByFriend(a, friends, caller))
  }

  /**
   * GET /feed: the friends' entries, newest first, one page of them. Nothing of the caller's
   * own and nothing of a non-friend appears, and the page holds at most `limit` entries.
   */
  function Feed(st: Store, caller: int, limit: Option<nat>, offset: Option<nat>): (r: Response<seq<FeedItem>>)
    reads st
    ensures r.IsOk()
    ensures |r.body.value| <= PageOf(limit, offset).0
    ensures forall x :: x in r.body.value ==> x.activity in st.activityFeed && ByFriend(x.activity, st.friends, caller)
    ensures SortedDesc(r.body.value, ItemKey)
    ensures r.body.value == Take(Drop(SortDesc(FeedItems(st, caller), ItemKey), PageOf(limit, offset).1), PageOf(limit, offset).0)
  {
    var items := FeedItems(st, caller);
    var (n, m) := PageOf(limit, offset);
    PageOfSort(items, ItemKey, m, n);
    Ok(Take(Drop(SortDesc(items, ItemKey), m), n))
  }

  // ----- popular among friends -----

  /** A friend's announcement of a newly added subscription. */
  predicate AddedByFriend(a: Activity, friends: seq<Friendship>, caller: int) {
    a.activityType == "subscription_added" && HasFriendRow(friends, caller, a.userId)
  }

  function NameOf(x: FeedItem): string {
    x.activity.subscriptionName
  }

  /** The names of a group's users, each once, in order of first appearance (`GROUP_CONCAT(DISTINCT u.name)`). */
  function DistinctNames(items: seq<FeedItem>): (names: seq<string>)
    ensures forall n :: n in names <==> exists i :: 0 <= i < |items| && items[i].userName == n
    ensures forall i, j :: 0 <= i < j < |names| ==> names[i] != names[j]
    ensures |names| <= |items|
    ensures items != [] ==> names != []
  {
    if items == [] then []
    else
      var init := DistinctNames(items[..|items| - 1]);
      var last := items[|items| - 1].userName;
      assert forall i :: 0 <= i < |items| - 1 ==> items[..|items| - 1][i] == items[i];
      if last in init then init else init + [last]
  }

  /**
   * `friend_names ? friend_names.split(',') : []`: a NULL concatenation and an empty one are both
   * falsy and give the empty list; any other is split at its commas.
   */
  function SplitNames(concatenated: Option<string>): (names: seq<string>)
    ensures concatenated.None? ==> names == []
    ensures concatenated == Some("") ==> names == []
    ensures concatenated.Some? && concatenated.value != "" ==>
      Join(names, ",") == concatenated.value && |names| == CountChar(concatenated.value, ',') + 1
  {
    match concatenated
    case None => []
    case Some(s) => if s == "" then [] else Split(s, ',')
  }

  datatype PopularItem = PopularItem(name: string, price: real, currency: string, friendCount: nat, friendNames: seq<string>)

  /** One row per subscription name; the price and currency are read from the group's first entry. */
  function PopularRow(g: Group<string, FeedItem>): PopularItem {
    var first := if g.members == [] then Activity(0, 0, "", 0, "", 0.0, "", 0) else g.members[0].activity;
    PopularItem(g.key, first.subscriptionPrice, first.subscriptionCurrency, |g.members|,
      SplitNames(Some(Join(DistinctNames(g.members), ","))))
  }

  function PopularRows(items: seq<FeedItem>): (rows: seq<PopularItem>)
    ensures |rows| == |GroupBy(items, NameOf)|
    ensures forall i :: 0 <= i < |rows| ==> rows[i] == PopularRow(GroupBy(items, NameOf)[i])
  {
    var gs := GroupBy(items, NameOf);
    seq(|gs|, i requires 0 <= i < |gs| => PopularRow(gs[i]))
  }

  function CountKey(p: PopularItem): real {
    p.friendCount as real
  }

  /** The friends' announcements, joined with their authors. */
  function FriendAnnouncements(st: Store, caller: int): seq<FeedItem>
    reads st
  {
    var friends := st.friends;
    ItemsWhere(st.activityFeed, st.users, (a: Activity) => AddedByFriend(a, friends, caller))
  }

  /** GET /popular: at most ten subscription names, by how many friend announcements name them, most first. */
  function Popular(st: Store, caller: int): (r: Response<seq<PopularItem>>)
    reads st
    ensures r.IsOk()
    ensures |r.body.value| <= POPULAR_LIMIT
    ensures SortedDesc(r.body.value, CountKey)
    ensures r.body.value == Take(SortDesc(PopularRows(FriendAnnouncements(st, caller)), CountKey), POPULAR_LIMIT)
  {
    var sorted := SortDesc(PopularRows(FriendAnnouncements(st, caller)), CountKey);
    SortedPage(sorted, CountKey, 0, POPULAR_LIMIT);
    assert Drop(sorted, 0) == sorted;
    Ok(Take(sorted, POPULAR_LIMIT))
  }

  /** Each popular row counts the friends' announcements of its name (at least one), and the names really are friends'. */
  lemma PopularRowsExact(items: seq<FeedItem>)
    ensures forall i :: 0 <= i < |PopularRows(items)| ==>
      var row := PopularRows(items)[i];
      row.friendCount == |WithKey(items, NameOf, row.name)| && row.friendCount >= 1
    ensures forall i, j :: 0 <= i < j < |PopularRows(items)| ==> PopularRows(items)[i].name != PopularRows(items)[j].name
  {
    GroupByCorrect(items, NameOf);
  }

  /** No name left out of the ten is more popular than a name shown. */
  lemma PopularIsTop(st: Store, caller: int)
    ensures var rows := PopularRows(FriendAnnouncements(st, caller));
      forall x, y :: x in Popular(st, caller).body.value && y in rows && y !in Popular(st, caller).body.value ==>
        x.friendCount >= y.friendCount
  {
    TopCounts(PopularRows(FriendAnnouncements(st, caller)));
  }

  lemma TopCounts(rows: seq<PopularItem>)
    ensures forall x, y ::
      (x in Take(SortDesc(rows, CountKey), POPULAR_LIMIT) && y in rows
       && y !in Take(SortDesc(rows, CountKey), POPULAR_LIMIT)) ==>
        x.friendCount >= y.friendCount
  {
    var shown := Take(SortDesc(rows, CountKey), POPULAR_LIMIT);
    TopElements(rows, CountKey, POPULAR_LIMIT);
    forall x, y | x in shown && y in rows && y !in shown ensures x.friendCount >= y.friendCount {
      assert CountKey(x) >= CountKey(y);
    }
  }

  /**
   * When no friend's name contains a comma, `friend_names` is exactly the distinct names, unless
   * every friend of the group has the empty name: the concatenation is then "" and no names are sent.
   */
  lemma FriendNamesRoundTrip(g: Group<string, FeedItem>)
    requires g.members != []
    requires forall i :: 0 <= i < |g.members| ==> ',' !in g.members[i].userName
    ensures (exists i :: 0 <= i < |g.members| && g.members[i].userName != "") ==>
      PopularRow(g).friendNames == DistinctNames(g.members)
    ensures (forall i :: 0 <= i < |g.members| ==> g.members[i].userName == "") ==>
      PopularRow(g).friendNames == []
  {
    var names := DistinctNames(g.members);
    if exists i :: 0 <= i < |g.members| && g.members[i].userName != "" {
      var i :| 0 <= i < |g.members| && g.members[i].userName != "";
      assert g.members[i].userName in names;
      JoinNonEmpty(names, ",");
      forall k | 0 <= k < |names| ensures ',' !in names[k] {
        assert names[k] in names;
      }
      SplitJoin(names, ',');
    } else {
      forall k | 0 <= k < |names| ensures names[k] == "" {
        assert names[k] in names;
      }
      NamelessOnce(names);
    }
  }

  /** Joining pieces that are not all empty, or two or more pieces, gives a non-empty string. */
  lemma JoinNonEmpty(parts: seq<string>, sep: string)
    requires |sep| == 1
    requires exists n :: n in parts && n != ""
    ensures Join(parts, sep) != ""
  {
    if |parts| >= 2 {
      assert |Join(parts, sep)| >= |sep|;
    }
  }

  /** Distinct names that are all empty are the one empty name. */
  lemma NamelessOnce(names: seq<string>)
    requires names != []
    requires forall k :: 0 <= k < |names| ==> names[k] == ""
    requires forall i, j :: 0 <= i < j < |names| ==> names[i] != names[j]
    ensures names == [""]
  {
    assert names[0] == names[|names| - 1];
  }

  /** A friend whose name contains a comma is split into two names. */
  lemma CommaInNameSplits()
    ensures SplitNames(Some("Ali,Veli")) == ["Ali", "Veli"]
  {
    TwoNamesSplit("Ali", "Veli");
    assert "Ali" + [','] + "Veli" == "Ali,Veli";
  }

  /** Two comma-free names joined by a comma, the first non-empty, split back into the two. */
  lemma TwoNamesSplit(a: string, b: string)
    requires a != "" && ',' !in a && ',' !in b
    ensures SplitNames(Some(a + [','] + b)) == [a, b]
  {
    SplitAfterPiece(a, b, ',');
    SplitNoSeparator(b, ',');
    assert (a + [','] + b)[0] == a[0];
  }

  // ----- trending on the whole platform -----

  /** An announcement, by anybody, of a subscription added in the last thirty days. */
  predicate RecentlyAdded(a: Activity, now: Time) {
    a.activityType == "subscription_added" && a.createdAt >= now - 30 * MS_PER_DAY
  }

  function ActivityName(a: Activity): string {
    a.subscriptionName
  }

  function ActivityPrice(a: Activity): real {
    a.subscriptionPrice
  }

  /** `COUNT(*)` is a number of announcements: the same user adding a name twice counts twice. */
  datatype TrendingItem = TrendingItem(name: string, userCount: nat, avgPrice: real, currency: string)

  /** One row per name: its announcements, their average price, and the currency of the first one. */
  function TrendingRow(g: Group<string, Activity>): TrendingItem {
    var n := |g.members|;
    TrendingItem(g.key, n, if n == 0 then 0.0 else SumOver(g.members, ActivityPrice) / n as real,
      if n == 0 then "" else g.members[0].subscriptionCurrency)
  }

  function TrendingRows(recent: seq<Activity>): (rows: seq<TrendingItem>)
    ensures |rows| == |GroupBy(recent, ActivityName)|
    ensures forall i :: 0 <= i < |rows| ==> rows[i] == TrendingRow(GroupBy(recent, ActivityName)[i])
  {
    var gs := GroupBy(recent, ActivityName);
    seq(|gs|, i requires 0 <= i < |gs| => TrendingRow(gs[i]))
  }

  function UserCountKey(t: TrendingItem): real {
    t.userCount as real
  }

  /** The platform's announcements inside the window, in table order. */
  function RecentAnnouncements(st: Store, now: Time): (r: seq<Activity>)
    reads st
    ensures forall a :: a in r <==> a in st.activityFeed && RecentlyAdded(a, now)
  {
    var r := Where(st.activityFeed, (a: Activity) => RecentlyAdded(a, now));
    assert forall a :: a in st.activityFeed && RecentlyAdded(a, now) ==> a in r by {
      forall a | a in st.activityFeed && RecentlyAdded(a, now) ensures a in r {
        var i :| 0 <= i < |st.activityFeed| && st.activityFeed[i] == a;
      }
    }
    r
  }

  /** GET /trending: at most twenty names, by their number of recent announcements, most first. */
  function Trending(st: Store, now: Time): (r: Response<seq<TrendingItem>>)
    reads st
    ensures r.IsOk()
    ensures |r.body.value| == Min(TRENDING_LIMIT, |TrendingRows(RecentAnnouncements(st, now))|)
    ensures SortedDesc(r.body.value, UserCountKey)
    ensures forall x :: x in r.body.value ==> x in TrendingRows(RecentAnnouncements(st, now))
    ensures r.body.value == Take(SortDesc(TrendingRows(RecentAnnouncements(st, now)), UserCountKey), TRENDING_LIMIT)
  {
    var rows := TrendingRows(RecentAnnouncements(st, now));
    PageOfSort(rows, UserCountKey, 0, TRENDING_LIMIT);
    assert Drop(SortDesc(rows, UserCountKey), 0) == SortDesc(rows, UserCountKey);
    Ok(Take(SortDesc(rows, UserCountKey), TRENDING_LIMIT))
  }

  /** A trending row for `name` describes the recent announcements of that name. */
  predicate DescribesAnnouncements(row: TrendingItem, recent: seq<Activity>) {
    var named := WithKey(recent, ActivityName, row.name);
    && row.userCount == |named| && row.userCount >= 1
    && row.avgPrice * row.userCount as real == SumOver(named, ActivityPrice)
  }

  lemma TrendingRowsExact(recent: seq<Activity>)
    ensures forall i :: 0 <= i < |TrendingRows(recent)| ==> DescribesAnnouncements(TrendingRows(recent)[i], recent)
    ensures forall i, j :: 0 <= i < j < |TrendingRows(recent)| ==> TrendingRows(recent)[i].name != TrendingRows(recent)[j].name
  {
    var gs := GroupBy(recent, ActivityName);
    var rows := TrendingRows(recent);
    GroupByCorrect(recent, ActivityName);
    forall i | 0 <= i < |rows| ensures DescribesAnnouncements(rows[i], recent) {
      TrendingRowOfGroup(gs[i], recent);
    }
  }

  lemma TrendingRowOfGroup(g: Group<string, Activity>, recent: seq<Activity>)
    requires g.members == WithKey(recent, ActivityName, g.key) && g.members != []
    ensures DescribesAnnouncements(TrendingRow(g), recent)
  {
    var row, n, sum := TrendingRow(g), |g.members|, SumOver(g.members, ActivityPrice);
    assert row.name == g.key && row.userCount == n && row.avgPrice == sum / n as real;
    AverageTimesCount(sum, n);
    assert row.avgPrice * row.userCount as real == sum;
  }

  lemma AverageTimesCount(sum: real, n: nat)
    requires n > 0
    ensures sum / n as real * n as real == sum
  {
  }

  /** No name left out of the twenty has more recent announcements than a name shown. */
  lemma TrendingIsTop(st: Store, now: Time)
    ensures var rows := TrendingRows(RecentAnnouncements(st, now));
      var shown := Trending(st, now).body.value;
      forall x, y :: x in shown && y in rows && y !in shown ==> x.userCount >= y.userCount
  {
    var rows := TrendingRows(RecentAnnouncements(st, now));
    var shown := Take(SortDesc(rows, UserCountKey), TRENDING_LIMIT);
    TopElements(rows, UserCountKey, TRENDING_LIMIT);
    forall x, y | x in shown && y in rows && y !in shown ensures x.userCount >= y.userCount {
      assert UserCountKey(x) >= UserCountKey(y);
    }
  }

  // ----- suggestions by category -----

  /** The subscriptions rows, of any user, that the join pairs with an announcement of `name`. */
  function MatchingSubs(subs: seq<Subscription>, name: string, category: string): (r: seq<Subscription>)
    ensures forall s :: s in r ==> s in subs && s.name == name && s.category == category
  {
    Where(subs, (s: Subscription) => s.name == name && s.category == category)
  }

  /** `n` copies of one announcement. */
  function Copies(a: Activity, n: nat): (r: seq<Activity>)
    ensures |r| == n && forall i :: 0 <= i < n ==> r[i] == a
  {
    seq(n, _ => a)
  }

  /**
   * The rows of `activity_feed a JOIN subscriptions s ON a.subscription_name = s.name JOIN friends
   * … WHERE s.category = ? AND a.activity_type = 'subscription_added'`: each friend's announcement
   * once for every subscriptions row, of any user, with that name in the category.
   */
  function SuggestionJoin(feed: seq<Activity>, friends: seq<Friendship>, caller: int, subs: seq<Subscription>, category: string): seq<Activity> {
    if feed == [] then []
    else
      var a := feed[|feed| - 1];
      var init := SuggestionJoin(feed[..|feed| - 1], friends, caller, subs, category);
      init + (if AddedByFriend(a, friends, caller) then Copies(a, |MatchingSubs(subs, a.subscriptionName, category)|) else [])
  }

  /** How many of the friends' announcements name `name`. */
  function AnnouncementCount(feed: seq<Activity>, friends: seq<Friendship>, caller: int, name: string): nat {
    if feed == [] then 0
    else
      var a := feed[|feed| - 1];
      AnnouncementCount(feed[..|feed| - 1], friends, caller, name)
        + (if AddedByFriend(a, friends, caller) && a.subscriptionName == name then 1 else 0)
  }

  /**
   * The join multiplies: the rows for a name are the friends' announcements of it times the
   * subscriptions rows with that name in the category, whoever owns them.
   */
  lemma {:induction false} SuggestionJoinCount(feed: seq<Activity>, friends: seq<Friendship>, caller: int,
                                               subs: seq<Subscription>, category: string, name: string)
    ensures |WithKey(SuggestionJoin(feed, friends, caller, subs, category), ActivityName, name)|
      == AnnouncementCount(feed, friends, caller, name) * |MatchingSubs(subs, name, category)|
  {
    if feed != [] {
      var a := feed[|feed| - 1];
      var init := feed[..|feed| - 1];
      var joined := SuggestionJoin(init, friends, caller, subs, category);
      var counted := AddedByFriend(a, friends, caller);
      var copies := if counted then Copies(a, |MatchingSubs(subs, a.subscriptionName, category)|) else [];
      assert SuggestionJoin(feed, friends, caller, subs, category) == joined + copies;
      SuggestionJoinCount(init, friends, caller, subs, category, name);
      WithKeyAppend(joined, copies, ActivityName, name);
      CopiesWithKey(copies, a, name);
      var m := |MatchingSubs(subs, name, category)|;
      var hit := counted && a.subscriptionName == name;
      var before := |WithKey(joined, ActivityName, name)|;
      var added := |WithKey(copies, ActivityName, name)|;
      assert added == if hit then m else 0;
      assert |WithKey(SuggestionJoin(feed, friends, caller, subs, category), ActivityName, name)| == before + added;
      assert AnnouncementCount(feed, friends, caller, name) == AnnouncementCount(init, friends, caller, name) + if hit then 1 else 0;
      MulStep(before + added, before, AnnouncementCount(feed, friends, caller, name), AnnouncementCount(init, friends, caller, name), m, hit);
    }
  }

  /** One more announcement adds one more factor of `m` to the product. */
  lemma MulStep(total: nat, before: nat, count: nat, countBefore: nat, m: nat, hit: bool)
    requires before == countBefore * m
    requires total == before + if hit then m else 0
    requires count == countBefore + if hit then 1 else 0
    ensures total == count * m
  {
  }

  /** Filtering copies of one announcement by name keeps all or none of them. */
  lemma {:induction false} CopiesWithKey(copies: seq<Activity>, a: Activity, name: string)
    requires forall i :: 0 <= i < |copies| ==> copies[i] == a
    ensures WithKey(copies, ActivityName, name) == if a.subscriptionName == name then copies else []
  {
    if copies != [] {
      CopiesWithKey(copies[..|copies| - 1], a, name);
      assert copies == copies[..|copies| - 1] + [a];
    }
  }

  datatype Suggestion = Suggestion(name: string, price: real, currency: string, usageCount: nat)

  /** One row per name; the price and currency are read from the group's first row. */
  function SuggestionRow(g: Group<string, Activity>): Suggestion {
    var first := if g.members == [] then Activity(0, 0, "", 0, "", 0.0, "", 0) else g.members[0];
    Suggestion(g.key, first.subscriptionPrice, first.subscriptionCurrency, |g.members|)
  }

  function SuggestionRows(joined: seq<Activity>): (rows: seq<Suggestion>)
    ensures |rows| == |GroupBy(joined, ActivityName)|
    ensures forall i :: 0 <= i < |rows| ==> rows[i] == SuggestionRow(GroupBy(joined, ActivityName)[i])
  {
    var gs := GroupBy(joined, ActivityName);
    seq(|gs|, i requires 0 <= i < |gs| => SuggestionRow(gs[i]))
  }

  function UsageCountKey(s: Suggestion): real {
    s.usageCount as real
  }

  /** GET /suggestions/:category: at most ten names, by their number of joined rows, most first. */
  function Suggestions(st: Store, caller: int, category: string): (r: Response<seq<Suggestion>>)
    reads st
    ensures r.IsOk()
    ensures |r.body.value| == Min(SUGGESTION_LIMIT, |SuggestionRows(SuggestionJoin(st.activityFeed, st.friends, caller, st.subscriptions, category))|)
    ensures SortedDesc(r.body.value, UsageCountKey)
    ensures forall x :: x in r.body.value ==>
      x in SuggestionRows(SuggestionJoin(st.activityFeed, st.friends, caller, st.subscriptions, category))
    ensures r.body.value ==
      Take(SortDesc(SuggestionRows(SuggestionJoin(st.activityFeed, st.friends, caller, st.subscriptions, category)), UsageCountKey), SUGGESTION_LIMIT)
  {
    var rows := SuggestionRows(SuggestionJoin(st.activityFeed, st.friends, caller, st.subscriptions, category));
    PageOfSort(rows, UsageCountKey, 0, SUGGESTION_LIMIT);
    assert Drop(SortDesc(rows, UsageCountKey), 0) == SortDesc(rows, UsageCountKey);
    Ok(Take(SortDesc(rows, UsageCountKey), SUGGESTION_LIMIT))
  }
  /** No name left out of the ten has a larger `usage_count` than a name shown. */
  lemma SuggestionsIsTop(st: Store, caller: int, category: string)
    ensures var rows := SuggestionRows(SuggestionJoin(st.activityFeed, st.friends, caller, st.subscriptions, category));
      var shown := Suggestions(st, caller, category).body.value;
      forall x, y :: x in shown && y in rows && y !in shown ==> x.usageCount >= y.usageCount
  {
    var rows := SuggestionRows(SuggestionJoin(st.activityFeed, st.friends, caller, st.subscriptions, category));
    var shown := Take(SortDesc(rows, UsageCountKey), SUGGESTION_LIMIT);
    TopElements(rows, UsageCountKey, SUGGESTION_LIMIT);
    forall x, y | x in shown && y in rows && y !in shown ensures x.usageCount >= y.usageCount {
      assert UsageCountKey(x) >= UsageCountKey(y);
    }
  }


  /**
   * A suggestion's `usage_count` is the number of the friends' announcements of its name times
   * the number of subscriptions rows with that name in the category (at least one of each), and
   * no name has two rows.
   */
  lemma SuggestionCounts(st: Store, caller: int, category: string)
    ensures var rows := SuggestionRows(SuggestionJoin(st.activityFeed, st.friends, caller, st.subscriptions, category));
      && (forall i :: 0 <= i < |rows| ==>
            && rows[i].usageCount == AnnouncementCount(st.activityFeed, st.friends, caller, rows[i].name)
                 * |MatchingSubs(st.subscriptions, rows[i].name, category)|
            && rows[i].usageCount >= 1)
      && (forall i, j :: 0 <= i < j < |rows| ==> rows[i].name != rows[j].name)
  {
    var joined := SuggestionJoin(st.activityFeed, st.friends, caller, st.subscriptions, category);
    var rows := SuggestionRows(joined);
    GroupByCorrect(joined, ActivityName);
    forall i | 0 <= i < |rows|
      ensures rows[i].usageCount == AnnouncementCount(st.activityFeed, st.friends, caller, rows[i].name)
        * |MatchingSubs(st.subscriptions, rows[i].name, category)|
    {
      SuggestionJoinCount(st.activityFeed, st.friends, caller, st.subscriptions, category, rows[i].name);
    }
  }

  /** A name a friend added twice, held in one subscriptions row of the category, counts twice; held in two rows, four times. */
  lemma SuggestionCountInflated(a: Activity, friends: seq<Friendship>, caller: int, s: Subscription, t: Subscription)
    requires AddedByFriend(a, friends, caller)
    requires s.name == a.subscriptionName && t.name == a.subscriptionName && s.category == t.category
    ensures |WithKey(SuggestionJoin([a, a], friends, caller, [s], s.category), ActivityName, a.subscriptionName)| == 2
    ensures |WithKey(SuggestionJoin([a, a], friends, caller, [s, t], s.category), ActivityName, a.subscriptionName)| == 4
  {
    var name := a.subscriptionName;
    assert AnnouncementCount([a, a], friends, caller, name) == 2 by {
      assert [a][..0] == [];
      assert AnnouncementCount([a], friends, caller, name) == 1;
      assert [a, a][..1] == [a];
    }
    assert |MatchingSubs([s], name, s.category)| == 1 by {
      assert [s][..0] == [];
    }
    assert |MatchingSubs([s, t], name, s.category)| == 2 by {
      assert [s, t][..1] == [s] && [s][..0] == [];
    }
    SuggestionJoinCount([a, a], friends, caller, [s], s.category, name);
    SuggestionJoinCount([a, a], friends, caller, [s, t], s.category, name);
  }

  // ----- one friend's activity -----

  /**
   * GET /friend/:friendId: 403 unless the caller has the friends row (caller, friendId);
   * otherwise that user's latest fifty entries, newest first.
   */
  function FriendActivity(st: Store, caller: int, friendId: int): (r: Response<seq<FeedItem>>)
    reads st
    ensures r.status == 200 || r.status == 403
    ensures r.status == 403 <==> !HasFriendRow(st.friends, caller, friendId)
    ensures r.status == 403 ==> r == Fail(403, "Bu kullanıcının aktivitelerini göremezsiniz")
    ensures r.status == 200 ==>
      && r.body.Json?
      && |r.body.value| <= FRIEND_ACTIVITY_LIMIT
      && SortedDesc(r.body.value, ItemKey)
      && r.body.value == Take(SortDesc(ItemsWhere(st.activityFeed, st.users, (a: Activity) => a.userId == friendId), ItemKey), FRIEND_ACTIVITY_LIMIT)
  {
    if !HasFriendRow(st.friends, caller, friendId) then Fail(403, "Bu kullanıcının aktivitelerini göremezsiniz")
    else
      var sorted := SortDesc(ItemsWhere(st.activityFeed, st.users, (a: Activity) => a.userId == friendId), ItemKey);
      SortedPage(sorted, ItemKey, 0, FRIEND_ACTIVITY_LIMIT);
      assert Drop(sorted, 0) == sorted;
      Ok(Take(sorted, FRIEND_ACTIVITY_LIMIT))
  }

  /** Every entry of a friend's activity is that friend's. */
  lemma FriendActivityIsTheFriends(st: Store, caller: int, friendId: int)
    requires FriendActivity(st, caller, friendId).status == 200
    ensures forall x :: x in FriendActivity(st, caller, friendId).body.value ==> x.activity.userId == friendId
  {
    var items := ItemsWhere(st.activityFeed, st.users, (a: Activity) => a.userId == friendId);
    var sorted := SortDesc(items, ItemKey);
    forall x | x in FriendActivity(st, caller, friendId).body.value ensures x.activity.userId == friendId {
      assert x in sorted;
      assert x in multiset(sorted);
      assert x in items;
    }
  }

  // ----- featured this week -----

  /** Active, and `week_start_date <= today <= week_end_date`. */
  predicate RunsOn(f: Featured, today: Day) {
    f.isActive == 1 && f.weekStart <= today <= f.weekEnd
  }

  function PaymentKey(f: Featured): real {
    f.impressionPayment
  }

  /** The slots `RunsOn` the day, in table order. */
  function RunningSlots(rows: seq<Featured>, today: Day): seq<Featured> {
    Where(rows, (f: Featured) => RunsOn(f, today))
  }

  /** GET /weekly-featured: of the slots running today (UTC), the three best paid, best first. */
  function WeeklyFeatured(st: Store, now: Time): (r: Response<seq<Featured>>)
    reads st
    ensures r.IsOk()
    ensures |r.body.value| <= FEATURED_LIMIT
    ensures SortedDesc(r.body.value, PaymentKey)
    ensures forall f :: f in r.body.value ==> f in st.weeklyFeatured && RunsOn(f, DayOf(now))
    ensures r.body.value == Take(SortDesc(RunningSlots(st.weeklyFeatured, DayOf(now)), PaymentKey), FEATURED_LIMIT)
  {
    var running := RunningSlots(st.weeklyFeatured, DayOf(now));
    var sorted := SortDesc(running, PaymentKey);
    SortedPage(sorted, PaymentKey, 0, FEATURED_LIMIT);
    assert Drop(sorted, 0) == sorted;
    var shown := Take(sorted, FEATURED_LIMIT);
    forall f | f in shown ensures f in st.weeklyFeatured && RunsOn(f, DayOf(now)) {
      var i :| 0 <= i < |shown| && shown[i] == f;
      assert f == sorted[i];
      assert f in multiset(running);
      var j :| 0 <= j < |running| && running[j] == f;
    }
    Ok(shown)
  }

  /** A running slot that is not shown is paid no more than any slot shown. */
  lemma WeeklyFeaturedIsTop(st: Store, now: Time)
    ensures forall x, y ::
      (x in WeeklyFeatured(st, now).body.value && y in st.weeklyFeatured && RunsOn(y, DayOf(now))
       && y !in WeeklyFeatured(st, now).body.value) ==>
        x.impressionPayment >= y.impressionPayment
  {
    var running := RunningSlots(st.weeklyFeatured, DayOf(now));
    var shown := Take(SortDesc(running, PaymentKey), FEATURED_LIMIT);
    TopElements(running, PaymentKey, FEATURED_LIMIT);
    forall x, y | x in shown && y in st.weeklyFeatured && RunsOn(y, DayOf(now)) && y !in shown
      ensures x.impressionPayment >= y.impressionPayment
    {
      assert y in running;
      assert PaymentKey(x) >= PaymentKey(y);
    }
  }

  // ----- counters -----

  /** `UPDATE weekly_featured SET total_impressions = total_impressions + 1 WHERE id = ?`. */
  function CountImpression(fs: seq<Featured>, id: int): (r: seq<Featured>)
    ensures |r| == |fs|
    ensures forall i :: 0 <= i < |fs| ==> r[i].totalImpressions == fs[i].totalImpressions + (if fs[i].id == id then 1 else 0)
    ensures forall i :: 0 <= i < |fs| ==> r[i].(totalImpressions := fs[i].totalImpressions) == fs[i]
  {
    seq(|fs|, i requires 0 <= i < |fs| => if fs[i].id == id then fs[i].(totalImpressions := fs[i].totalImpressions + 1) else fs[i])
  }

  /** `UPDATE weekly_featured SET click_count = click_count + 1 WHERE id = ?`. */
  function CountClick(fs: seq<Featured>, id: int): (r: seq<Featured>)
    ensures |r| == |fs|
    ensures forall i :: 0 <= i < |fs| ==> r[i].clickCount == fs[i].clickCount + (if fs[i].id == id then 1 else 0)
    ensures forall i :: 0 <= i < |fs| ==> r[i].(clickCount := fs[i].clickCount) == fs[i]
  {
    seq(|fs|, i requires 0 <= i < |fs| => if fs[i].id == id then fs[i].(clickCount := fs[i].clickCount + 1) else fs[i])
  }

  /**
   * The `lastID` that `run` reports for a one-row INSERT without `RETURNING id` whose row got
   * `id`: SQLite reports the row's id, PostgreSQL returns no row and so reports null.
   */
  function InsertLastId(backend: Backend, id: int): (r: Option<int>)
    ensures backend == Sqlite ==> r == Some(id)
    ensures backend == Postgres ==> r == None
  {
    match backend
    case Sqlite => SqliteRun(id, 1).lastId
    case Postgres => PgRun(PgResult([], 1)).lastId
  }

  /**
   * POST /weekly-featured/:id/impression: one impression row for the caller, and the slot's
   * impression count goes up by exactly one (the id is not checked: an unknown id still gets
   * its impression row, and no counter moves). The answer's `impressionId` is the `lastID` of the
   * INSERT, which has no `RETURNING id`: the new row's id on SQLite, null on PostgreSQL.
   */
  method Impression(st: Store, backend: Backend, caller: int, featuredId: int, now: Time) returns (r: Response<Option<int>>)
    requires st.Valid()
    modifies st`featuredImpressions, st`weeklyFeatured, st`nextId
    ensures st.Valid()
    ensures r == Ok(InsertLastId(backend, old(st.nextId))) && st.nextId == old(st.nextId) + 1
    ensures st.featuredImpressions == old(st.featuredImpressions) + [Domain.Impression(old(st.nextId), featuredId, caller, now)]
    ensures st.weeklyFeatured == CountImpression(old(st.weeklyFeatured), featuredId)
  {
    var id := st.FreshId();
    st.featuredImpressions := st.featuredImpressions + [Domain.Impression(id, featuredId, caller, now)];
    st.weeklyFeatured := CountImpression(st.weeklyFeatured, featuredId);
    r := Ok(InsertLastId(backend, id));
  }

  /** POST /weekly-featured/:id/click: the slot's click count goes up by exactly one and nothing else changes. */
  method Click(st: Store, featuredId: int) returns (r: Response<()>)
    requires st.Valid()
    modifies st`weeklyFeatured
    ensures st.Valid()
    ensures r == Ok(())
    ensures st.weeklyFeatured == CountClick(old(st.weeklyFeatured), featuredId)
  {
    st.weeklyFeatured := CountClick(st.weeklyFeatured, featuredId);
    r := Ok(());
  }
}
