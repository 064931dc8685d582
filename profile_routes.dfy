/**
 * The `/api/profile` routes of server/routes/profile.js: the caller's own profile with its
 * statistics, another user's profile behind the privacy settings, the name change, and the
 * privacy settings themselves (read with defaults, written as a merge into one row per user).
 */
module ProfileRoutes {
  import opened Wrappers
  import opened Strings
  import opened Domain
  import opened Http
  import opened Grouping
  import AnalyticsRoutes

  // ----- privacy settings -----

  /** The four privacy flags, as stored (integers the routes test for truthiness). */
  datatype Privacy = Privacy(profilePublic: int, showSubscriptions: int, showSpending: int, allowFriendRequests: int)

  /** What a user who never saved settings is told they have. */
  const DEFAULT_PRIVACY: Privacy := Privacy(1, 1, 0, 1)

  function FlagsOf(row: PrivacySettings): Privacy {
    Privacy(row.profilePublic, row.showSubscriptions, row.showSpending, row.allowFriendRequests)
  }

  /** `SELECT * FROM user_settings WHERE user_id = ?`. */
  function FindSettings(rows: seq<PrivacySettings>, uid: int): (r: Option<PrivacySettings>)
    ensures r.Some? ==> r.value in rows && r.value.userId == uid
    ensures r.None? ==> forall i :: 0 <= i < |rows| ==> rows[i].userId != uid
  {
    if rows == [] then None
    else if rows[0].userId == uid then Some(rows[0])
    else FindSettings(rows[1..], uid)
  }

  /** GET /settings/privacy: the stored flags, or the defaults (1, 1, 0, 1) when there is no row. */
  function PrivacyGet(st: Store, caller: int): (r: Response<Privacy>)
    reads st
    ensures r.status == 200 && r.body.Json?
    ensures FindSettings(st.userSettings, caller).None? ==> r.body.value == DEFAULT_PRIVACY
    ensures FindSettings(st.userSettings, caller).Some? ==> r.body.value == FlagsOf(FindSettings(st.userSettings, caller).value)
  {
    match FindSettings(st.userSettings, caller)
    case None => Ok(DEFAULT_PRIVACY)
    case Some(row) => Ok(FlagsOf(row))
  }

  /** The fields a PUT carries; `None` is a field left out of the body. */
  datatype PrivacyPatch = PrivacyPatch(
    profilePublic: Option<int>,
    showSubscriptions: Option<int>,
    showSpending: Option<int>,
    allowFriendRequests: Option<int>)

  /** Each given field replaces the old value; each omitted one keeps it. */
  function Merge(base: Privacy, p: PrivacyPatch): (r: Privacy)
    ensures p.profilePublic.Some? ==> r.profilePublic == p.profilePublic.value
    ensures p.profilePublic.None? ==> r.profilePublic == base.profilePublic
    ensures p.showSubscriptions.Some? ==> r.showSubscriptions == p.showSubscriptions.value
    ensures p.showSubscriptions.None? ==> r.showSubscriptions == base.showSubscriptions
    ensures p.showSpending.Some? ==> r.showSpending == p.showSpending.value
    ensures p.showSpending.None? ==> r.showSpending == base.showSpending
    ensures p.allowFriendRequests.Some? ==> r.allowFriendRequests == p.allowFriendRequests.value
    ensures p.allowFriendRequests.None? ==> r.allowFriendRequests == base.allowFriendRequests
  {
    Privacy(p.profilePublic.GetOr(base.profilePublic), p.showSubscriptions.GetOr(base.showSubscriptions),
            p.showSpending.GetOr(base.showSpending), p.allowFriendRequests.GetOr(base.allowFriendRequests))
  }

  function RowOf(uid: int, f: Privacy): PrivacySettings {
    PrivacySettings(uid, f.profilePublic, f.showSubscriptions, f.showSpending, f.allowFriendRequests)
  }

  /** `UPDATE user_settings SET ... WHERE user_id = ?` with the merged flags. */
  function UpdateSettings(rows: seq<PrivacySettings>, uid: int, p: PrivacyPatch): (r: seq<PrivacySettings>)
    ensures |r| == |rows|
    ensures forall i :: 0 <= i < |rows| ==> r[i].userId == rows[i].userId
    ensures forall i :: 0 <= i < |rows| ==> r[i] == if rows[i].userId == uid then RowOf(uid, Merge(FlagsOf(rows[i]), p)) else rows[i]
  {
    seq(|rows|, i requires 0 <= i < |rows| => if rows[i].userId == uid then RowOf(uid, Merge(FlagsOf(rows[i]), p)) else rows[i])
  }

  /** With one row per user, the lookup finds the row at `k`, the only one of that user. */
  lemma {:induction false} FindOnlySettings(rows: seq<PrivacySettings>, uid: int, k: nat)
    requires OneSettingsRowPerUser(rows)
    requires k < |rows| && rows[k].userId == uid
    ensures FindSettings(rows, uid) == Some(rows[k])
  {
    if k > 0 {
      assert rows[0].userId != uid;
      FindOnlySettings(rows[1..], uid, k - 1);
    }
  }

  /** The stored row of a user is found at some position. */
  lemma FoundSettingsAt(rows: seq<PrivacySettings>, uid: int) returns (k: nat)
    requires FindSettings(rows, uid).Some?
    ensures k < |rows| && rows[k] == FindSettings(rows, uid).value
  {
    k :| 0 <= k < |rows| && rows[k] == FindSettings(rows, uid).value;
  }

  /**
   * PUT /settings/privacy. With a row, the given fields overwrite it and the rest stay; without
   * one, a row is inserted with the given fields over the defaults. Either way one row per user
   * remains, and a later GET returns the merge of what GET returned before with the given fields.
   */
  method PrivacyPut(st: Store, caller: int, p: PrivacyPatch) returns (r: Response<()>)
    requires st.Valid()
    modifies st`userSettings
    ensures st.Valid()
    ensures r == Ok(())
    ensures FindSettings(old(st.userSettings), caller).Some? ==> st.userSettings == UpdateSettings(old(st.userSettings), caller, p)
    ensures FindSettings(old(st.userSettings), caller).None? ==>
      st.userSettings == old(st.userSettings) + [RowOf(caller, Merge(DEFAULT_PRIVACY, p))]
    ensures PrivacyGet(st, caller).body.value == Merge(old(PrivacyGet(st, caller).body.value), p)
  {
    var rows := st.userSettings;
    var existing := FindSettings(rows, caller);
    if existing.Some? {
      var k := FoundSettingsAt(rows, caller);
      st.userSettings := UpdateSettings(rows, caller, p);
      FindOnlySettings(st.userSettings, caller, k);
    } else {
      st.userSettings := rows + [RowOf(caller, Merge(DEFAULT_PRIVACY, p))];
      FindOnlySettings(st.userSettings, caller, |rows|);
    }
    r := Ok(());
  }

  /** A PUT that leaves every field out changes what GET reports in no way. */
  lemma EmptyPatchKeepsView(base: Privacy)
    ensures Merge(base, PrivacyPatch(None, None, None, None)) == base
  {
  }

  // ----- the caller's own profile -----

  datatype OwnStats = OwnStats(subscriptionCount: nat, totalMonthly: real, friendCount: nat)

  datatype OwnProfile = OwnProfile(
    id: int, email: string, name: string, createdAt: Time, settings: Option<Privacy>, stats: OwnStats)

  /** `SELECT COUNT(*) FROM friends WHERE user_id = ?`. */
  function FriendRowCount(friends: seq<Friendship>, uid: int): (n: nat)
    ensures n <= |friends|
    ensures n == 0 <==> forall i :: 0 <= i < |friends| ==> friends[i].userId != uid
  {
    if friends == [] then 0
    else
      assert forall i :: 1 <= i < |friends| ==> friends[i] == friends[1..][i - 1];
      (if friends[0].userId == uid then 1 else 0) + FriendRowCount(friends[1..], uid)
  }

  /**
   * GET /me. 404 without a user row. Otherwise the user, their settings as the left join gives
   * them (absent without a row), how many subscriptions they have, the plain sum of the prices
   * (no currency conversion, 0 with none), and how many friends rows start at them.
   */
  function OwnProfileOf(st: Store, caller: int): (r: Response<OwnProfile>)
    reads st
    ensures r.status == 200 || r.status == 404
    ensures r.status == 404 <==> FindUser(st.users, caller).None?
    ensures r.status == 200 ==>
      var u := FindUser(st.users, caller).value;
      && r.body.Json? && r.body.value.id == u.id && r.body.value.email == u.email && r.body.value.name == u.name
      && (r.body.value.settings.Some? <==> FindSettings(st.userSettings, caller).Some?)
      && r.body.value.stats.subscriptionCount == |SubsOf(st.subscriptions, caller)|
      && r.body.value.stats.totalMonthly == SumOver(SubsOf(st.subscriptions, caller), AnalyticsRoutes.PriceOf)
      && r.body.value.stats.friendCount == FriendRowCount(st.friends, caller)
  {
    match FindUser(st.users, caller)
    case None => Fail(404, "Kullanıcı bulunamadı")
    case Some(u) =>
      var mine := SubsOf(st.subscriptions, caller);
      var settings := match FindSettings(st.userSettings, caller) case None => None case Some(row) => Some(FlagsOf(row));
      Ok(OwnProfile(u.id, u.email, u.name, u.createdAt, settings,
        OwnStats(|mine|, SumOver(mine, AnalyticsRoutes.PriceOf), FriendRowCount(st.friends, caller))))
  }

  /** The profile's total is the raw price sum: a single 10-dollar subscription counts as 10, not as 340 lira. */
  lemma ProfileTotalIsUnconverted(s: Subscription)
    requires s.currency == "$" && s.price == 10.0
    ensures SumOver([s], AnalyticsRoutes.PriceOf) == 10.0
    ensures SumOver([s], AnalyticsRoutes.PriceInTl) == 340.0
  {
    assert [s][..0] == [];
    assert "$" != "₺" by { assert "$"[0] != "₺"[0]; }
  }

  // ----- another user's profile -----

  datatype OtherStats = OtherStats(subscriptionCount: Option<nat>, totalMonthly: Option<real>)

  datatype OtherProfile = OtherProfile(id: int, name: string, email: string, isFriend: bool, stats: OtherStats)

  /** `SUM(price)` over the user's subscriptions: NULL (here `None`) when there are none. */
  function PriceSum(mine: seq<Subscription>): (r: Option<real>)
    ensures r.None? <==> mine == []
    ensures r.Some? ==> r.value == SumOver(mine, AnalyticsRoutes.PriceOf)
  {
    if mine == [] then None else Some(SumOver(mine, AnalyticsRoutes.PriceOf))
  }

  /** The profile of `u` as shown under the flags `f` to a viewer whose friendship is `friend`. */
  function ProfileUnder(u: User, f: Privacy, friend: bool, mine: seq<Subscription>): OtherProfile {
    OtherProfile(u.id, u.name, u.email, friend,
      OtherStats(if Truthy(f.showSubscriptions) then Some(|mine|) else None,
                 if Truthy(f.showSpending) then PriceSum(mine) else None))
  }

  /**
   * GET /:userId as written. The friendship looked at is the single row (caller, user). 404
   * without a user; 403 when the left-joined `profile_public` is falsy and there is no such row.
   * The left join gives NULL flags to a user without a settings row, so such a user is hidden
   * from everybody but friends, and shows neither count nor total even to them.
   */
  function OtherProfileOf(st: Store, caller: int, userId: int): (r: Response<OtherProfile>)
    reads st
    ensures r.status == 200 || r.status == 403 || r.status == 404
    ensures r.status == 404 <==> FindUser(st.users, userId).None?
    ensures r.status == 403 <==>
      && FindUser(st.users, userId).Some?
      && !HasFriendRow(st.friends, caller, userId)
      && (FindSettings(st.userSettings, userId).None? || !Truthy(FindSettings(st.userSettings, userId).value.profilePublic))
    ensures r.status == 200 ==>
      && r.body.Json?
      && (r.body.value.isFriend <==> HasFriendRow(st.friends, caller, userId))
      && (r.body.value.stats.subscriptionCount.Some? <==>
            FindSettings(st.userSettings, userId).Some? && Truthy(FindSettings(st.userSettings, userId).value.showSubscriptions))
      && (r.body.value.stats.subscriptionCount.Some? ==> r.body.value.stats.subscriptionCount.value == |SubsOf(st.subscriptions, userId)|)
      && (r.body.value.stats.totalMonthly.Some? <==>
            && FindSettings(st.userSettings, userId).Some? && Truthy(FindSettings(st.userSettings, userId).value.showSpending)
            && SubsOf(st.subscriptions, userId) != [])
      && (r.body.value.stats.totalMonthly.Some? ==>
            r.body.value.stats.totalMonthly.value == SumOver(SubsOf(st.subscriptions, userId), AnalyticsRoutes.PriceOf))
  {
    var friend := HasFriendRow(st.friends, caller, userId);
    match FindUser(st.users, userId)
    case None => Fail(404, "Kullanıcı bulunamadı")
    case Some(u) =>
      // NULL columns of the left join read as 0, which is falsy
      var f := match FindSettings(st.userSettings, userId) case None => Privacy(0, 0, 0, 0) case Some(row) => FlagsOf(row);
      if !Truthy(f.profilePublic) && !friend then Fail(403, "Bu profil gizli")
      else Ok(ProfileUnder(u, f, friend, SubsOf(st.subscriptions, userId)))
  }

  /**
   * The discrepancy: a user who never saved settings is told their profile is public, yet a
   * viewer who is not their friend is refused with 403.
   */
  lemma UnsavedSettingsHideProfile(st: Store, caller: int, userId: int)
    requires FindUser(st.users, userId).Some?
    requires FindSettings(st.userSettings, userId).None?
    requires !HasFriendRow(st.friends, caller, userId)
    ensures PrivacyGet(st, userId).body.value.profilePublic == 1
    ensures OtherProfileOf(st, caller, userId).status == 403
  {
  }

  /**
   * GET /:userId as evidently intended: the flags a viewer is judged by are the ones the owner
   * is shown by GET /settings/privacy, defaults included.
   */
  function OtherProfileIntended(st: Store, caller: int, userId: int): (r: Response<OtherProfile>)
    reads st
    ensures r.status == 200 || r.status == 403 || r.status == 404
    ensures r.status == 404 <==> FindUser(st.users, userId).None?
    ensures r.status == 403 <==>
      FindUser(st.users, userId).Some? && !HasFriendRow(st.friends, caller, userId)
      && !Truthy(PrivacyGet(st, userId).body.value.profilePublic)
    ensures r.status == 200 ==>
      && r.body.Json?
      && (r.body.value.isFriend <==> HasFriendRow(st.friends, caller, userId))
      && (r.body.value.stats.subscriptionCount.Some? <==> Truthy(PrivacyGet(st, userId).body.value.showSubscriptions))
      && (r.body.value.stats.subscriptionCount.Some? ==> r.body.value.stats.subscriptionCount.value == |SubsOf(st.subscriptions, userId)|)
      && (r.body.value.stats.totalMonthly.Some? <==>
            Truthy(PrivacyGet(st, userId).body.value.showSpending) && SubsOf(st.subscriptions, userId) != [])
      && (r.body.value.stats.totalMonthly.Some? ==>
            r.body.value.stats.totalMonthly.value == SumOver(SubsOf(st.subscriptions, userId), AnalyticsRoutes.PriceOf))
  {
    var friend := HasFriendRow(st.friends, caller, userId);
    match FindUser(st.users, userId)
    case None => Fail(404, "Kullanıcı bulunamadı")
    case Some(u) =>
      var f := PrivacyGet(st, userId).body.value;
      if !Truthy(f.profilePublic) && !friend then Fail(403, "Bu profil gizli")
      else Ok(ProfileUnder(u, f, friend, SubsOf(st.subscriptions, userId)))
  }

  /** Once the user has a settings row, the route as written and the intended one agree. */
  lemma IntendedAgreesWithSavedSettings(st: Store, caller: int, userId: int)
    requires FindSettings(st.userSettings, userId).Some?
    ensures OtherProfileIntended(st, caller, userId) == OtherProfileOf(st, caller, userId)
  {
  }

  /** Under the intended rule a user who never saved settings is visible to everybody, with the count shown and the total hidden. */
  lemma IntendedUnsavedIsPublic(st: Store, caller: int, userId: int)
    requires FindUser(st.users, userId).Some?
    requires FindSettings(st.userSettings, userId).None?
    ensures OtherProfileIntended(st, caller, userId).status == 200
    ensures OtherProfileIntended(st, caller, userId).body.value.stats.subscriptionCount == Some(|SubsOf(st.subscriptions, userId)|)
    ensures OtherProfileIntended(st, caller, userId).body.value.stats.totalMonthly == None
  {
  }

  // ----- the name -----

  /** `UPDATE users SET name = ? WHERE id = ?`. */
  function SetName(users: seq<User>, id: int, name: string): (r: seq<User>)
    ensures |r| == |users|
    ensures forall i :: 0 <= i < |users| ==> r[i] == if users[i].id == id then users[i].(name := name) else users[i]
  {
    seq(|users|, i requires 0 <= i < |users| => if users[i].id == id then users[i].(name := name) else users[i])
  }

  /**
   * PUT /me: a name that is empty or shorter than two characters once trimmed is refused with
   * 400; otherwise the trimmed name is stored and echoed. What is stored starts and ends with a
   * non-space character and has at least two characters.
   */
  method UpdateName(st: Store, caller: int, name: string) returns (r: Response<string>)
    requires st.Valid()
    modifies st`users
    ensures st.Valid()
    ensures r.status == 200 || r.status == 400
    ensures r.status == 400 <==> |Trim(name)| < 2
    ensures r.status == 400 ==> r == Fail(400, "İsim en az 2 karakter olmalı") && unchanged(st)
    ensures r.status == 200 ==>
      && r == Ok(Trim(name))
      && st.users == SetName(old(st.users), caller, Trim(name))
      && |Trim(name)| >= 2 && !IsSpace(Trim(name)[0]) && !IsSpace(Trim(name)[|Trim(name)| - 1])
  {
    if name == "" || |Trim(name)| < 2 {
      return Fail(400, "İsim en az 2 karakter olmalı");
    }
    st.users := SetName(st.users, caller, Trim(name));
    r := Ok(Trim(name));
  }
}
