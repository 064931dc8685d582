/**
 * The `/api/recommendations` routes of server/routes/recommendations.js: the caller's
 * occupation profile (one row per user, saved by update-or-insert), the rule-based community
 * recommendations drawn from users of the same occupation or, for a student, from all
 * students, and the fixed list of occupations.
 */
module RecommendationsRoutes {
  import opened Wrappers
  import opened Domain
  import opened Http
  import opened Ordering
  import opened Grouping
  import opened AnalyticsRoutes

  const COMMUNITY_LIMIT: nat := 10
  const STUDENTS: string := "Öğrenciler"

  // ----- the occupation profile -----

  /** `SELECT * FROM user_profiles WHERE user_id = ?`. */
  function FindProfile(rows: seq<UserProfile>, uid: int): (r: Option<UserProfile>)
    ensures r.Some? ==> r.value in rows && r.value.userId == uid
    ensures r.None? <==> forall i :: 0 <= i < |rows| ==> rows[i].userId != uid
  {
    if rows == [] then None
    else if rows[0].userId == uid then Some(rows[0])
    else FindProfile(rows[1..], uid)
  }

  /** The row a save writes: `is_student` is stored as 1 or 0, the other fields as sent. */
  function ProfileRow(uid: int, occupation: Option<string>, isStudent: bool, interests: Option<string>): (p: UserProfile)
    ensures p.userId == uid && p.occupation == occupation && p.interests == interests
    ensures p.isStudent == 1 <==> isStudent
    ensures p.isStudent == 0 <==> !isStudent
  {
    UserProfile(uid, occupation, Bit(isStudent), interests)
  }

  /** The save as one function: overwrite the user's row when there is one, append it otherwise. */
  function UpsertProfile(rows: seq<UserProfile>, row: UserProfile): seq<UserProfile> {
    if FindProfile(rows, row.userId).Some? then
      seq(|rows|, i requires 0 <= i < |rows| => if rows[i].userId == row.userId then row else rows[i])
    else rows + [row]
  }

  /** Saving keeps one profile per user. */
  lemma UpsertKeepsOnePerUser(rows: seq<UserProfile>, row: UserProfile)
    requires OneProfilePerUser(rows)
    ensures OneProfilePerUser(UpsertProfile(rows, row))
  {
  }

  /** With one profile per user, the lookup finds the user's only row. */
  lemma {:induction false} FindOnlyProfile(rows: seq<UserProfile>, uid: int, k: nat)
    requires OneProfilePerUser(rows)
    requires k < |rows| && rows[k].userId == uid
    ensures FindProfile(rows, uid) == Some(rows[k])
  {
    if k > 0 {
      assert rows[0].userId != uid;
      FindOnlyProfile(rows[1..], uid, k - 1);
    }
  }

  /** Round trip: after a save, the user's profile is the row saved. */
  lemma SavedProfileFound(rows: seq<UserProfile>, row: UserProfile)
    requires OneProfilePerUser(rows)
    ensures FindProfile(UpsertProfile(rows, row), row.userId) == Some(row)
  {
    var r := UpsertProfile(rows, row);
    UpsertKeepsOnePerUser(rows, row);
    if FindProfile(rows, row.userId).Some? {
      var k :| 0 <= k < |rows| && rows[k] == FindProfile(rows, row.userId).value;
      FindOnlyProfile(r, row.userId, k);
    } else {
      FindOnlyProfile(r, row.userId, |rows|);
    }
  }

  /** A save leaves every other user's profile as it was. */
  lemma {:induction false} UpsertLeavesOthers(rows: seq<UserProfile>, row: UserProfile, uid: int)
    requires OneProfilePerUser(rows)
    requires uid != row.userId
    ensures FindProfile(UpsertProfile(rows, row), uid) == FindProfile(rows, uid)
  {
    var r := UpsertProfile(rows, row);
    UpsertKeepsOnePerUser(rows, row);
    match FindProfile(rows, uid)
    case None =>
      forall i | 0 <= i < |r| ensures r[i].userId != uid {
        if i < |rows| {
          assert rows[i].userId != uid;
        }
      }
    case Some(p) =>
      var k :| 0 <= k < |rows| && rows[k] == p;
      assert r[k] == p;
      FindOnlyProfile(r, uid, k);
  }

  /** GET /profile: the caller's row, or null when there is none. */
  function GetProfile(st: Store, caller: int): (r: Response<Option<UserProfile>>)
    reads st
    ensures r.IsOk()
    ensures r.body.value.None? <==> forall i :: 0 <= i < |st.userProfiles| ==> st.userProfiles[i].userId != caller
    ensures r.body.value.Some? ==> r.body.value.value in st.userProfiles && r.body.value.value.userId == caller
  {
    Ok(FindProfile(st.userProfiles, caller))
  }

  /**
   * POST /profile: update the caller's row when there is one, insert it otherwise. Afterwards
   * GET /profile answers with exactly what was saved, and no other user's profile changes.
   */
  method SaveProfile(st: Store, caller: int, occupation: Option<string>, isStudent: bool, interests: Option<string>)
    returns (r: Response<string>)
    requires st.Valid()
    modifies st`userProfiles
    ensures st.Valid()
    ensures r == Ok("Profil başarıyla güncellendi")
    ensures st.userProfiles == UpsertProfile(old(st.userProfiles), ProfileRow(caller, occupation, isStudent, interests))
    ensures GetProfile(st, caller) == Ok(Some(ProfileRow(caller, occupation, isStudent, interests)))
    ensures forall u :: u != caller ==> FindProfile(st.userProfiles, u) == FindProfile(old(st.userProfiles), u)
  {
    var row := ProfileRow(caller, occupation, isStudent, interests);
    var rows := st.userProfiles;
    UpsertKeepsOnePerUser(rows, row);
    SavedProfileFound(rows, row);
    forall u | u != caller ensures FindProfile(UpsertProfile(rows, row), u) == FindProfile(rows, u) {
      UpsertLeavesOthers(rows, row, u);
    }
    if FindProfile(rows, caller).Some? {
      st.userProfiles := seq(|rows|, i requires 0 <= i < |rows| => if rows[i].userId == caller then row else rows[i]);
    } else {
      st.userProfiles := rows + [row];
    }
    r := Ok("Profil başarıyla güncellendi");
  }

  // ----- community recommendations -----

  /**
   * `up.occupation = ? OR (up.is_student = 1 AND ? = 1)`: the same occupation (SQL's NULL equals
   * nothing, so a missing occupation matches nobody), or both are students.
   */
  predicate Matches(p: UserProfile, target: UserProfile) {
    (p.occupation.Some? && p.occupation == target.occupation) || (p.isStudent == 1 && target.isStudent == 1)
  }

  /** The owner of a subscription joins a profile that matches. */
  predicate InCommunity(profiles: seq<UserProfile>, uid: int, target: UserProfile) {
    FindProfile(profiles, uid).Some? && Matches(FindProfile(profiles, uid).value, target)
  }

  /** The subscriptions of the join `subscriptions s JOIN user_profiles up ON s.user_id = up.user_id WHERE …`. */
  function CommunitySubs(subs: seq<Subscription>, profiles: seq<UserProfile>, target: UserProfile): (r: seq<Subscription>)
    ensures forall s :: s in r ==> s in subs && InCommunity(profiles, s.userId, target)
    ensures forall s :: s in subs && InCommunity(profiles, s.userId, target) ==> s in r
    ensures (forall s :: s in subs ==> !InCommunity(profiles, s.userId, target)) ==> r == []
  {
    var p := (s: Subscription) => InCommunity(profiles, s.userId, target);
    var r := Where(subs, p);
    assert (forall s :: s in subs ==> !p(s)) ==> r == [] by {
      if forall s :: s in subs ==> !p(s) {
        forall i | 0 <= i < |subs| ensures !p(subs[i]) {
          assert subs[i] in subs;
        }
        WhereNone(subs, p);
      }
    }
    assert forall s :: s in subs && p(s) ==> s in r by {
      forall s | s in subs && p(s) ensures s in r {
        var i :| 0 <= i < |subs| && subs[i] == s;
      }
    }
    r
  }

  /** `GROUP BY s.name, s.category, s.currency`. */
  function KeyOf(s: Subscription): (string, string, string) {
    (s.name, s.category, s.currency)
  }

  /** `COUNT(DISTINCT s.user_id)`. */
  function DistinctUsers(members: seq<Subscription>): (n: nat)
    ensures members != [] ==> n >= 1
    ensures n <= |members|
  {
    var ids := set s | s in members :: s.userId;
    assert members != [] ==> members[0].userId in ids;
    UserIdsBound(members);
    |ids|
  }

  lemma {:induction false} UserIdsBound(members: seq<Subscription>)
    ensures |set s | s in members :: s.userId| <= |members|
  {
    if members != [] {
      var rest := members[1..];
      UserIdsBound(rest);
      assert (set s | s in members :: s.userId) == (set s | s in rest :: s.userId) + {members[0].userId} by {
        forall s | s in members ensures s == members[0] || s in rest {
          var i :| 0 <= i < |members| && members[i] == s;
          if i > 0 {
            assert rest[i - 1] == s;
          }
        }
      }
    }
  }

  /** `AVG(s.price)` over a group. */
  function AveragePrice(members: seq<Subscription>): real {
    if members == [] then 0.0 else SumOver(members, PriceOf) / (|members| as real)
  }

  datatype CommunityRow = CommunityRow(subscriptionName: string, category: string, userCount: nat, avgPrice: real, currency: string)

  function RowOfGroup(g: Group<(string, string, string), Subscription>): CommunityRow {
    CommunityRow(g.key.0, g.key.1, DistinctUsers(g.members), AveragePrice(g.members), g.key.2)
  }

  function CommunityRows(subs: seq<Subscription>): (rows: seq<CommunityRow>)
    ensures |rows| == |GroupBy(subs, KeyOf)|
    ensures forall i :: 0 <= i < |rows| ==> rows[i] == RowOfGroup(GroupBy(subs, KeyOf)[i])
  {
    var gs := GroupBy(subs, KeyOf);
    seq(|gs|, i requires 0 <= i < |gs| => RowOfGroup(gs[i]))
  }

  function UserCountKey(r: CommunityRow): real {
    r.userCount as real
  }

  /** The `target_group` field: absent without a profile; 'Öğrenciler' for a student, else the occupation (possibly null). */
  datatype TargetGroup = NoTarget | Target(name: Option<string>)

  datatype Recommendations = Recommendations(rows: seq<CommunityRow>, targetGroup: TargetGroup)

  /** The ten rows shown for a profile. */
  function CommunityFor(st: Store, p: UserProfile): seq<CommunityRow>
    reads st
  {
    Take(SortDesc(CommunityRows(CommunitySubs(st.subscriptions, st.userProfiles, p)), UserCountKey), COMMUNITY_LIMIT)
  }

  /**
   * GET /community: nothing, and no target group, without a profile; otherwise at most ten
   * (name, category, currency) groups of the community's subscriptions, most users first.
   */
  function Community(st: Store, caller: int): (r: Response<Recommendations>)
    reads st
    ensures r.IsOk()
    ensures FindProfile(st.userProfiles, caller).None? ==> r.body.value == Recommendations([], NoTarget)
    ensures FindProfile(st.userProfiles, caller).Some? ==>
      var p := FindProfile(st.userProfiles, caller).value;
      && r.body.value.targetGroup == Target(if p.isStudent != 0 then Some(STUDENTS) else p.occupation)
      && |r.body.value.rows| <= COMMUNITY_LIMIT
      && SortedDesc(r.body.value.rows, UserCountKey)
      && r.body.value.rows == CommunityFor(st, p)
  {
    match FindProfile(st.userProfiles, caller)
    case None => Ok(Recommendations([], NoTarget))
    case Some(p) =>
      var sorted := SortDesc(CommunityRows(CommunitySubs(st.subscriptions, st.userProfiles, p)), UserCountKey);
      SortedPage(sorted, UserCountKey, 0, COMMUNITY_LIMIT);
      assert Drop(sorted, 0) == sorted;
      Ok(Recommendations(Take(sorted, COMMUNITY_LIMIT), Target(if Truthy(p.isStudent) then Some(STUDENTS) else p.occupation)))
  }

  /**
   * Each row is one (name, category, currency) group of the community's subscriptions: no two rows
   * share a group, and a row counts the distinct owners of exactly that group's subscriptions.
   */
  lemma CommunityRowsExact(subs: seq<Subscription>)
    ensures forall i :: 0 <= i < |CommunityRows(subs)| ==>
      var row := CommunityRows(subs)[i];
      && row.userCount == DistinctUsers(WithKey(subs, KeyOf, (row.subscriptionName, row.category, row.currency)))
      && row.userCount >= 1
    ensures forall i, j :: 0 <= i < j < |CommunityRows(subs)| ==>
      KeyOf'(CommunityRows(subs)[i]) != KeyOf'(CommunityRows(subs)[j])
  {
    GroupByCorrect(subs, KeyOf);
  }

  function KeyOf'(r: CommunityRow): (string, string, string) {
    (r.subscriptionName, r.category, r.currency)
  }

  /** No group left out of the ten has more users than a group shown. */
  lemma CommunityIsTop(rows: seq<CommunityRow>)
    ensures forall x, y ::
      (x in Take(SortDesc(rows, UserCountKey), COMMUNITY_LIMIT) && y in rows
       && y !in Take(SortDesc(rows, UserCountKey), COMMUNITY_LIMIT)) ==>
        x.userCount >= y.userCount
  {
    var shown := Take(SortDesc(rows, UserCountKey), COMMUNITY_LIMIT);
    TopElements(rows, UserCountKey, COMMUNITY_LIMIT);
    forall x, y | x in shown && y in rows && y !in shown ensures x.userCount >= y.userCount {
      assert UserCountKey(x) >= UserCountKey(y);
    }
  }

  /** A student sees the subscriptions of every student with a profile, whatever their occupation. */
  lemma StudentsSeeStudents(st: Store, p: UserProfile, s: Subscription)
    requires p.isStudent == 1
    requires s in st.subscriptions
    requires FindProfile(st.userProfiles, s.userId).Some? && FindProfile(st.userProfiles, s.userId).value.isStudent == 1
    ensures s in CommunitySubs(st.subscriptions, st.userProfiles, p)
  {
    assert InCommunity(st.userProfiles, s.userId, p);
  }

  /**
   * A caller who is not a student and has no occupation gets no rows: `occupation = NULL` is never
   * true in SQL, not even for the caller's own row.
   */
  lemma NoOccupationNoRows(st: Store, caller: int)
    requires FindProfile(st.userProfiles, caller).Some?
    requires FindProfile(st.userProfiles, caller).value.occupation.None?
    requires FindProfile(st.userProfiles, caller).value.isStudent != 1
    ensures Community(st, caller).body.value.rows == []
  {
    var p := FindProfile(st.userProfiles, caller).value;
    forall s | s in st.subscriptions ensures !InCommunity(st.userProfiles, s.userId, p) {
      if FindProfile(st.userProfiles, s.userId).Some? {
        var q := FindProfile(st.userProfiles, s.userId).value;
        assert !Matches(q, p);
      }
    }
    assert CommunitySubs(st.subscriptions, st.userProfiles, p) == [];
  }

  // ----- occupations -----

  datatype Occupation = Occupation(id: string, name: string, icon: string)

  /** GET /occupations: the fixed list, 'student' first and 'other' last, every id once. */
  function Occupations(): (r: seq<Occupation>)
    ensures |r| == 5 && r[0].id == "student" && r[4].id == "other"
    ensures forall i, j :: 0 <= i < j < |r| ==> r[i].id != r[j].id
  {
    [ Occupation("student", "Öğrenci", "🎓"),
      Occupation("developer", "Yazılım Geliştirici", "💻"),
      Occupation("designer", "Grafik Tasarımcı", "🎨"),
      Occupation("marketer", "Pazarlamacı", "📊"),
      Occupation("other", "Diğer", "👤") ]
  }
}
