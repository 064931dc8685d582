/**
 * The relational store behind the REST API, one sequence per table, and the predicates several
 * routes share. Timestamps are milliseconds since the epoch; calendar dates (the `DATE` columns and
 * the `YYYY-MM-DD` strings the clients exchange) are day numbers since the epoch, in UTC.
 */
module Domain {
  import opened Wrappers

  type Time = int
  type Day = int

  const MS_PER_DAY: int := 86_400_000

  /** The UTC calendar day of an instant, as `DATE(ts)` and `toISOString().split('T')[0]` give it. */
  function DayOf(t: Time): Day {
    t / MS_PER_DAY
  }

  /** `flag ? 1 : 0`, how the routes store booleans. */
  function Bit(b: bool): (i: int)
    ensures i == 0 || i == 1
    ensures i == 1 <==> b
  {
    if b then 1 else 0
  }

  /** JavaScript truthiness of a stored integer flag. */
  predicate Truthy(i: int) {
    i != 0
  }

  datatype User = User(
    id: int,
    email: string,
    passwordHash: string,
    name: string,
    isPremium: bool,
    premiumExpiresAt: Option<Time>,
    inviteToken: Option<string>,
    createdAt: Time)

  datatype Subscription = Subscription(
    id: int,
    userId: int,
    name: string,
    price: real,
    currency: string,
    category: string,
    color: string,
    billingCycle: string,
    nextBillingDate: Option<Day>,
    lastUsed: Option<Time>,
    isPrivate: bool,
    createdAt: Time)

  datatype UsageLog = UsageLog(id: int, subscriptionId: int, usedAt: Time, createdAt: Time)

  datatype PriceChange = PriceChange(id: int, subscriptionId: int, oldPrice: real, newPrice: real, changeDate: Time)

  datatype Activity = Activity(
    id: int,
    userId: int,
    activityType: string,
    subscriptionId: int,
    subscriptionName: string,
    subscriptionPrice: real,
    subscriptionCurrency: string,
    createdAt: Time)

  datatype Friendship = Friendship(userId: int, friendId: int, createdAt: Time)

  datatype RequestStatus = Pending | Accepted | Rejected

  datatype FriendRequest = FriendRequest(id: int, fromUserId: int, toUserId: int, status: RequestStatus, createdAt: Time)

  datatype PrivacySettings = PrivacySettings(
    userId: int,
    profilePublic: int,
    showSubscriptions: int,
    showSpending: int,
    allowFriendRequests: int)

  datatype ConsentRow = ConsentRow(userId: int, analyticsConsent: int)

  datatype UserProfile = UserProfile(userId: int, occupation: Option<string>, isStudent: int, interests: Option<string>)

  datatype Featured = Featured(
    id: int,
    serviceName: string,
    isActive: int,
    weekStart: Day,
    weekEnd: Day,
    impressionPayment: real,
    totalImpressions: nat,
    clickCount: nat)

  datatype Impression = Impression(id: int, featuredId: int, userId: int, createdAt: Time)

  datatype PremiumRecord = PremiumRecord(id: int, userId: int, planType: string, startDate: Time, endDate: Time, status: string)

  /**
   * Premium is active when the flag is set and the expiry is either unset or still ahead of `now`
   * (server/routes/subscriptions.js and server/routes/premium.js use the same test).
   */
  predicate PremiumActive(u: User, now: Time) {
    u.isPremium && (u.premiumExpiresAt == None || u.premiumExpiresAt.value > now)
  }

  /** PostgreSQL's test: `last_used IS NULL OR last_used < NOW() - INTERVAL '30 days'`. */
  predicate UnderusedPg(s: Subscription, now: Time) {
    s.lastUsed == None || s.lastUsed.value < now - 30 * MS_PER_DAY
  }

  /** SQLite's test: `last_used IS NULL OR julianday('now') - julianday(last_used) > 30`, in fractional days. */
  predicate UnderusedSqlite(s: Subscription, now: Time) {
    s.lastUsed == None || (now - s.lastUsed.value) as real / MS_PER_DAY as real > 30.0
  }

  /** The two dialects encode the same predicate. */
  lemma UnderusedDialectsAgree(s: Subscription, now: Time)
    ensures UnderusedPg(s, now) <==> UnderusedSqlite(s, now)
  {
    if s.lastUsed.Some? {
      var d := (now - s.lastUsed.value) as real;
      var m := MS_PER_DAY as real;
      assert d / m > 30.0 <==> d > 30.0 * m by {
        assert d == (d / m) * m;
      }
    }
  }

  // ----- table queries shared by several routes -----

  function FindUser(users: seq<User>, id: int): (r: Option<User>)
    ensures r.Some? ==> r.value in users && r.value.id == id
    ensures r.None? ==> forall i :: 0 <= i < |users| ==> users[i].id != id
  {
    if users == [] then None
    else if users[0].id == id then Some(users[0])
    else FindUser(users[1..], id)
  }

  /** `WHERE user_id = ?` on subscriptions, in table order. */
  function SubsOf(subs: seq<Subscription>, uid: int): (r: seq<Subscription>)
    ensures |r| <= |subs|
    ensures forall x :: x in r <==> x in subs && x.userId == uid
  {
    if subs == [] then []
    else (if subs[0].userId == uid then [subs[0]] else []) + SubsOf(subs[1..], uid)
  }

  /** `WHERE id = ? AND user_id = ?`: the caller's own subscription with that id. */
  function OwnedSub(subs: seq<Subscription>, id: int, uid: int): (r: Option<Subscription>)
    ensures r.Some? ==> r.value in subs && r.value.id == id && r.value.userId == uid
    ensures r.None? ==> forall i :: 0 <= i < |subs| ==> !(subs[i].id == id && subs[i].userId == uid)
  {
    if subs == [] then None
    else if subs[0].id == id && subs[0].userId == uid then Some(subs[0])
    else OwnedSub(subs[1..], id, uid)
  }

  lemma {:induction false} SubsOfAppend(subs: seq<Subscription>, x: Subscription, uid: int)
    ensures SubsOf(subs + [x], uid) == SubsOf(subs, uid) + (if x.userId == uid then [x] else [])
  {
    if subs == [] {
      assert subs + [x] == [x];
    } else {
      assert (subs + [x])[1..] == subs[1..] + [x];
      SubsOfAppend(subs[1..], x, uid);
    }
  }

  /** The feed entry announcing a newly added subscription. */
  function AddedEntry(id: int, s: Subscription): (a: Activity)
    ensures a.userId == s.userId && a.subscriptionId == s.id && a.activityType == "subscription_added"
  {
    Activity(id, s.userId, "subscription_added", s.id, s.name, s.price, s.currency, s.createdAt)
  }

  /** A friends row `(a, b)` exists. */
  predicate HasFriendRow(friends: seq<Friendship>, a: int, b: int) {
    exists i :: 0 <= i < |friends| && friends[i].userId == a && friends[i].friendId == b
  }

  /** Some request joins `a` and `b`, in either direction and whatever its status. */
  predicate HasRequestBetween(reqs: seq<FriendRequest>, a: int, b: int) {
    exists i :: 0 <= i < |reqs| && RequestJoins(reqs[i], a, b)
  }

  predicate RequestJoins(r: FriendRequest, a: int, b: int) {
    (r.fromUserId == a && r.toUserId == b) || (r.fromUserId == b && r.toUserId == a)
  }

  // ----- the invariant the routes keep -----

  predicate UniqueUserIds(users: seq<User>) {
    forall i, j :: 0 <= i < j < |users| ==> users[i].id != users[j].id
  }

  predicate UniqueEmails(users: seq<User>) {
    forall i, j :: 0 <= i < j < |users| ==> users[i].email != users[j].email
  }

  predicate UniqueSubIds(subs: seq<Subscription>) {
    forall i, j :: 0 <= i < j < |subs| ==> subs[i].id != subs[j].id
  }

  predicate UniqueRequestIds(reqs: seq<FriendRequest>) {
    forall i, j :: 0 <= i < j < |reqs| ==> reqs[i].id != reqs[j].id
  }

  predicate UniqueFeaturedIds(fs: seq<Featured>) {
    forall i, j :: 0 <= i < j < |fs| ==> fs[i].id != fs[j].id
  }

  /** Friends rows come in mirrored pairs, never pair a user with themself, and are not repeated. */
  predicate FriendsWellFormed(friends: seq<Friendship>) {
    && (forall i :: 0 <= i < |friends| ==> friends[i].userId != friends[i].friendId)
    && (forall i :: 0 <= i < |friends| ==> HasFriendRow(friends, friends[i].friendId, friends[i].userId))
    && (forall i, j :: 0 <= i < j < |friends| ==>
          !(friends[i].userId == friends[j].userId && friends[i].friendId == friends[j].friendId))
  }

  /**
   * At most one request joins any two users, nobody has a request to themself, and a pending
   * request never joins two users who are already friends.
   */
  predicate RequestsWellFormed(reqs: seq<FriendRequest>, friends: seq<Friendship>) {
    && (forall i :: 0 <= i < |reqs| ==> reqs[i].fromUserId != reqs[i].toUserId)
    && (forall i, j :: 0 <= i < j < |reqs| ==> !RequestJoins(reqs[j], reqs[i].fromUserId, reqs[i].toUserId))
    && (forall i :: 0 <= i < |reqs| && reqs[i].status == Pending ==>
          !HasFriendRow(friends, reqs[i].fromUserId, reqs[i].toUserId))
  }

  predicate OneSettingsRowPerUser(rows: seq<PrivacySettings>) {
    forall i, j :: 0 <= i < j < |rows| ==> rows[i].userId != rows[j].userId
  }

  predicate OneConsentRowPerUser(rows: seq<ConsentRow>) {
    forall i, j :: 0 <= i < j < |rows| ==> rows[i].userId != rows[j].userId
  }

  predicate OneProfilePerUser(rows: seq<UserProfile>) {
    forall i, j :: 0 <= i < j < |rows| ==> rows[i].userId != rows[j].userId
  }

  /** The database: one sequence per table, in insertion order, and the source of fresh row ids. */
  class Store {
    var users: seq<User>
    var subscriptions: seq<Subscription>
    var usageLogs: seq<UsageLog>
    var priceHistory: seq<PriceChange>
    var activityFeed: seq<Activity>
    var friends: seq<Friendship>
    var friendRequests: seq<FriendRequest>
    var userSettings: seq<PrivacySettings>
    var userConsent: seq<ConsentRow>
    var userProfiles: seq<UserProfile>
    var weeklyFeatured: seq<Featured>
    var featuredImpressions: seq<Impression>
    var premiumSubscriptions: seq<PremiumRecord>
    var nextId: int

    ghost predicate Valid()
      reads this
    {
      && UniqueUserIds(users) && UniqueEmails(users)
      && UniqueSubIds(subscriptions)
      && (forall i :: 0 <= i < |users| ==> users[i].id < nextId)
      && (forall i :: 0 <= i < |subscriptions| ==> subscriptions[i].id < nextId)
      && (forall i :: 0 <= i < |friendRequests| ==> friendRequests[i].id < nextId)
      && UniqueRequestIds(friendRequests)
      && FriendsWellFormed(friends)
      && RequestsWellFormed(friendRequests, friends)
      && OneSettingsRowPerUser(userSettings)
      && OneConsentRowPerUser(userConsent)
      && OneProfilePerUser(userProfiles)
      && UniqueFeaturedIds(weeklyFeatured)
    }

    /** An empty database. */
    constructor ()
      ensures Valid()
      ensures users == [] && subscriptions == [] && usageLogs == [] && priceHistory == []
      ensures activityFeed == [] && friends == [] && friendRequests == []
      ensures userSettings == [] && userConsent == [] && userProfiles == []
      ensures weeklyFeatured == [] && featuredImpressions == [] && premiumSubscriptions == []
    {
      users := [];
      subscriptions := [];
      usageLogs := [];
      priceHistory := [];
      activityFeed := [];
      friends := [];
      friendRequests := [];
      userSettings := [];
      userConsent := [];
      userProfiles := [];
      weeklyFeatured := [];
      featuredImpressions := [];
      premiumSubscriptions := [];
      nextId := 1;
    }

    /** Hand out a row id never used before. */
    method FreshId() returns (id: int)
      modifies this`nextId
      ensures id == old(nextId) && nextId == id + 1
    {
      id := nextId;
      nextId := nextId + 1;
    }
  }
}
