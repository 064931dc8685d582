/**
 * The `/api/premium` routes of server/routes/premium.js: the status test, the simulated purchase
 * (which sets the flag and the expiry, records the purchase, and adds the plan itself as a tracked
 * subscription with its feed entry) and cancellation.
 */
module PremiumRoutes {
  import opened Wrappers
  import opened Domain
  import opened Http
  import SubscriptionRoutes

  datatype PremiumStatus = PremiumStatus(isPremium: bool, expiresAt: Option<Time>)

  /** GET /status: the active test, and the expiry as stored; a caller whose user row is gone gets 500. */
  function Status(st: Store, caller: int, now: Time): (r: Response<PremiumStatus>)
    reads st
    ensures r.status == 200 || r.status == 500
    ensures r.status == 500 <==> FindUser(st.users, caller).None?
    ensures r.status == 200 ==>
      var u := FindUser(st.users, caller).value;
      r.body.Json? && r.body.value.expiresAt == u.premiumExpiresAt
      && (r.body.value.isPremium <==> u.isPremium && (u.premiumExpiresAt.None? || u.premiumExpiresAt.value > now))
  {
    match FindUser(st.users, caller)
    case None => Fail(500, "Premium durumu kontrol edilemedi")
    case Some(u) => Ok(PremiumStatus(PremiumActive(u, now), u.premiumExpiresAt))
  }

  /** `UPDATE users SET is_premium = ?, premium_expires_at = ? WHERE id = ?`. */
  function SetPremium(users: seq<User>, id: int, flag: bool, expiry: Option<Time>): (r: seq<User>)
    ensures |r| == |users|
    ensures forall i :: 0 <= i < |users| ==>
      r[i] == if users[i].id == id then users[i].(isPremium := flag, premiumExpiresAt := expiry) else users[i]
    ensures forall i :: 0 <= i < |users| ==> r[i].id == users[i].id && r[i].email == users[i].email
  {
    seq(|users|, i requires 0 <= i < |users| =>
      if users[i].id == id then users[i].(isPremium := flag, premiumExpiresAt := expiry) else users[i])
  }

  /** The user row after the update is the old one with the flag and the expiry replaced. */
  lemma FindAfterSetPremium(users: seq<User>, id: int, flag: bool, expiry: Option<Time>)
    ensures FindUser(SetPremium(users, id, flag, expiry), id).Some? <==> FindUser(users, id).Some?
    ensures FindUser(users, id).Some? ==>
      FindUser(SetPremium(users, id, flag, expiry), id).value == FindUser(users, id).value.(isPremium := flag, premiumExpiresAt := expiry)
  {
    if users != [] {
      FindAfterSetPremium(users[1..], id, flag, expiry);
      assert SetPremium(users, id, flag, expiry)[1..] == SetPremium(users[1..], id, flag, expiry);
    }
  }

  predicate ValidPlan(plan: string) {
    plan == "monthly" || plan == "yearly"
  }

  function PlanAmount(plan: string): real {
    if plan == "monthly" then 20.0 else 199.0
  }

  function PlanName(plan: string): string {
    if plan == "monthly" then "Paycal Premium (Aylık)" else "Paycal Premium (Yıllık)"
  }

  /**
   * The tracked subscription a purchase adds: the plan's name and price in lira, category
   * 'Uygulama', a yellow card, billed per plan and next due on the expiry day, used and created now.
   */
  function PlanRow(id: int, caller: int, plan: string, now: Time, expiresAt: Time): Subscription {
    Subscription(id, caller, PlanName(plan), PlanAmount(plan), "₺", "Uygulama", "bg-yellow-500", plan,
      Some(DayOf(expiresAt)), Some(now), false, now)
  }

  datatype Subscribed = Subscribed(expiresAt: Time, plan: string, subscriptionAdded: bool)

  /**
   * POST /subscribe. `expiresAt` is now plus one month (monthly) or one year (yearly), computed
   * by the calendar outside this model; all that matters here is that it lies after `now`.
   * An unknown plan gives 400 and changes nothing. Otherwise the caller's flag and expiry are
   * set, an 'active' purchase row spanning [now, expiry] is recorded, and the plan is added as a
   * tracked subscription (20 or 199 lira, category 'Uygulama', renewing on the expiry's date)
   * together with its feed entry, without the free-tier limit.
   */
  method Subscribe(st: Store, caller: int, now: Time, plan: string, expiresAt: Time) returns (r: Response<Subscribed>)
    requires st.Valid()
    requires now < expiresAt
    modifies st`users, st`premiumSubscriptions, st`subscriptions, st`activityFeed, st`nextId
    ensures st.Valid()
    ensures r.status == 200 || r.status == 400
    ensures r.status == 400 <==> !ValidPlan(plan)
    ensures r.status == 400 ==> r == Fail(400, "Geçersiz plan") && unchanged(st)
    ensures r.status == 200 ==>
      && r == Ok(Subscribed(expiresAt, plan, true))
      && st.users == SetPremium(old(st.users), caller, true, Some(expiresAt))
      && st.premiumSubscriptions == old(st.premiumSubscriptions) + [PremiumRecord(old(st.nextId), caller, plan, now, expiresAt, "active")]
      && st.subscriptions == old(st.subscriptions) + [PlanRow(old(st.nextId) + 1, caller, plan, now, expiresAt)]
      && st.activityFeed == old(st.activityFeed) + [AddedEntry(old(st.nextId) + 2, PlanRow(old(st.nextId) + 1, caller, plan, now, expiresAt))]
    ensures r.status == 200 && FindUser(st.users, caller).Some? ==> PremiumActive(FindUser(st.users, caller).value, now)
  {
    FindAfterSetPremium(st.users, caller, true, Some(expiresAt));
    if !ValidPlan(plan) {
      return Fail(400, "Geçersiz plan");
    }
    RecordPurchase(st, caller, now, plan, expiresAt);
    var req := SubscriptionRoutes.NewSubscription(PlanName(plan), PlanAmount(plan), "₺", "Uygulama", "bg-yellow-500",
      plan, Some(DayOf(expiresAt)), false);
    var s := SubscriptionRoutes.Insert(st, caller, now, req);
    assert s == PlanRow(old(st.nextId) + 1, caller, plan, now, expiresAt);
    r := Ok(Subscribed(expiresAt, plan, true));
  }

  /** The purchase half of POST /subscribe: the caller's flag and expiry, then the 'active' purchase row. */
  method RecordPurchase(st: Store, caller: int, now: Time, plan: string, expiresAt: Time)
    requires st.Valid()
    modifies st`users, st`premiumSubscriptions, st`nextId
    ensures st.Valid()
    ensures st.users == SetPremium(old(st.users), caller, true, Some(expiresAt))
    ensures st.premiumSubscriptions == old(st.premiumSubscriptions) + [PremiumRecord(old(st.nextId), caller, plan, now, expiresAt, "active")]
    ensures st.nextId == old(st.nextId) + 1
  {
    st.users := SetPremium(st.users, caller, true, Some(expiresAt));
    var rid := st.FreshId();
    st.premiumSubscriptions := st.premiumSubscriptions + [PremiumRecord(rid, caller, plan, now, expiresAt, "active")];
  }

  /** POST /cancel: the flag goes off and the expiry is cleared; nothing else changes. */
  method Cancel(st: Store, caller: int) returns (r: Response<()>)
    requires st.Valid()
    modifies st`users
    ensures st.Valid()
    ensures r == Ok(())
    ensures st.users == SetPremium(old(st.users), caller, false, None)
  {
    st.users := SetPremium(st.users, caller, false, None);
    r := Ok(());
  }

  /** After a cancellation the caller is not premium, whatever the time. */
  lemma CancelledIsInactive(users: seq<User>, caller: int, now: Time)
    requires FindUser(users, caller).Some?
    ensures FindUser(SetPremium(users, caller, false, None), caller).Some?
    ensures !PremiumActive(FindUser(SetPremium(users, caller, false, None), caller).value, now)
  {
    FindAfterSetPremium(users, caller, false, None);
  }

  /** A purchase makes the caller premium until the expiry and not after it. */
  lemma SubscribedActiveUntilExpiry(users: seq<User>, caller: int, expiresAt: Time, t: Time)
    requires FindUser(users, caller).Some?
    ensures FindUser(SetPremium(users, caller, true, Some(expiresAt)), caller).Some?
    ensures PremiumActive(FindUser(SetPremium(users, caller, true, Some(expiresAt)), caller).value, t) <==> t < expiresAt
  {
    FindAfterSetPremium(users, caller, true, Some(expiresAt));
  }
}
