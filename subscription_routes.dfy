/**
 * The `/api/subscriptions` routes of server/routes/subscriptions.js: list, read, create (with
 * the free-tier limit, the column defaults and the activity-feed entry), partial update (with the
 * price-history row), delete, and usage logging (with the never-backwards `last_used`).
 */
module SubscriptionRoutes {
  import opened Wrappers
  import opened Strings
  import opened Domain
  import opened Http
  import opened Ordering

  /** How many subscriptions a user without active premium may track. */
  const FREE_TIER_LIMIT: nat := 5

  const LIMIT_ERROR := "Abonelik limiti doldu"
  const LIMIT_MESSAGE := "Ücretsiz kullanıcılar en fazla 5 abonelik takip edebilir. Sınırsız takip için Premium'a geçin."

  /** `s || fallback` on an optional string of the request body; "" stands for both absent and empty. */
  function OrDefault(s: string, fallback: string): (r: string)
    ensures s != "" ==> r == s
    ensures s == "" ==> r == fallback
  {
    if s != "" then s else fallback
  }

  function CreatedKey(s: Subscription): real {
    s.createdAt as real
  }

  /** GET /: the caller's subscriptions, newest first. */
  function List(st: Store, caller: int): (r: Response<seq<Subscription>>)
    reads st
    ensures r.IsOk()
    ensures multiset(r.body.value) == multiset(SubsOf(st.subscriptions, caller))
    ensures forall x :: x in r.body.value <==> x in st.subscriptions && x.userId == caller
    ensures SortedDesc(r.body.value, CreatedKey)
  {
    var rows := SortDesc(SubsOf(st.subscriptions, caller), CreatedKey);
    assert forall x :: x in rows <==> x in multiset(rows);
    Ok(rows)
  }

  /** GET /:id: the caller's own subscription, or 404 for a missing or foreign id. */
  function Get(st: Store, caller: int, id: int): (r: Response<Subscription>)
    reads st
    ensures r.status == 200 || r.status == 404
    ensures r.status == 200 ==>
      r.body.Json? && r.body.value in st.subscriptions && r.body.value.id == id && r.body.value.userId == caller
    ensures r.status == 404 <==> forall i :: 0 <= i < |st.subscriptions| ==>
      !(st.subscriptions[i].id == id && st.subscriptions[i].userId == caller)
  {
    match OwnedSub(st.subscriptions, id, caller)
    case None => Fail(404, "Subscription not found")
    case Some(s) => Ok(s)
  }

  /** The body of POST /; "" and 0.0 stand for absent (falsy) fields. */
  datatype NewSubscription = NewSubscription(
    name: string,
    price: real,
    currency: string,
    category: string,
    color: string,
    billingCycle: string,
    nextBillingDate: Option<Day>,
    isPrivate: bool)

  /** The row POST / inserts: the request's fields, the column defaults, `last_used` and `created_at` now. */
  predicate Inserted(s: Subscription, id: int, caller: int, now: Time, req: NewSubscription) {
    && s.id == id && s.userId == caller
    && s.name == req.name && s.price == req.price
    && s.currency == OrDefault(req.currency, "₺") && s.category == OrDefault(req.category, "Diğer")
    && s.color == OrDefault(req.color, "bg-blue-500") && s.billingCycle == OrDefault(req.billingCycle, "monthly")
    && s.nextBillingDate == req.nextBillingDate && s.lastUsed == Some(now)
    && s.isPrivate == req.isPrivate && s.createdAt == now
  }

  /** The insertion half of POST /: the new row, then the feed entry unless the row is private. */
  method Insert(st: Store, caller: int, now: Time, req: NewSubscription) returns (s: Subscription)
    requires st.Valid()
    modifies st`subscriptions, st`activityFeed, st`nextId
    ensures st.Valid()
    ensures Inserted(s, old(st.nextId), caller, now, req)
    ensures st.subscriptions == old(st.subscriptions) + [s]
    ensures req.isPrivate ==> st.activityFeed == old(st.activityFeed)
    ensures !req.isPrivate ==> st.activityFeed == old(st.activityFeed) + [AddedEntry(old(st.nextId) + 1, s)]
  {
    var id := st.FreshId();
    s := Subscription(id, caller, req.name, req.price, OrDefault(req.currency, "₺"),
      OrDefault(req.category, "Diğer"), OrDefault(req.color, "bg-blue-500"),
      OrDefault(req.billingCycle, "monthly"), req.nextBillingDate, Some(now), req.isPrivate, now);
    st.subscriptions := st.subscriptions + [s];
    if !req.isPrivate {
      var entryId := st.FreshId();
      st.activityFeed := st.activityFeed + [AddedEntry(entryId, s)];
    }
  }

  /** The fields POST / cannot do without: a name, and a price that is neither missing nor zero. */
  predicate MissingField(req: NewSubscription) {
    req.name == "" || req.price == 0.0
  }

  /**
   * POST /. Both a missing name and a missing or zero price give 400. A caller without active
   * premium who already tracks five subscriptions gets 403 with `upgrade_required`. Otherwise one
   * row is inserted with the defaults filled in and `last_used` set to now, and, unless the
   * subscription is private, one 'subscription_added' entry goes to the activity feed.
   * A caller whose user row is gone makes the handler fail with 500.
   */
  method Create(st: Store, caller: int, now: Time, req: NewSubscription) returns (r: Response<Subscription>)
    requires st.Valid()
    modifies st`subscriptions, st`activityFeed, st`nextId
    ensures st.Valid()
    ensures r.status == 201 || r.status == 400 || r.status == 403 || r.status == 500
    ensures r.status == 400 <==> MissingField(req)
    ensures r.status == 400 ==> r == Fail(400, "Name and price are required")
    ensures r.status == 500 <==> r.status != 400 && FindUser(st.users, caller).None?
    ensures r.status == 403 <==>
      r.status !in {400, 500} && !PremiumActive(FindUser(st.users, caller).value, now)
      && |SubsOf(old(st.subscriptions), caller)| >= FREE_TIER_LIMIT
    ensures r.status == 403 ==> r.body == Refusal(LIMIT_ERROR, LIMIT_MESSAGE, true)
    ensures r.status != 201 ==> st.subscriptions == old(st.subscriptions) && st.activityFeed == old(st.activityFeed)
    ensures r.status == 201 ==>
      r.body.Json? && Inserted(r.body.value, old(st.nextId), caller, now, req)
      && st.subscriptions == old(st.subscriptions) + [r.body.value]
      && (req.isPrivate ==> st.activityFeed == old(st.activityFeed))
      && (!req.isPrivate ==> st.activityFeed == old(st.activityFeed) + [AddedEntry(old(st.nextId) + 1, r.body.value)])
    ensures r.status == 201 && !PremiumActive(FindUser(st.users, caller).value, now) ==>
      |SubsOf(st.subscriptions, caller)| <= FREE_TIER_LIMIT
  {
    if MissingField(req) {
      return Fail(400, "Name and price are required");
    }
    var count := |SubsOf(st.subscriptions, caller)|;
    var user := FindUser(st.users, caller);
    if user.None? {
      return Fail(500, "Failed to create subscription");
    }
    if !PremiumActive(user.value, now) && count >= FREE_TIER_LIMIT {
      return Response(403, Refusal(LIMIT_ERROR, LIMIT_MESSAGE, true));
    }
    var s := Insert(st, caller, now, req);
    SubsOfAppend(old(st.subscriptions), s, caller);
    r := Created(s);
  }

  /** The body of PUT /:id; "" and 0.0 and None stand for fields left out (or falsy). */
  datatype Patch = Patch(
    name: string,
    price: real,
    currency: string,
    category: string,
    color: string,
    billingCycle: string,
    nextBillingDate: Option<Day>)

  predicate NoFields(p: Patch) {
    p.name == "" && p.price == 0.0 && p.currency == "" && p.category == "" && p.color == ""
    && p.billingCycle == "" && p.nextBillingDate.None?
  }

  /** The row as the patch leaves it: every field the patch carries is replaced, every other one kept. */
  function Patched(s: Subscription, p: Patch): Subscription {
    s.(name := OrDefault(p.name, s.name),
       price := if p.price != 0.0 then p.price else s.price,
       currency := OrDefault(p.currency, s.currency),
       category := OrDefault(p.category, s.category),
       color := OrDefault(p.color, s.color),
       billingCycle := OrDefault(p.billingCycle, s.billingCycle),
       nextBillingDate := if p.nextBillingDate.Some? then p.nextBillingDate else s.nextBillingDate)
  }

  /** One `column = ?` item of the SET clause, with the value bound to its placeholder. */
  datatype Assignment =
    | SetName(name: string)
    | SetPrice(price: real)
    | SetCurrency(currency: string)
    | SetCategory(category: string)
    | SetColor(color: string)
    | SetBillingCycle(cycle: string)
    | SetNextBillingDate(day: Day)
  {
    function Column(): string {
      match this
      case SetName(_) => "name"
      case SetPrice(_) => "price"
      case SetCurrency(_) => "currency"
      case SetCategory(_) => "category"
      case SetColor(_) => "color"
      case SetBillingCycle(_) => "billing_cycle"
      case SetNextBillingDate(_) => "next_billing_date"
    }
  }

  /** What the database does with one assignment. */
  function Assign(s: Subscription, a: Assignment): Subscription {
    match a
    case SetName(v) => s.(name := v)
    case SetPrice(v) => s.(price := v)
    case SetCurrency(v) => s.(currency := v)
    case SetCategory(v) => s.(category := v)
    case SetColor(v) => s.(color := v)
    case SetBillingCycle(v) => s.(billingCycle := v)
    case SetNextBillingDate(v) => s.(nextBillingDate := Some(v))
  }

  /** The assignments of one UPDATE, applied left to right. */
  function AssignAll(s: Subscription, updates: seq<Assignment>): Subscription {
    if updates == [] then s else Assign(AssignAll(s, updates[..|updates| - 1]), updates[|updates| - 1])
  }

  lemma {:induction false} AssignAllAppend(s: Subscription, u: seq<Assignment>, v: seq<Assignment>)
    ensures AssignAll(s, u + v) == AssignAll(AssignAll(s, u), v)
  {
    if v == [] {
      assert u + v == u;
    } else {
      assert (u + v)[..|u + v| - 1] == u + v[..|v| - 1];
      AssignAllAppend(s, u, v[..|v| - 1]);
    }
  }

  /** The single push `if (field) { updates.push(...) }`. */
  function PushIf(c: bool, a: Assignment): seq<Assignment> {
    if c then [a] else []
  }

  lemma AssignPushIf(s: Subscription, c: bool, a: Assignment)
    ensures AssignAll(s, PushIf(c, a)) == if c then Assign(s, a) else s
  {
    if c {
      assert [a][..0] == [];
    }
  }

  /** The fields the patch carries, in the order the handler pushes them. */
  function Assignments(p: Patch): seq<Assignment> {
    PushIf(p.name != "", SetName(p.name))
    + PushIf(p.price != 0.0, SetPrice(p.price))
    + PushIf(p.currency != "", SetCurrency(p.currency))
    + PushIf(p.category != "", SetCategory(p.category))
    + PushIf(p.color != "", SetColor(p.color))
    + PushIf(p.billingCycle != "", SetBillingCycle(p.billingCycle))
    + PushIf(p.nextBillingDate.Some?, SetNextBillingDate(p.nextBillingDate.GetOr(0)))
  }

  /** Running the pushed assignments on a row gives the patched row: every carried field set, the rest kept. */
  lemma AssignmentsPatch(s: Subscription, p: Patch)
    ensures AssignAll(s, Assignments(p)) == Patched(s, p)
  {
    var o1 := PushIf(p.name != "", SetName(p.name));
    var o2 := PushIf(p.price != 0.0, SetPrice(p.price));
    var o3 := PushIf(p.currency != "", SetCurrency(p.currency));
    var o4 := PushIf(p.category != "", SetCategory(p.category));
    var o5 := PushIf(p.color != "", SetColor(p.color));
    var o6 := PushIf(p.billingCycle != "", SetBillingCycle(p.billingCycle));
    var o7 := PushIf(p.nextBillingDate.Some?, SetNextBillingDate(p.nextBillingDate.GetOr(0)));
    AssignAllAppend(s, o1, o2);
    AssignAllAppend(s, o1 + o2, o3);
    AssignAllAppend(s, o1 + o2 + o3, o4);
    AssignAllAppend(s, o1 + o2 + o3 + o4, o5);
    AssignAllAppend(s, o1 + o2 + o3 + o4 + o5, o6);
    AssignAllAppend(s, o1 + o2 + o3 + o4 + o5 + o6, o7);
    PatchSteps(s, p);
  }

  /** The pushes one at a time: each sets its own field when the patch carries it. */
  lemma PatchSteps(s: Subscription, p: Patch)
    ensures AssignAll(AssignAll(AssignAll(AssignAll(AssignAll(AssignAll(AssignAll(s,
      PushIf(p.name != "", SetName(p.name))),
      PushIf(p.price != 0.0, SetPrice(p.price))),
      PushIf(p.currency != "", SetCurrency(p.currency))),
      PushIf(p.category != "", SetCategory(p.category))),
      PushIf(p.color != "", SetColor(p.color))),
      PushIf(p.billingCycle != "", SetBillingCycle(p.billingCycle))),
      PushIf(p.nextBillingDate.Some?, SetNextBillingDate(p.nextBillingDate.GetOr(0)))) == Patched(s, p)
  {
    var t1 := AssignAll(s, PushIf(p.name != "", SetName(p.name)));
    AssignPushIf(s, p.name != "", SetName(p.name));
    PatchRest(t1, s, p);
  }

  lemma PatchRest(t1: Subscription, s: Subscription, p: Patch)
    requires t1 == s.(name := OrDefault(p.name, s.name))
    ensures AssignAll(AssignAll(AssignAll(AssignAll(AssignAll(AssignAll(t1,
      PushIf(p.price != 0.0, SetPrice(p.price))),
      PushIf(p.currency != "", SetCurrency(p.currency))),
      PushIf(p.category != "", SetCategory(p.category))),
      PushIf(p.color != "", SetColor(p.color))),
      PushIf(p.billingCycle != "", SetBillingCycle(p.billingCycle))),
      PushIf(p.nextBillingDate.Some?, SetNextBillingDate(p.nextBillingDate.GetOr(0)))) == Patched(s, p)
  {
    var t2 := AssignAll(t1, PushIf(p.price != 0.0, SetPrice(p.price)));
    AssignPushIf(t1, p.price != 0.0, SetPrice(p.price));
    var t3 := AssignAll(t2, PushIf(p.currency != "", SetCurrency(p.currency)));
    AssignPushIf(t2, p.currency != "", SetCurrency(p.currency));
    PatchTail(t3, s, p);
  }

  lemma PatchTail(t3: Subscription, s: Subscription, p: Patch)
    requires t3 == s.(name := OrDefault(p.name, s.name), price := if p.price != 0.0 then p.price else s.price,
      currency := OrDefault(p.currency, s.currency))
    ensures AssignAll(AssignAll(AssignAll(AssignAll(t3,
      PushIf(p.category != "", SetCategory(p.category))),
      PushIf(p.color != "", SetColor(p.color))),
      PushIf(p.billingCycle != "", SetBillingCycle(p.billingCycle))),
      PushIf(p.nextBillingDate.Some?, SetNextBillingDate(p.nextBillingDate.GetOr(0)))) == Patched(s, p)
  {
    var t4 := AssignAll(t3, PushIf(p.category != "", SetCategory(p.category)));
    AssignPushIf(t3, p.category != "", SetCategory(p.category));
    var t5 := AssignAll(t4, PushIf(p.color != "", SetColor(p.color)));
    AssignPushIf(t4, p.color != "", SetColor(p.color));
    var t6 := AssignAll(t5, PushIf(p.billingCycle != "", SetBillingCycle(p.billingCycle)));
    AssignPushIf(t5, p.billingCycle != "", SetBillingCycle(p.billingCycle));
    AssignPushIf(t6, p.nextBillingDate.Some?, SetNextBillingDate(p.nextBillingDate.GetOr(0)));
  }

  /** No assignment is pushed exactly when the patch carries no field. */
  lemma AssignmentsEmpty(p: Patch)
    ensures Assignments(p) == [] <==> NoFields(p)
    ensures |Assignments(p)| <= 7
  {
  }

  /** `if (field) { updates.push('column = ?'); values.push(field); }` */
  method PushWhen(updates: seq<Assignment>, present: bool, a: Assignment) returns (u: seq<Assignment>)
    ensures u == updates + PushIf(present, a)
    ensures present ==> u == updates + [a]
    ensures !present ==> u == updates
  {
    u := updates;
    if present {
      u := u + [a];
    }
  }

  /**
   * The `updates`/`values` lists of PUT /:id, pushed one field at a time in column order. Running
   * them on any row gives the patched row, and they are empty exactly when the patch carries nothing.
   */
  method CollectAssignments(p: Patch) returns (updates: seq<Assignment>)
    ensures updates == Assignments(p)
    ensures updates == [] <==> NoFields(p)
    ensures forall s :: AssignAll(s, updates) == Patched(s, p)
  {
    updates := [];
    updates := PushWhen(updates, p.name != "", SetName(p.name));
    assert updates == PushIf(p.name != "", SetName(p.name));
    updates := PushWhen(updates, p.price != 0.0, SetPrice(p.price));
    updates := PushWhen(updates, p.currency != "", SetCurrency(p.currency));
    updates := PushWhen(updates, p.category != "", SetCategory(p.category));
    updates := PushWhen(updates, p.color != "", SetColor(p.color));
    updates := PushWhen(updates, p.billingCycle != "", SetBillingCycle(p.billingCycle));
    updates := PushWhen(updates, p.nextBillingDate.Some?, SetNextBillingDate(p.nextBillingDate.GetOr(0)));
    assert updates == Assignments(p);
    AssignmentsEmpty(p);
    forall s ensures AssignAll(s, updates) == Patched(s, p) {
      AssignmentsPatch(s, p);
    }
  }

  /** One item of the SET clause. */
  function Item(a: Assignment): string {
    a.Column() + " = " + "?"
  }

  lemma ItemPlaceholders(a: Assignment)
    ensures CountChar(Item(a), '?') == 1
  {
    var lhs := a.Column() + " = ";
    assert '?' !in lhs;
    CountCharZero(lhs, '?');
    CountCharAppend(lhs, "?", '?');
  }

  /** The SET clause: the items joined with ", ". */
  function SetClause(updates: seq<Assignment>): string {
    if updates == [] then ""
    else if |updates| == 1 then Item(updates[0])
    else Item(updates[0]) + ", " + SetClause(updates[1..])
  }

  lemma {:induction false} SetClausePlaceholders(updates: seq<Assignment>)
    ensures CountChar(SetClause(updates), '?') == |updates|
  {
    if |updates| >= 1 {
      ItemPlaceholders(updates[0]);
    }
    if |updates| > 1 {
      var head := Item(updates[0]) + ", ";
      CountCharAppend(Item(updates[0]), ", ", '?');
      CountCharZero(", ", '?');
      CountCharAppend(head, SetClause(updates[1..]), '?');
      SetClausePlaceholders(updates[1..]);
    }
  }

  /** The UPDATE statement PUT /:id sends. */
  function UpdateStatement(updates: seq<Assignment>): string {
    "UPDATE subscriptions SET " + SetClause(updates) + " WHERE id = " + "?" + " AND user_id = " + "?"
  }

  /**
   * The statement carries one placeholder per value bound to it: one per assignment, then the
   * subscription id and the caller's id. So the `$1 … $n` of the PostgreSQL rewrite line up with
   * the value list.
   */
  lemma UpdateStatementArity(updates: seq<Assignment>)
    ensures CountChar(UpdateStatement(updates), '?') == |updates| + 2
  {
    SetClausePlaceholders(updates);
    TwoMoreMarks("UPDATE subscriptions SET ", SetClause(updates), " WHERE id = ", " AND user_id = ");
  }

  lemma TwoMoreMarks(head: string, mid: string, w: string, a: string)
    requires '?' !in head && '?' !in w && '?' !in a
    ensures CountChar(head + mid + w + "?" + a + "?", '?') == CountChar(mid, '?') + 2
  {
    CountCharZero(head, '?');
    CountCharZero(w, '?');
    CountCharZero(a, '?');
    CountCharAppend(head, mid, '?');
    CountCharAppend(head + mid, w, '?');
    CountCharAppend(head + mid + w, "?", '?');
    CountCharAppend(head + mid + w + "?", a, '?');
    CountCharAppend(head + mid + w + "?" + a, "?", '?');
  }

  /** `UPDATE subscriptions SET … WHERE id = ? AND user_id = ?`. */
  function PatchRows(subs: seq<Subscription>, id: int, uid: int, p: Patch): (r: seq<Subscription>)
    ensures |r| == |subs|
    ensures forall i :: 0 <= i < |subs| ==>
      r[i] == (if subs[i].id == id && subs[i].userId == uid then Patched(subs[i], p) else subs[i])
    ensures forall i :: 0 <= i < |subs| ==> r[i].id == subs[i].id && r[i].userId == subs[i].userId
  {
    seq(|subs|, i requires 0 <= i < |subs| => if subs[i].id == id && subs[i].userId == uid then Patched(subs[i], p) else subs[i])
  }

  /** A present price that differs from the stored one adds one `price_history` row (old, new). */
  method RecordPriceChange(st: Store, s: Subscription, p: Patch, now: Time)
    requires st.Valid()
    modifies st`priceHistory, st`nextId
    ensures st.Valid()
    ensures p.price != 0.0 && p.price != s.price ==>
      st.priceHistory == old(st.priceHistory) + [PriceChange(old(st.nextId), s.id, s.price, p.price, now)]
    ensures !(p.price != 0.0 && p.price != s.price) ==> st.priceHistory == old(st.priceHistory)
  {
    if p.price != 0.0 && p.price != s.price {
      var hid := st.FreshId();
      st.priceHistory := st.priceHistory + [PriceChange(hid, s.id, s.price, p.price, now)];
    }
  }

  /** The UPDATE itself: the caller's row with that id takes the fields the patch carries. */
  method ApplyPatch(st: Store, caller: int, id: int, p: Patch)
    requires st.Valid()
    modifies st`subscriptions
    ensures st.Valid()
    ensures st.subscriptions == PatchRows(old(st.subscriptions), id, caller, p)
  {
    st.subscriptions := PatchRows(st.subscriptions, id, caller, p);
  }

  /**
   * PUT /:id. A missing or foreign id gives 404 and changes nothing. A price that is present and
   * differs from the stored one records one price-history row (old, new). A patch with no fields
   * gives 400 (a patch without fields carries no price, so no history row either); otherwise the
   * fields present are written and the updated row is returned.
   */
  method Update(st: Store, caller: int, now: Time, id: int, p: Patch) returns (r: Response<Subscription>)
    requires st.Valid()
    modifies st`subscriptions, st`priceHistory, st`nextId
    ensures st.Valid()
    ensures r.status == 200 || r.status == 400 || r.status == 404
    ensures r.status == 404 <==> OwnedSub(old(st.subscriptions), id, caller).None?
    ensures r.status == 400 <==> r.status != 404 && NoFields(p)
    ensures r.status != 200 ==> st.subscriptions == old(st.subscriptions) && st.priceHistory == old(st.priceHistory)
    ensures r.status == 200 ==>
      var s := OwnedSub(old(st.subscriptions), id, caller).value;
      && st.subscriptions == PatchRows(old(st.subscriptions), id, caller, p)
      && r.body == Json(Patched(s, p))
      && st.priceHistory == old(st.priceHistory)
           + (if p.price != 0.0 && p.price != s.price then [PriceChange(old(st.nextId), id, s.price, p.price, now)] else [])
  {
    var found := OwnedSub(st.subscriptions, id, caller);
    if found.None? {
      return Fail(404, "Subscription not found");
    }
    r := UpdateFound(st, found.value, caller, now, id, p);
  }

  /** PUT /:id once the caller's row `s` is found: the price history, then the 400 or the UPDATE. */
  method UpdateFound(st: Store, s: Subscription, caller: int, now: Time, id: int, p: Patch) returns (r: Response<Subscription>)
    requires st.Valid()
    requires s.id == id
    modifies st`subscriptions, st`priceHistory, st`nextId
    ensures st.Valid()
    ensures r.status == 200 || r.status == 400
    ensures r.status == 400 <==> NoFields(p)
    ensures r.status == 400 ==> st.subscriptions == old(st.subscriptions) && st.priceHistory == old(st.priceHistory)
    ensures r.status == 200 ==>
      && st.subscriptions == PatchRows(old(st.subscriptions), id, caller, p)
      && r.body == Json(Patched(s, p))
      && st.priceHistory == old(st.priceHistory)
           + (if p.price != 0.0 && p.price != s.price then [PriceChange(old(st.nextId), id, s.price, p.price, now)] else [])
  {
    RecordPriceChange(st, s, p, now);
    var updates := CollectAssignments(p);
    if |updates| == 0 {
      return Fail(400, "No fields to update");
    }
    ApplyPatch(st, caller, id, p);
    assert AssignAll(s, updates) == Patched(s, p);
    r := Ok(AssignAll(s, updates));
  }

  /** `DELETE FROM subscriptions WHERE id = ? AND user_id = ?`. */
  function RemoveOwned(subs: seq<Subscription>, id: int, uid: int): (r: seq<Subscription>)
    ensures |r| <= |subs|
    ensures forall x :: x in r <==> x in subs && !(x.id == id && x.userId == uid)
    ensures |r| == |subs| <==> OwnedSub(subs, id, uid).None?
  {
    if subs == [] then []
    else if subs[0].id == id && subs[0].userId == uid then RemoveOwned(subs[1..], id, uid)
    else [subs[0]] + RemoveOwned(subs[1..], id, uid)
  }

  /** Deleting rows keeps the ids unique and loses no other row. */
  lemma {:induction false} RemoveOwnedUnique(subs: seq<Subscription>, id: int, uid: int)
    requires UniqueSubIds(subs)
    ensures UniqueSubIds(RemoveOwned(subs, id, uid))
  {
    if subs != [] {
      var rest := RemoveOwned(subs[1..], id, uid);
      assert UniqueSubIds(subs[1..]);
      RemoveOwnedUnique(subs[1..], id, uid);
      forall x | x in rest ensures x.id != subs[0].id {
        var k :| 0 <= k < |subs[1..]| && subs[1..][k] == x;
        assert subs[k + 1] == x;
      }
    }
  }

  lemma {:induction false} RemoveNothing(subs: seq<Subscription>, id: int, uid: int)
    requires OwnedSub(subs, id, uid).None?
    ensures RemoveOwned(subs, id, uid) == subs
  {
    if subs != [] {
      RemoveNothing(subs[1..], id, uid);
    }
  }

  /** DELETE /:id: removes the caller's subscription with that id; 404 when there was none. */
  method Delete(st: Store, caller: int, id: int) returns (r: Response<()>)
    requires st.Valid()
    modifies st`subscriptions
    ensures st.Valid()
    ensures st.subscriptions == RemoveOwned(old(st.subscriptions), id, caller)
    ensures r.status == 404 <==> OwnedSub(old(st.subscriptions), id, caller).None?
    ensures r.status == 404 ==> st.subscriptions == old(st.subscriptions)
    ensures r.status != 404 ==> r == Ok(())
  {
    var rows := RemoveOwned(st.subscriptions, id, caller);
    RemoveOwnedUnique(st.subscriptions, id, caller);
    var changes := |st.subscriptions| - |rows|;
    if changes == 0 {
      RemoveNothing(st.subscriptions, id, caller);
    }
    st.subscriptions := rows;
    if changes == 0 {
      return Fail(404, "Subscription not found");
    }
    r := Ok(());
  }

  /**
   * The `last_used` a usage entry leaves: with no `used_at` it becomes now; a `used_at` replaces it
   * only when it is not earlier than the stored value (an unset value counting as the epoch).
   */
  function NextLastUsed(current: Option<Time>, usedAt: Option<Time>, now: Time): Option<Time> {
    if usedAt.None? then Some(now)
    else if usedAt.value >= current.GetOr(0) then usedAt
    else current
  }

  /** Back-dated entries never move `last_used` backwards; an entry without a date sets it to now. */
  lemma LastUsedMonotonic(current: Option<Time>, usedAt: Option<Time>, now: Time)
    ensures usedAt.Some? && current.Some? ==> NextLastUsed(current, usedAt, now).value >= current.value
    ensures usedAt.Some? && usedAt.value >= current.GetOr(0) ==> NextLastUsed(current, usedAt, now) == usedAt
    ensures usedAt.Some? && usedAt.value < current.GetOr(0) ==> NextLastUsed(current, usedAt, now) == current
    ensures usedAt.None? ==> NextLastUsed(current, usedAt, now) == Some(now)
  {
  }

  /** Every row with that id carries `v` as its `last_used`; `UPDATE … SET last_used = ? WHERE id = ?` writes `Some(t)`. */
  function WithLastUsed(subs: seq<Subscription>, id: int, v: Option<Time>): (r: seq<Subscription>)
    ensures |r| == |subs|
    ensures forall i :: 0 <= i < |subs| ==> r[i] == if subs[i].id == id then subs[i].(lastUsed := v) else subs[i]
    ensures forall i :: 0 <= i < |subs| ==> r[i].id == subs[i].id
  {
    seq(|subs|, i requires 0 <= i < |subs| => if subs[i].id == id then subs[i].(lastUsed := v) else subs[i])
  }

  /** With unique ids, writing a row's own `last_used` back changes nothing. */
  lemma WithOwnLastUsed(subs: seq<Subscription>, s: Subscription)
    requires UniqueSubIds(subs) && s in subs
    ensures WithLastUsed(subs, s.id, s.lastUsed) == subs
  {
    var k :| 0 <= k < |subs| && subs[k] == s;
    var r := WithLastUsed(subs, s.id, s.lastUsed);
    forall i | 0 <= i < |subs| ensures r[i] == subs[i] {
      if subs[i].id == s.id {
        assert i == k;
      }
    }
  }

  /**
   * POST /:id/usage. A missing or foreign id gives 404 and changes nothing. Otherwise `last_used`
   * moves as `NextLastUsed` says and one usage-log row is appended, dated `used_at` or now.
   */
  method LogUsage(st: Store, caller: int, now: Time, id: int, usedAt: Option<Time>) returns (r: Response<()>)
    requires st.Valid()
    modifies st`subscriptions, st`usageLogs, st`nextId
    ensures st.Valid()
    ensures r.status == 200 || r.status == 404
    ensures r.status == 404 <==> OwnedSub(old(st.subscriptions), id, caller).None?
    ensures r.status == 404 ==> st.subscriptions == old(st.subscriptions) && st.usageLogs == old(st.usageLogs)
    ensures r.status == 200 ==>
      var s := OwnedSub(old(st.subscriptions), id, caller).value;
      && st.subscriptions == WithLastUsed(old(st.subscriptions), id, NextLastUsed(s.lastUsed, usedAt, now))
      && st.usageLogs == old(st.usageLogs) + [UsageLog(old(st.nextId), id, usedAt.GetOr(now), now)]
  {
    var found := OwnedSub(st.subscriptions, id, caller);
    if found.None? {
      return Fail(404, "Subscription not found");
    }
    var s := found.value;
    if usedAt.None? || usedAt.value >= s.lastUsed.GetOr(0) {
      st.subscriptions := WithLastUsed(st.subscriptions, id, Some(usedAt.GetOr(now)));
    } else {
      WithOwnLastUsed(st.subscriptions, s);
    }
    var logId := st.FreshId();
    st.usageLogs := st.usageLogs + [UsageLog(logId, id, usedAt.GetOr(now), now)];
    r := Ok(());
  }
}
