/**
 * The `/api/friends` routes of server/routes/friends.js: user search, friend requests (send,
 * list, accept, reject) and the friendship itself, which is stored as two mirrored rows that are
 * inserted and deleted together.
 */
module FriendsRoutes {
  import opened Wrappers
  import opened Strings
  import opened SqlLike
  import opened Domain
  import opened Http
  import opened Ordering

  const SEARCH_LIMIT: nat := 20

  datatype UserSummary = UserSummary(id: int, email: string, name: string)

  function Summary(u: User): UserSummary {
    UserSummary(u.id, u.email, u.name)
  }

  /** `(email LIKE '%q%' OR name LIKE '%q%') AND id != caller`; a `%` or `_` in the query is a wildcard too. */
  predicate SearchHit(u: User, caller: int, query: string) {
    u.id != caller && (Like(u.email, SearchPattern(query)) || Like(u.name, SearchPattern(query)))
  }

  /** For a query without `%` or `_` the search finds the other users whose email or name contains it. */
  lemma PlainQueryFindsSubstrings(u: User, caller: int, query: string)
    requires Plain(query)
    ensures SearchHit(u, caller, query) <==> u.id != caller && (Contains(u.email, query) || Contains(u.name, query))
  {
    PlainPatternIsSubstring(u.email, query);
    PlainPatternIsSubstring(u.name, query);
  }

  /** The query "%%" passes the length guard and matches every other user. */
  lemma DoublePercentFindsEveryone(u: User, caller: int)
    ensures SearchHit(u, caller, "%%") <==> u.id != caller
  {
    DoublePercentMatchesAll(u.email);
  }

  /** Every user the search matches, in table order. */
  function SearchHits(users: seq<User>, caller: int, query: string): (r: seq<UserSummary>)
    ensures |r| <= |users|
    ensures forall x :: x in r ==> exists i :: 0 <= i < |users| && SearchHit(users[i], caller, query) && x == Summary(users[i])
    ensures forall i :: 0 <= i < |users| && SearchHit(users[i], caller, query) ==> Summary(users[i]) in r
    ensures forall x :: x in r ==> x.id != caller
  {
    if users == [] then []
    else
      var rest := SearchHits(users[1..], caller, query);
      assert forall x :: x in rest ==> exists i :: 1 <= i < |users| && SearchHit(users[i], caller, query) && x == Summary(users[i]) by {
        forall x | x in rest
          ensures exists i :: 1 <= i < |users| && SearchHit(users[i], caller, query) && x == Summary(users[i])
        {
          var i :| 0 <= i < |users[1..]| && SearchHit(users[1..][i], caller, query) && x == Summary(users[1..][i]);
          assert users[1..][i] == users[i + 1];
        }
      }
      (if SearchHit(users[0], caller, query) then [Summary(users[0])] else []) + rest
  }

  /**
   * GET /search: a query shorter than two characters is refused; otherwise at most twenty
   * matching users, never the caller.
   */
  function Search(st: Store, caller: int, query: string): (r: Response<seq<UserSummary>>)
    reads st
    ensures r.status == 200 || r.status == 400
    ensures r.status == 400 <==> |query| < 2
    ensures r.status == 200 ==>
      && r.body.Json?
      && |r.body.value| == Min(SEARCH_LIMIT, |SearchHits(st.users, caller, query)|)
      && r.body.value <= SearchHits(st.users, caller, query)
      && (forall x :: x in r.body.value ==> x.id != caller)
  {
    if |query| < 2 then Fail(400, "En az 2 karakter girin")
    else
      var hits := SearchHits(st.users, caller, query);
      assert forall x :: x in Take(hits, SEARCH_LIMIT) ==> x in hits;
      Ok(Take(hits, SEARCH_LIMIT))
  }

  // ----- sending a request -----

  /**
   * The guards before a request from `caller` to `to` is stored, in the order the route checks
   * them; `None` when the request may be stored. The invite acceptance applies the same checks.
   */
  function RequestRefusal(friends: seq<Friendship>, reqs: seq<FriendRequest>, caller: int, to: int): (e: Option<string>)
    ensures e.None? <==>
      to != caller && !HasFriendRow(friends, caller, to) && !HasFriendRow(friends, to, caller) && !HasRequestBetween(reqs, caller, to)
  {
    if to == caller then Some("Kendinize arkadaş isteği gönderemezsiniz")
    else if HasFriendRow(friends, caller, to) || HasFriendRow(friends, to, caller) then Some("Zaten arkadaşsınız")
    else if HasRequestBetween(reqs, caller, to) then Some("Zaten bir istek var")
    else None
  }

  /** A request that passed the guards keeps the request invariant. */
  lemma NewRequestWellFormed(reqs: seq<FriendRequest>, friends: seq<Friendship>, q: FriendRequest)
    requires RequestsWellFormed(reqs, friends)
    requires q.fromUserId != q.toUserId
    requires !HasFriendRow(friends, q.fromUserId, q.toUserId)
    requires !HasRequestBetween(reqs, q.fromUserId, q.toUserId)
    ensures RequestsWellFormed(reqs + [q], friends)
  {
    var r := reqs + [q];
    forall i, j | 0 <= i < j < |r| ensures !RequestJoins(r[j], r[i].fromUserId, r[i].toUserId) {
      if j == |reqs| {
        assert !RequestJoins(reqs[i], q.fromUserId, q.toUserId);
      }
    }
  }

  /** Store a pending request from `caller` to `to` under a fresh id. */
  method InsertRequest(st: Store, caller: int, to: int, now: Time) returns (id: int)
    requires st.Valid()
    requires RequestRefusal(st.friends, st.friendRequests, caller, to).None?
    modifies st`friendRequests, st`nextId
    ensures st.Valid()
    ensures id == old(st.nextId)
    ensures st.friendRequests == old(st.friendRequests) + [FriendRequest(id, caller, to, Pending, now)]
  {
    NewRequestWellFormed(st.friendRequests, st.friends, FriendRequest(st.nextId, caller, to, Pending, now));
    id := st.FreshId();
    st.friendRequests := st.friendRequests + [FriendRequest(id, caller, to, Pending, now)];
  }

  /**
   * POST /request. A missing target (`0`) is refused, then the guards of `RequestRefusal`, each
   * with 400 and no change; otherwise exactly one pending request from the caller to the target
   * is added and its id returned.
   */
  method SendRequest(st: Store, caller: int, to: int, now: Time) returns (r: Response<int>)
    requires st.Valid()
    modifies st`friendRequests, st`nextId
    ensures st.Valid()
    ensures r.status == 200 || r.status == 400
    ensures r.status == 400 <==> to == 0 || RequestRefusal(old(st.friends), old(st.friendRequests), caller, to).Some?
    ensures r.status == 400 ==> unchanged(st)
    ensures to == 0 ==> r == Fail(400, "Kullanıcı ID gerekli")
    ensures to != 0 && RequestRefusal(old(st.friends), old(st.friendRequests), caller, to).Some? ==>
      r == Fail(400, RequestRefusal(old(st.friends), old(st.friendRequests), caller, to).value)
    ensures r.status == 200 ==>
      r == Ok(old(st.nextId))
      && st.friendRequests == old(st.friendRequests) + [FriendRequest(old(st.nextId), caller, to, Pending, now)]
  {
    if to == 0 {
      return Fail(400, "Kullanıcı ID gerekli");
    }
    var refusal := RequestRefusal(st.friends, st.friendRequests, caller, to);
    if refusal.Some? {
      return Fail(400, refusal.value);
    }
    var id := InsertRequest(st, caller, to, now);
    r := Ok(id);
  }

  // ----- request lists -----

  /** One row of the incoming or outgoing list: the request and the other user's contact. */
  datatype RequestEntry = RequestEntry(id: int, otherUserId: int, createdAt: Time, email: string, name: string)

  /** The user on the other end: the sender for incoming lists, the recipient for outgoing ones. */
  function Counterpart(q: FriendRequest, incoming: bool): int {
    if incoming then q.fromUserId else q.toUserId
  }

  /** Pending, and addressed to the caller (incoming) or sent by the caller (outgoing). */
  predicate Listed(q: FriendRequest, caller: int, incoming: bool) {
    q.status == Pending && (if incoming then q.toUserId == caller else q.fromUserId == caller)
  }

  function EntryOf(q: FriendRequest, u: User, incoming: bool): RequestEntry {
    RequestEntry(q.id, Counterpart(q, incoming), q.createdAt, u.email, u.name)
  }

  /** The listed requests joined with the other user's row (the inner join drops requests whose user is gone). */
  function PendingEntries(reqs: seq<FriendRequest>, users: seq<User>, caller: int, incoming: bool): (r: seq<RequestEntry>)
    ensures forall e :: e in r ==>
      exists i :: 0 <= i < |reqs| && Listed(reqs[i], caller, incoming)
        && FindUser(users, Counterpart(reqs[i], incoming)).Some?
        && e == EntryOf(reqs[i], FindUser(users, Counterpart(reqs[i], incoming)).value, incoming)
    ensures forall i :: 0 <= i < |reqs| && Listed(reqs[i], caller, incoming) && FindUser(users, Counterpart(reqs[i], incoming)).Some? ==>
      EntryOf(reqs[i], FindUser(users, Counterpart(reqs[i], incoming)).value, incoming) in r
  {
    if reqs == [] then []
    else
      var q := reqs[0];
      var rest := PendingEntries(reqs[1..], users, caller, incoming);
      assert forall k :: 0 <= k < |reqs[1..]| ==> reqs[1..][k] == reqs[k + 1];
      var u := FindUser(users, Counterpart(q, incoming));
      (if Listed(q, caller, incoming) && u.Some? then [EntryOf(q, u.value, incoming)] else []) + rest
  }

  function EntryKey(e: RequestEntry): real {
    e.createdAt as real
  }

  /** GET /requests/incoming and /requests/outgoing: the listed requests, newest first. */
  function RequestList(st: Store, caller: int, incoming: bool): (r: Response<seq<RequestEntry>>)
    reads st
    ensures r.status == 200 && r.body.Json?
    ensures multiset(r.body.value) == multiset(PendingEntries(st.friendRequests, st.users, caller, incoming))
    ensures SortedDesc(r.body.value, EntryKey)
  {
    Ok(SortDesc(PendingEntries(st.friendRequests, st.users, caller, incoming), EntryKey))
  }

  /** Every entry of either list is a pending request, from the caller's point of view in the right direction. */
  lemma RequestListSound(st: Store, caller: int, incoming: bool, e: RequestEntry)
    requires e in RequestList(st, caller, incoming).body.value
    ensures exists i ::
      && 0 <= i < |st.friendRequests| && st.friendRequests[i].id == e.id
      && st.friendRequests[i].status == Pending
      && (if incoming then st.friendRequests[i].toUserId == caller else st.friendRequests[i].fromUserId == caller)
  {
    var entries := PendingEntries(st.friendRequests, st.users, caller, incoming);
    assert e in multiset(RequestList(st, caller, incoming).body.value);
    assert e in entries;
    var i :| 0 <= i < |st.friendRequests| && Listed(st.friendRequests[i], caller, incoming)
      && FindUser(st.users, Counterpart(st.friendRequests[i], incoming)).Some?
      && e == EntryOf(st.friendRequests[i], FindUser(st.users, Counterpart(st.friendRequests[i], incoming)).value, incoming);
    assert st.friendRequests[i].id == e.id;
  }

  // ----- accepting and rejecting -----

  /** The position of the request with id `id`, if any (ids are unique, so there is at most one). */
  function FindRequest(reqs: seq<FriendRequest>, id: int): (k: Option<nat>)
    ensures k.Some? ==> k.value < |reqs| && reqs[k.value].id == id
    ensures k.None? ==> forall i :: 0 <= i < |reqs| ==> reqs[i].id != id
  {
    if reqs == [] then None
    else if reqs[0].id == id then Some(0)
    else match FindRequest(reqs[1..], id)
      case None => None
      case Some(k) => Some(k + 1)
  }

  /** Accepting keeps the friends rows mirrored and without repeats. */
  lemma AcceptedFriendsWellFormed(friends: seq<Friendship>, a: int, b: int, now: Time)
    requires FriendsWellFormed(friends)
    requires a != b
    requires !HasFriendRow(friends, b, a)
    ensures FriendsWellFormed(friends + [Friendship(a, b, now), Friendship(b, a, now)])
  {
    var f := friends + [Friendship(a, b, now), Friendship(b, a, now)];
    forall i | 0 <= i < |friends| ensures !(friends[i].userId == a && friends[i].friendId == b) {
      assert HasFriendRow(friends, friends[i].friendId, friends[i].userId);
    }
    forall i | 0 <= i < |f| ensures HasFriendRow(f, f[i].friendId, f[i].userId) {
      if i < |friends| {
        var j :| 0 <= j < |friends| && friends[j].userId == friends[i].friendId && friends[j].friendId == friends[i].userId;
        assert f[j] == friends[j];
      } else if i == |friends| {
        assert f[|friends| + 1] == Friendship(b, a, now);
      } else {
        assert f[|friends|] == Friendship(a, b, now);
      }
    }
    forall i, j | 0 <= i < j < |f| ensures !(f[i].userId == f[j].userId && f[i].friendId == f[j].friendId) {
      if j >= |friends| && i < |friends| {
        assert f[i] == friends[i];
      }
    }
  }

  /** Accepting the pending request at `k` keeps the request invariant over the new friends rows. */
  lemma AcceptedRequestsWellFormed(reqs: seq<FriendRequest>, friends: seq<Friendship>, k: nat, now: Time)
    requires RequestsWellFormed(reqs, friends)
    requires k < |reqs|
    ensures RequestsWellFormed(reqs[k := reqs[k].(status := Accepted)],
      friends + [Friendship(reqs[k].toUserId, reqs[k].fromUserId, now), Friendship(reqs[k].fromUserId, reqs[k].toUserId, now)])
  {
    var q := reqs[k];
    var r := reqs[k := q.(status := Accepted)];
    var f := friends + [Friendship(q.toUserId, q.fromUserId, now), Friendship(q.fromUserId, q.toUserId, now)];
    forall i | 0 <= i < |r| && r[i].status == Pending ensures !HasFriendRow(f, r[i].fromUserId, r[i].toUserId) {
      assert i != k && r[i] == reqs[i];
      assert !RequestJoins(reqs[i], q.fromUserId, q.toUserId) by {
        if i < k {
          assert !RequestJoins(reqs[k], reqs[i].fromUserId, reqs[i].toUserId);
        }
      }
      forall j | 0 <= j < |f| ensures !(f[j].userId == r[i].fromUserId && f[j].friendId == r[i].toUserId) {
        if j < |friends| {
          assert f[j] == friends[j];
        }
      }
    }
    forall i, j | 0 <= i < j < |r| ensures !RequestJoins(r[j], r[i].fromUserId, r[i].toUserId) {
      assert !RequestJoins(reqs[j], reqs[i].fromUserId, reqs[i].toUserId);
    }
  }

  /** Set the status of the accepted request and add both friendship rows. */
  method ApplyAccept(st: Store, caller: int, k: nat, now: Time)
    requires st.Valid()
    requires k < |st.friendRequests| && st.friendRequests[k].toUserId == caller && st.friendRequests[k].status == Pending
    modifies st`friendRequests, st`friends
    ensures st.Valid()
    ensures st.friendRequests == old(st.friendRequests)[k := old(st.friendRequests)[k].(status := Accepted)]
    ensures st.friends == old(st.friends) + [Friendship(caller, old(st.friendRequests)[k].fromUserId, now),
                                             Friendship(old(st.friendRequests)[k].fromUserId, caller, now)]
  {
    var q := st.friendRequests[k];
    AcceptedFriendsWellFormed(st.friends, caller, q.fromUserId, now);
    AcceptedRequestsWellFormed(st.friendRequests, st.friends, k, now);
    st.friendRequests := st.friendRequests[k := q.(status := Accepted)];
    st.friends := st.friends + [Friendship(caller, q.fromUserId, now), Friendship(q.fromUserId, caller, now)];
  }

  /**
   * POST /request/:id/accept. Only a pending request addressed to the caller can be accepted,
   * anything else is 404 and changes nothing. Acceptance marks the request 'accepted' and adds
   * the friendship in both directions.
   */
  method Accept(st: Store, caller: int, requestId: int, now: Time) returns (r: Response<()>)
    requires st.Valid()
    modifies st`friendRequests, st`friends
    ensures st.Valid()
    ensures r.status == 200 || r.status == 404
    ensures r.status == 404 <==> !exists i ::
      && 0 <= i < |old(st.friendRequests)| && old(st.friendRequests)[i].id == requestId
      && old(st.friendRequests)[i].toUserId == caller && old(st.friendRequests)[i].status == Pending
    ensures r.status == 404 ==> r == Fail(404, "İstek bulunamadı") && unchanged(st)
    ensures r.status == 200 ==>
      && r == Ok(())
      && exists k ::
        && 0 <= k < |old(st.friendRequests)| && old(st.friendRequests)[k].id == requestId
        && st.friendRequests == old(st.friendRequests)[k := old(st.friendRequests)[k].(status := Accepted)]
        && st.friends == old(st.friends) + [Friendship(caller, old(st.friendRequests)[k].fromUserId, now),
                                            Friendship(old(st.friendRequests)[k].fromUserId, caller, now)]
  {
    var k := FindRequest(st.friendRequests, requestId);
    if k.None? || st.friendRequests[k.value].toUserId != caller || st.friendRequests[k.value].status != Pending {
      assert forall i :: 0 <= i < |st.friendRequests| && st.friendRequests[i].id == requestId ==> i == k.value;
      return Fail(404, "İstek bulunamadı");
    }
    ApplyAccept(st, caller, k.value, now);
    r := Ok(());
  }

  /**
   * POST /request/:id/reject. Any request addressed to the caller is marked 'rejected', whatever
   * its status (an accepted one included, and its friendship rows stay); 404 when the caller has
   * no request with that id.
   */
  method Reject(st: Store, caller: int, requestId: int) returns (r: Response<()>)
    requires st.Valid()
    modifies st`friendRequests
    ensures st.Valid()
    ensures r.status == 200 || r.status == 404
    ensures r.status == 404 <==> !exists i ::
      0 <= i < |old(st.friendRequests)| && old(st.friendRequests)[i].id == requestId && old(st.friendRequests)[i].toUserId == caller
    ensures r.status == 404 ==> r == Fail(404, "İstek bulunamadı") && unchanged(st)
    ensures r.status == 200 ==>
      && r == Ok(())
      && exists k ::
        && 0 <= k < |old(st.friendRequests)| && old(st.friendRequests)[k].id == requestId
        && st.friendRequests == old(st.friendRequests)[k := old(st.friendRequests)[k].(status := Rejected)]
  {
    var k := FindRequest(st.friendRequests, requestId);
    if k.None? || st.friendRequests[k.value].toUserId != caller {
      assert forall i :: 0 <= i < |st.friendRequests| && st.friendRequests[i].id == requestId ==> i == k.value;
      return Fail(404, "İstek bulunamadı");
    }
    var q := st.friendRequests[k.value];
    st.friendRequests := st.friendRequests[k.value := q.(status := Rejected)];
    r := Ok(());
  }

  // ----- the friendship itself -----

  datatype FriendEntry = FriendEntry(id: int, email: string, name: string, friendSince: Time)

  /** How many rows the join `friends f JOIN users u ON f.friend_id = u.id WHERE f.user_id = caller` has. */
  function FriendRowsJoined(friends: seq<Friendship>, users: seq<User>, caller: int): nat {
    if friends == [] then 0
    else
      var here := if friends[0].userId == caller && FindUser(users, friends[0].friendId).Some? then 1 else 0;
      here + FriendRowsJoined(friends[1..], users, caller)
  }

  /** The caller's own friends rows joined with the friend's user row, one entry per joined row. */
  function FriendEntries(friends: seq<Friendship>, users: seq<User>, caller: int): (r: seq<FriendEntry>)
    ensures |r| == FriendRowsJoined(friends, users, caller)
    ensures forall e :: e in r ==>
      HasFriendRow(friends, caller, e.id) && FindUser(users, e.id).Some?
      && e.email == FindUser(users, e.id).value.email && e.name == FindUser(users, e.id).value.name
    ensures forall i :: 0 <= i < |friends| && friends[i].userId == caller && FindUser(users, friends[i].friendId).Some? ==>
      FriendEntry(friends[i].friendId, FindUser(users, friends[i].friendId).value.email,
                  FindUser(users, friends[i].friendId).value.name, friends[i].createdAt) in r
  {
    if friends == [] then []
    else
      var f := friends[0];
      var rest := FriendEntries(friends[1..], users, caller);
      assert forall e :: e in rest ==> HasFriendRow(friends, caller, e.id) by {
        forall e | e in rest ensures HasFriendRow(friends, caller, e.id) {
          var i :| 0 <= i < |friends[1..]| && friends[1..][i].userId == caller && friends[1..][i].friendId == e.id;
          assert friends[i + 1] == friends[1..][i];
        }
      }
      assert forall i :: 0 <= i < |friends[1..]| ==> friends[1..][i] == friends[i + 1];
      var u := FindUser(users, f.friendId);
      (if f.userId == caller && u.Some? then [FriendEntry(f.friendId, u.value.email, u.value.name, f.createdAt)] else []) + rest
  }

  /** GET /list: the caller's friends. */
  function List(st: Store, caller: int): (r: Response<seq<FriendEntry>>)
    reads st
    ensures r.status == 200 && r.body.Json?
    ensures forall e :: e in r.body.value ==>
      HasFriendRow(st.friends, caller, e.id) && FindUser(st.users, e.id).Some?
      && e.email == FindUser(st.users, e.id).value.email && e.name == FindUser(st.users, e.id).value.name
    ensures forall i :: 0 <= i < |st.friends| && st.friends[i].userId == caller && FindUser(st.users, st.friends[i].friendId).Some? ==>
      FriendEntry(st.friends[i].friendId, FindUser(st.users, st.friends[i].friendId).value.email,
                  FindUser(st.users, st.friends[i].friendId).value.name, st.friends[i].createdAt) in r.body.value
    ensures |r.body.value| == FriendRowsJoined(st.friends, st.users, caller)
  {
    Ok(FriendEntries(st.friends, st.users, caller))
  }

  /** A row between `a` and `b`, in either direction. */
  predicate JoinsPair(f: Friendship, a: int, b: int) {
    (f.userId == a && f.friendId == b) || (f.userId == b && f.friendId == a)
  }

  /** `DELETE FROM friends WHERE (user_id = a AND friend_id = b) OR (user_id = b AND friend_id = a)`. */
  function WithoutPair(friends: seq<Friendship>, a: int, b: int): (r: seq<Friendship>)
    ensures |r| <= |friends|
    ensures forall x :: x in r <==> x in friends && !JoinsPair(x, a, b)
    ensures |r| == |friends| <==> forall i :: 0 <= i < |friends| ==> !JoinsPair(friends[i], a, b)
  {
    if friends == [] then []
    else
      var rest := WithoutPair(friends[1..], a, b);
      assert forall i :: 0 <= i < |friends[1..]| ==> friends[1..][i] == friends[i + 1];
      assert forall x :: x in friends <==> x == friends[0] || x in friends[1..];
      (if JoinsPair(friends[0], a, b) then [] else [friends[0]]) + rest
  }

  /** Removing a mirrored pair keeps the friends rows mirrored and without repeats. */
  lemma {:induction false} WithoutPairWellFormed(friends: seq<Friendship>, a: int, b: int)
    requires FriendsWellFormed(friends)
    ensures FriendsWellFormed(WithoutPair(friends, a, b))
  {
    var r := WithoutPair(friends, a, b);
    forall i | 0 <= i < |r| ensures r[i].userId != r[i].friendId {
      assert r[i] in friends;
    }
    forall i | 0 <= i < |r| ensures HasFriendRow(r, r[i].friendId, r[i].userId) {
      MirrorKept(friends, a, b, r[i]);
    }
    NoRepeatsKept(friends, a, b);
  }

  /** The mirror of a kept row is kept too, since it joins the same two users. */
  lemma MirrorKept(friends: seq<Friendship>, a: int, b: int, x: Friendship)
    requires FriendsWellFormed(friends)
    requires x in WithoutPair(friends, a, b)
    ensures HasFriendRow(WithoutPair(friends, a, b), x.friendId, x.userId)
  {
    var r := WithoutPair(friends, a, b);
    var m :| 0 <= m < |friends| && friends[m] == x;
    assert HasFriendRow(friends, friends[m].friendId, friends[m].userId);
    var j :| 0 <= j < |friends| && friends[j].userId == x.friendId && friends[j].friendId == x.userId;
    assert !JoinsPair(friends[j], a, b);
    assert friends[j] in r;
    var t :| 0 <= t < |r| && r[t] == friends[j];
  }

  /** No two rows with the same pair, a property a filter keeps. */
  predicate NoRepeatedPair(friends: seq<Friendship>) {
    forall i, j :: 0 <= i < j < |friends| ==>
      !(friends[i].userId == friends[j].userId && friends[i].friendId == friends[j].friendId)
  }

  lemma {:induction false} NoRepeatsKept(friends: seq<Friendship>, a: int, b: int)
    requires NoRepeatedPair(friends)
    ensures NoRepeatedPair(WithoutPair(friends, a, b))
  {
    if friends != [] {
      var tail := friends[1..];
      assert NoRepeatedPair(tail) by {
        forall i, j | 0 <= i < j < |tail|
          ensures !(tail[i].userId == tail[j].userId && tail[i].friendId == tail[j].friendId)
        {
          assert tail[i] == friends[i + 1] && tail[j] == friends[j + 1];
        }
      }
      NoRepeatsKept(tail, a, b);
      var rest := WithoutPair(tail, a, b);
      var r := WithoutPair(friends, a, b);
      if !JoinsPair(friends[0], a, b) {
        assert r == [friends[0]] + rest;
        forall j | 0 < j < |r| ensures !(r[0].userId == r[j].userId && r[0].friendId == r[j].friendId) {
          assert r[j] in tail;
          var t :| 0 <= t < |tail| && tail[t] == r[j];
          assert tail[t] == friends[t + 1];
        }
      }
    }
  }

  /** Fewer friends rows never turn a pending request into one between friends. */
  lemma WithoutPairKeepsRequests(reqs: seq<FriendRequest>, friends: seq<Friendship>, a: int, b: int)
    requires RequestsWellFormed(reqs, friends)
    ensures RequestsWellFormed(reqs, WithoutPair(friends, a, b))
  {
    var r := WithoutPair(friends, a, b);
    forall i | 0 <= i < |reqs| && reqs[i].status == Pending ensures !HasFriendRow(r, reqs[i].fromUserId, reqs[i].toUserId) {
      forall j | 0 <= j < |r| ensures !(r[j].userId == reqs[i].fromUserId && r[j].friendId == reqs[i].toUserId) {
        assert r[j] in friends;
        var m :| 0 <= m < |friends| && friends[m] == r[j];
      }
    }
  }

  /**
   * DELETE /:friendId. Both rows between the caller and the friend go; 404 when there was
   * neither, and then nothing changes. Afterwards no row joins the two in either direction.
   */
  method Unfriend(st: Store, caller: int, friendId: int) returns (r: Response<()>)
    requires st.Valid()
    modifies st`friends
    ensures st.Valid()
    ensures r.status == 200 || r.status == 404
    ensures r.status == 404 <==> !HasFriendRow(old(st.friends), caller, friendId) && !HasFriendRow(old(st.friends), friendId, caller)
    ensures r.status == 404 ==> r == Fail(404, "Arkadaşlık bulunamadı") && st.friends == old(st.friends)
    ensures r.status == 200 ==> r == Ok(())
    ensures st.friends == WithoutPair(old(st.friends), caller, friendId)
    ensures !HasFriendRow(st.friends, caller, friendId) && !HasFriendRow(st.friends, friendId, caller)
  {
    var before := st.friends;
    WithoutPairWellFormed(before, caller, friendId);
    WithoutPairKeepsRequests(st.friendRequests, before, caller, friendId);
    st.friends := WithoutPair(before, caller, friendId);
    if |st.friends| == |before| {
      assert st.friends == before by {
        assert forall i :: 0 <= i < |before| ==> before[i] in st.friends;
        UnchangedFilter(before, caller, friendId);
      }
      r := Fail(404, "Arkadaşlık bulunamadı");
    } else {
      r := Ok(());
    }
    forall i | 0 <= i < |st.friends| ensures !JoinsPair(st.friends[i], caller, friendId) {
      assert st.friends[i] in st.friends;
    }
  }

  /** A filter that removes nothing returns its input. */
  lemma {:induction false} UnchangedFilter(friends: seq<Friendship>, a: int, b: int)
    requires forall i :: 0 <= i < |friends| ==> !JoinsPair(friends[i], a, b)
    ensures WithoutPair(friends, a, b) == friends
  {
    if friends != [] {
      assert forall i :: 0 <= i < |friends[1..]| ==> !JoinsPair(friends[1..][i], a, b) by {
        forall i | 0 <= i < |friends[1..]| ensures !JoinsPair(friends[1..][i], a, b) {
          assert friends[1..][i] == friends[i + 1];
        }
      }
      UnchangedFilter(friends[1..], a, b);
    }
  }

  /** Friendship is symmetric: because rows come and go in pairs, (a, b) is stored exactly when (b, a) is. */
  lemma FriendshipSymmetric(friends: seq<Friendship>, a: int, b: int)
    requires FriendsWellFormed(friends)
    ensures HasFriendRow(friends, a, b) <==> HasFriendRow(friends, b, a)
  {
    if HasFriendRow(friends, a, b) {
      var i :| 0 <= i < |friends| && friends[i].userId == a && friends[i].friendId == b;
      assert HasFriendRow(friends, friends[i].friendId, friends[i].userId);
    }
    if HasFriendRow(friends, b, a) {
      var i :| 0 <= i < |friends| && friends[i].userId == b && friends[i].friendId == a;
      assert HasFriendRow(friends, friends[i].friendId, friends[i].userId);
    }
  }
}
