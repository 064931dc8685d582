/**
 * The `/api/invite` routes of server/routes/invite.js: each user's invite token (issued once,
 * then reused), resolving a token to the user behind it, and sending that user a friend request.
 */
module InviteRoutes {
  import opened Wrappers
  import opened Domain
  import opened Http
  import FriendsRoutes

  const LINK_PREFIX: string := "paycal://invite/"

  datatype Invite = Invite(token: string, link: string)

  /** The deep link the app opens for a token. */
  function Link(token: string): (l: string)
    ensures |l| == |LINK_PREFIX| + |token|
    ensures l[..|LINK_PREFIX|] == LINK_PREFIX && l[|LINK_PREFIX|..] == token
  {
    LINK_PREFIX + token
  }

  /** The token a link carries can be read back from it. */
  lemma LinkInjective(a: string, b: string)
    requires Link(a) == Link(b)
    ensures a == b
  {
    assert a == Link(a)[|LINK_PREFIX|..];
  }

  /** The token `/token` hands out: the stored one when it is truthy, else the freshly drawn token. */
  function IssuedToken(u: User, drawn: string): (t: string)
    ensures u.inviteToken.Some? && u.inviteToken.value != "" ==> t == u.inviteToken.value
    ensures (u.inviteToken.None? || u.inviteToken.value == "") ==> t == drawn
  {
    match u.inviteToken
    case Some(t) => if t != "" then t else drawn
    case None => drawn
  }

  /** Once issued, the token sticks: a later call returns it again, whatever it draws. */
  lemma TokenIdempotent(u: User, drawn: string, later: string)
    requires drawn != ""
    ensures IssuedToken(u.(inviteToken := Some(IssuedToken(u, drawn))), later) == IssuedToken(u, drawn)
  {
  }

  /** `UPDATE users SET invite_token = ? WHERE id = ?`. */
  function SetToken(users: seq<User>, id: int, token: string): (r: seq<User>)
    ensures |r| == |users|
    ensures forall i :: 0 <= i < |users| ==>
      r[i] == if users[i].id == id then users[i].(inviteToken := Some(token)) else users[i]
  {
    seq(|users|, i requires 0 <= i < |users| => if users[i].id == id then users[i].(inviteToken := Some(token)) else users[i])
  }

  lemma {:induction false} FindAfterSetToken(users: seq<User>, id: int, token: string)
    requires FindUser(users, id).Some?
    ensures FindUser(SetToken(users, id, token), id) == Some(FindUser(users, id).value.(inviteToken := Some(token)))
  {
    if users[0].id != id {
      FindAfterSetToken(users[1..], id, token);
      assert SetToken(users, id, token)[1..] == SetToken(users[1..], id, token);
    }
  }

  /**
   * GET /token. `drawn` is the hex string of sixteen random bytes the route draws. A caller
   * whose user row is gone gets 500. A stored truthy token is returned and nothing changes;
   * otherwise the drawn token is stored and returned. Either way the link embeds the token.
   */
  method Token(st: Store, caller: int, drawn: string) returns (r: Response<Invite>)
    requires st.Valid()
    requires drawn != ""
    modifies st`users
    ensures st.Valid()
    ensures r.status == 200 || r.status == 500
    ensures r.status == 500 <==> FindUser(old(st.users), caller).None?
    ensures r.status == 500 ==> unchanged(st)
    ensures r.status == 200 ==>
      var t := IssuedToken(FindUser(old(st.users), caller).value, drawn);
      && r == Ok(Invite(t, Link(t)))
      && st.users == (if t == drawn then SetToken(old(st.users), caller, t) else old(st.users))
      && FindUser(st.users, caller) == Some(FindUser(old(st.users), caller).value.(inviteToken := Some(t)))
  {
    var found := FindUser(st.users, caller);
    if found.None? {
      return Fail(500, "Token işlemi sırasında hata oluştu");
    }
    var u := found.value;
    if u.inviteToken.Some? && u.inviteToken.value != "" {
      var t := u.inviteToken.value;
      if t == drawn {
        assert SetToken(st.users, caller, t) == st.users;
      }
      assert u.(inviteToken := Some(t)) == u;
      return Ok(Invite(t, Link(t)));
    }
    FindAfterSetToken(st.users, caller, drawn);
    st.users := SetToken(st.users, caller, drawn);
    r := Ok(Invite(drawn, Link(drawn)));
  }

  /** `SELECT ... FROM users WHERE invite_token = ?`: the first user holding the token. */
  function FindByToken(users: seq<User>, token: string): (r: Option<User>)
    ensures r.Some? ==> r.value in users && r.value.inviteToken == Some(token)
    ensures r.None? ==> forall i :: 0 <= i < |users| ==> users[i].inviteToken != Some(token)
  {
    if users == [] then None
    else if users[0].inviteToken == Some(token) then Some(users[0])
    else FindByToken(users[1..], token)
  }

  datatype Invitee = Invitee(id: int, name: string, email: string, isFriend: bool, hasPendingRequest: bool)

  /**
   * GET /user/:token. An unknown token is 404 and the caller's own token 400. Otherwise the
   * holder, whether a friends row joins the two in either direction, and whether any request
   * joins them, whatever its status (the flag is named "pending" but counts answered ones too).
   */
  function Resolve(st: Store, caller: int, token: string): (r: Response<Invitee>)
    reads st
    ensures r.status == 200 || r.status == 400 || r.status == 404
    ensures r.status == 404 <==> FindByToken(st.users, token).None?
    ensures r.status == 400 <==> FindByToken(st.users, token).Some? && FindByToken(st.users, token).value.id == caller
    ensures r.status == 200 ==>
      var u := FindByToken(st.users, token).value;
      && r.body.Json? && r.body.value.id == u.id && r.body.value.name == u.name && r.body.value.email == u.email
      && (r.body.value.isFriend <==> HasFriendRow(st.friends, caller, u.id) || HasFriendRow(st.friends, u.id, caller))
      && (r.body.value.hasPendingRequest <==> HasRequestBetween(st.friendRequests, caller, u.id))
  {
    match FindByToken(st.users, token)
    case None => Fail(404, "Geçersiz davet linki")
    case Some(u) =>
      if u.id == caller then Fail(400, "Kendinize davet linki ile istek gönderemezsiniz")
      else Ok(Invitee(u.id, u.name, u.email,
        HasFriendRow(st.friends, caller, u.id) || HasFriendRow(st.friends, u.id, caller),
        HasRequestBetween(st.friendRequests, caller, u.id)))
  }

  /**
   * POST /accept/:token: a friend request to the token's holder, behind the same guards as a
   * direct request (only the self-request message differs). An unknown token is 404; each
   * guard is 400; otherwise exactly one pending request is added and its id returned.
   */
  method AcceptByToken(st: Store, caller: int, token: string, now: Time) returns (r: Response<int>)
    requires st.Valid()
    modifies st`friendRequests, st`nextId
    ensures st.Valid()
    ensures r.status == 200 || r.status == 400 || r.status == 404
    ensures r.status == 404 <==> FindByToken(old(st.users), token).None?
    ensures r.status != 200 ==> unchanged(st)
    ensures r.status == 400 <==>
      (FindByToken(old(st.users), token).Some?
       && FriendsRoutes.RequestRefusal(old(st.friends), old(st.friendRequests), caller, FindByToken(old(st.users), token).value.id).Some?)
    ensures r.status == 200 ==>
      var to := FindByToken(old(st.users), token).value.id;
      && r == Ok(old(st.nextId))
      && st.friendRequests == old(st.friendRequests) + [FriendRequest(old(st.nextId), caller, to, Pending, now)]
  {
    var holder := FindByToken(st.users, token);
    if holder.None? {
      return Fail(404, "Geçersiz davet linki");
    }
    var to := holder.value.id;
    if to == caller {
      return Fail(400, "Kendinize istek gönderemezsiniz");
    }
    var refusal := FriendsRoutes.RequestRefusal(st.friends, st.friendRequests, caller, to);
    if refusal.Some? {
      return Fail(400, refusal.value);
    }
    var id := FriendsRoutes.InsertRequest(st, caller, to, now);
    r := Ok(id);
  }
}
