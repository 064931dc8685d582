/**
 * The `/api/auth` routes of server/routes/auth.js: registration, login and the current user.
 * Password hashing and comparison (bcrypt) and token signing are oracles: registration is
 * handed the hash, login a comparison function, and the signed token is represented by the
 * claims it carries.
 */
module AuthRoutes {
  import opened Wrappers
  import opened Domain
  import opened Http
  import opened AuthMiddleware

  datatype UserView = UserView(id: int, email: string, name: string, isPremium: bool)

  /** A token (by its claims) and the user as the response shows them; `name` is echoed as sent, absent when absent. */
  datatype Registered = Registered(token: Claims, id: int, email: string, name: Option<string>, isPremium: bool)

  datatype LoggedIn = LoggedIn(token: Claims, user: UserView)

  /** `SELECT * FROM users WHERE email = ?`. */
  function FindByEmail(users: seq<User>, email: string): (r: Option<User>)
    ensures r.Some? ==> r.value in users && r.value.email == email
    ensures r.None? <==> forall i :: 0 <= i < |users| ==> users[i].email != email
  {
    if users == [] then None
    else if users[0].email == email then Some(users[0])
    else FindByEmail(users[1..], email)
  }

  /** The user row registration inserts: the name defaults to '', nobody starts premium or with an invite token. */
  function NewUser(id: int, email: string, hash: string, name: Option<string>, now: Time): (u: User)
    ensures u.id == id && u.email == email && u.passwordHash == hash && u.createdAt == now
    ensures u.name == if name.Some? then name.value else ""
    ensures !u.isPremium && u.premiumExpiresAt.None? && u.inviteToken.None?
  {
    User(id, email, hash, name.GetOr(""), false, None, None, now)
  }

  /**
   * POST /register. `hash` is bcrypt's hash of the password. An empty email or password is 400;
   * an email already in use breaks the unique constraint, which the route reports as 400 'Bu
   * e-posta zaten kullanımda' rather than 500; neither adds a user. Otherwise one user is added
   * and answered with 201 and a token whose premium claim is false.
   */
  method Register(st: Store, email: string, password: string, name: Option<string>, hash: string, now: Time)
    returns (r: Response<Registered>)
    requires st.Valid()
    modifies st`users, st`nextId
    ensures st.Valid()
    ensures r.status == 201 || r.status == 400
    ensures email == "" || password == "" ==> r == Fail(400, "Email ve şifre gereklidir")
    ensures email != "" && password != "" && FindByEmail(old(st.users), email).Some? ==> r == Fail(400, "Bu e-posta zaten kullanımda")
    ensures r.status == 400 ==> unchanged(st)
    ensures r.status == 201 <==> email != "" && password != "" && FindByEmail(old(st.users), email).None?
    ensures r.status == 201 ==>
      && st.users == old(st.users) + [NewUser(old(st.nextId), email, hash, name, now)]
      && r == Created(Registered(Claims(old(st.nextId), email, false), old(st.nextId), email, name, false))
  {
    if email == "" || password == "" {
      return Fail(400, "Email ve şifre gereklidir");
    }
    if FindByEmail(st.users, email).Some? {
      return Fail(400, "Bu e-posta zaten kullanımda");
    }
    var id := st.FreshId();
    st.users := st.users + [NewUser(id, email, hash, name, now)];
    r := Created(Registered(Claims(id, email, false), id, email, name, false));
  }

  const LOGIN_FAILED: string := "Geçersiz giriş bilgileri"

  /**
   * POST /login. `compare` is bcrypt's check of a password against a stored hash. Missing
   * fields are 400. An unknown email and a wrong password give the same 401 answer. Success
   * signs the stored premium flag into the token as it is, without its expiry.
   */
  function Login(st: Store, email: string, password: string, compare: (string, string) -> bool): (r: Response<LoggedIn>)
    reads st
    ensures r.status == 200 || r.status == 400 || r.status == 401
    ensures r.status == 400 <==> email == "" || password == ""
    ensures r.status == 401 ==> r == Fail(401, LOGIN_FAILED)
    ensures r.status == 200 <==>
      email != "" && password != "" && FindByEmail(st.users, email).Some?
      && compare(password, FindByEmail(st.users, email).value.passwordHash)
    ensures r.status == 200 ==>
      var u := FindByEmail(st.users, email).value;
      r == Ok(LoggedIn(Claims(u.id, u.email, u.isPremium), UserView(u.id, u.email, u.name, u.isPremium)))
  {
    if email == "" || password == "" then Fail(400, "Email ve şifre gereklidir")
    else match FindByEmail(st.users, email)
      case None => Fail(401, LOGIN_FAILED)
      case Some(u) =>
        if !compare(password, u.passwordHash) then Fail(401, LOGIN_FAILED)
        else Ok(LoggedIn(Claims(u.id, u.email, u.isPremium), UserView(u.id, u.email, u.name, u.isPremium)))
  }

  /** A login cannot tell an unknown email from a wrong password: both answers are the same. */
  lemma LoginFailuresIndistinguishable(st: Store, unknown: string, known: string, password: string, compare: (string, string) -> bool)
    requires unknown != "" && known != "" && password != ""
    requires FindByEmail(st.users, unknown).None?
    requires FindByEmail(st.users, known).Some? && !compare(password, FindByEmail(st.users, known).value.passwordHash)
    ensures Login(st, unknown, password, compare) == Login(st, known, password, compare)
  {
  }

  /**
   * A premium user whose expiry has passed still logs in with a true premium claim, and so still
   * passes `checkPremium`, which reads only the claim.
   */
  lemma ExpiredPremiumPassesCheck(st: Store, email: string, password: string, compare: (string, string) -> bool, now: Time)
    requires Login(st, email, password, compare).status == 200
    requires FindByEmail(st.users, email).value.isPremium
    requires FindByEmail(st.users, email).value.premiumExpiresAt.Some?
    requires FindByEmail(st.users, email).value.premiumExpiresAt.value <= now
    ensures !PremiumActive(FindByEmail(st.users, email).value, now)
    ensures CheckPremium(Login(st, email, password, compare).body.value.token).Next?
  {
  }

  /** GET /me: 404 without a user row, otherwise the user with the premium flag as a boolean. */
  function Me(st: Store, caller: int): (r: Response<UserView>)
    reads st
    ensures r.status == 200 || r.status == 404
    ensures r.status == 404 <==> FindUser(st.users, caller).None?
    ensures r.status == 404 ==> r == Fail(404, "Kullanıcı bulunamadı")
    ensures r.status == 200 ==>
      var u := FindUser(st.users, caller).value;
      r == Ok(UserView(u.id, u.email, u.name, u.isPremium))
  {
    match FindUser(st.users, caller)
    case None => Fail(404, "Kullanıcı bulunamadı")
    case Some(u) => Ok(UserView(u.id, u.email, u.name, u.isPremium))
  }
}
