/**
 * The middleware of server/middleware/auth.js: `authenticateToken` takes the bearer token from
 * the Authorization header (the form of section 2.1 of RFC 6750, though the scheme word is not
 * checked) and verifies it; `checkPremium` gates a route on the token's premium claim.
 * Verifying a JSON Web Token is an oracle here: `verify` maps a token to its claims or to
 * nothing when the signature or the expiry is wrong.
 */
module AuthMiddleware {
  import opened Wrappers
  import opened Strings
  import opened Http

  /** The claims the server signs into a token: `{ id, email, is_premium }`. */
  datatype Claims = Claims(id: int, email: string, isPremium: bool)

  /** What a middleware does with a request: answer it itself, or pass it on (`next()`, once) with the user set. */
  datatype Outcome = Halt(response: Response<()>) | Next(user: Claims)

  /** `authHeader && authHeader.split(' ')[1]`: the second space-separated field, when the header is present and that field is not empty. */
  function ExtractToken(header: Option<string>): (t: Option<string>)
    ensures t.Some? ==> header.Some? && t.value != "" && ' ' !in t.value
    ensures t.Some? ==> |Split(header.value, ' ')| >= 2 && t.value == Split(header.value, ' ')[1]
    ensures header.Some? && |Split(header.value, ' ')| >= 2 && Split(header.value, ' ')[1] != "" ==> t.Some?
  {
    match header
    case None => None
    case Some(h) =>
      if h == "" then None
      else
        var parts := Split(h, ' ');
        if |parts| < 2 || parts[1] == "" then None else Some(parts[1])
  }

  /** `Authorization: <scheme> <token>` yields the token, whatever the scheme word is. */
  lemma ExtractFromScheme(scheme: string, token: string)
    requires ' ' !in scheme && ' ' !in token && token != ""
    ensures ExtractToken(Some(scheme + " " + token)) == Some(token)
  {
    SplitAfterPiece(scheme, token, ' ');
    SplitNoSeparator(token, ' ');
    assert scheme + " " + token == scheme + [' '] + token;
  }

  /** A header without a space carries no token. */
  lemma NoSpaceNoToken(header: string)
    requires ' ' !in header
    ensures ExtractToken(Some(header)) == None
  {
    SplitNoSeparator(header, ' ');
  }

  /**
   * `authenticateToken`: no token is 401, a token that does not verify is 403, and otherwise the
   * request goes on exactly once with the verified claims as `req.user`.
   */
  function Authenticate(header: Option<string>, verify: string -> Option<Claims>): (o: Outcome)
    ensures ExtractToken(header).None? <==> o.Halt? && o.response.status == 401
    ensures o.Halt? && o.response.status == 401 ==> o.response == Fail(401, "Access token required")
    ensures ExtractToken(header).Some? && verify(ExtractToken(header).value).None? <==> o.Halt? && o.response.status == 403
    ensures o.Halt? && o.response.status == 403 ==> o.response == Fail(403, "Invalid or expired token")
    ensures o.Next? <==> ExtractToken(header).Some? && verify(ExtractToken(header).value).Some?
    ensures o.Next? ==> o.user == verify(ExtractToken(header).value).value
  {
    match ExtractToken(header)
    case None => Halt(Fail(401, "Access token required"))
    case Some(t) =>
      match verify(t)
      case None => Halt(Fail(403, "Invalid or expired token"))
      case Some(c) => Next(c)
  }

  /** `checkPremium`: 403 exactly when the claim is falsy. Only the claim is read; the expiry is not consulted. */
  function CheckPremium(user: Claims): (o: Outcome)
    ensures o.Halt? <==> !user.isPremium
    ensures o.Halt? ==> o.response == Response(403, Refusal("Premium feature", "This feature requires a premium subscription", false))
    ensures o.Next? ==> o.user == user
  {
    if !user.isPremium then Halt(Response(403, Refusal("Premium feature", "This feature requires a premium subscription", false)))
    else Next(user)
  }
}
