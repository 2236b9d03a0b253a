/**
 * Bearer-token handling on the server: the `authenticateJWT` middleware
 * that guards the profile routes, and the `/check-auth` introspection
 * endpoint. Signature and expiry checking is the `verify` oracle: it
 * yields the claims of a token that is well signed and unexpired.
 */
module Session {
  import opened Wrappers
  import opened Text
  import opened Accounts

  datatype AuthResult = Authenticated(claims: Claims) | Rejected(status: int, message: string)

  /** The header a client sends for a stored token. */
  function BearerHeader(token: string): string {
    "Bearer " + token
  }

  /**
   * `authenticateJWT`: an absent (or empty) header is 401; otherwise the
   * second space-separated word is the token, and a missing or empty token
   * (which `jwt.verify` always refuses) or an unverifiable one is 403.
   */
  function Authenticate(header: Option<string>, verify: string -> Option<Claims>): (r: AuthResult)
    ensures (header.None? || header == Some("")) <==> r == Rejected(401, "Authorization header missing")
    ensures r.Authenticated? ==>
      && header.Some? && |Split(header.value, ' ')| >= 2 && Split(header.value, ' ')[1] != ""
      && verify(Split(header.value, ' ')[1]) == Some(r.claims)
    ensures header.Some? && header.value != "" ==>
      var parts := Split(header.value, ' ');
      (|parts| < 2 || parts[1] == "" || verify(parts[1]).None?) <==> r == Rejected(403, "Invalid or expired token")
    ensures r.Rejected? ==> r.status in {401, 403}
  {
    if header.None? || header.value == "" then Rejected(401, "Authorization header missing")
    else
      var parts := Split(header.value, ' ');
      if |parts| < 2 || parts[1] == "" then Rejected(403, "Invalid or expired token")
      else
        match verify(parts[1])
        case None => Rejected(403, "Invalid or expired token")
        case Some(c) => Authenticated(c)
  }

  datatype CheckAuthReply = Authentic(user: Claims) | NotAuthentic(error: string)

  /** GET /check-auth: every failure is 401, including an invalid token. */
  function CheckAuth(header: Option<string>, verify: string -> Option<Claims>): (r: CheckAuthReply)
    ensures (header.None? || !StartsWith(header.value, "Bearer ")) ==>
      r == NotAuthentic("Missing or invalid Authorization header")
    ensures r.Authentic? ==> header.Some? && StartsWith(header.value, "Bearer ")
    ensures r.Authentic? ==>
      var parts := Split(header.value, ' ');
      |parts| >= 2 && parts[1] != "" && verify(parts[1]) == Some(r.user)
    ensures header.Some? && StartsWith(header.value, "Bearer ") ==>
      var parts := Split(header.value, ' ');
      && ((|parts| < 2 || parts[1] == "") <==> r == NotAuthentic("Token missing"))
      && (|parts| >= 2 && parts[1] != "" && verify(parts[1]).None? <==> r == NotAuthentic("Invalid or expired token"))
  {
    if header.None? || !StartsWith(header.value, "Bearer ") then
      NotAuthentic("Missing or invalid Authorization header")
    else
      var parts := Split(header.value, ' ');
      if |parts| < 2 || parts[1] == "" then NotAuthentic("Token missing")
      else
        match verify(parts[1])
        case None => NotAuthentic("Invalid or expired token")
        case Some(c) => Authentic(c)
  }

  /** The words of a bearer header: "Bearer" and the token. */
  lemma BearerWords(token: string)
    requires ' ' !in token
    ensures Split(BearerHeader(token), ' ') == ["Bearer", token]
  {
    assert BearerHeader(token) == "Bearer" + [' '] + token;
    SplitPrefix("Bearer", token, ' ');
    SplitSepFree(token, ' ');
  }

  /**
   * For a header carrying a space-free token, the middleware lets the
   * request through exactly when the token is non-empty and verifies, and
   * otherwise answers 403.
   */
  lemma {:induction false} MiddlewareOnBearer(token: string, verify: string -> Option<Claims>)
    requires ' ' !in token
    ensures token != "" && verify(token).Some? ==>
      Authenticate(Some(BearerHeader(token)), verify) == Authenticated(verify(token).value)
    ensures token == "" || verify(token).None? ==>
      Authenticate(Some(BearerHeader(token)), verify) == Rejected(403, "Invalid or expired token")
  {
    BearerWords(token);
  }

  /**
   * The middleware and `/check-auth` agree on who is authenticated for a
   * non-empty, space-free token; they differ only in the status of a bad
   * token (403 versus 401).
   */
  lemma {:induction false} CheckAuthAgreesWithMiddleware(token: string, verify: string -> Option<Claims>)
    requires ' ' !in token && token != ""
    ensures CheckAuth(Some(BearerHeader(token)), verify).Authentic?
        <==> Authenticate(Some(BearerHeader(token)), verify).Authenticated?
    ensures verify(token).None? ==> CheckAuth(Some(BearerHeader(token)), verify) == NotAuthentic("Invalid or expired token")
  {
    BearerWords(token);
    assert StartsWith(BearerHeader(token), "Bearer ");
  }
}
