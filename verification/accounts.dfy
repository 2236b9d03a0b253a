/**
 * The account lifecycle of the server: register, verify-email, login,
 * forgot-password, reset-password, resend-verification and the Google
 * find-or-create rule, over a user collection in natural order.
 *
 * Outside the model and passed in as parameters: the clock (`now`, in
 * milliseconds), freshly generated random tokens and object ids, the
 * password hasher (its output `digest`), the hash comparison (`matches`)
 * and whether the outgoing e-mail was delivered (`mailOk`).
 */
module Accounts {
  import opened Wrappers
  import opened Seqs
  import opened Text
  import opened Portfolio

  type Email = string
  type Token = string
  type Digest = string

  /** Lifetime of a reset token: one hour in milliseconds. */
  const ResetWindow: int := 3600000

  /** A stored password: a hash, or the fixed placeholder of an account created by Google sign-in. */
  datatype Secret = Hashed(digest: Digest) | GoogleSentinel

  datatype User = User(
    id: UserId,
    email: Email,
    password: Secret,
    isVerified: bool,
    verificationToken: Option<Token>,
    resetToken: Option<Token>,
    resetTokenExpiry: Option<int>,
    lastLogin: Option<int>,
    loginCount: nat)

  /** The user collection; a lookup returns the first matching document. */
  type Store = seq<User>

  /** The payload of a signed session token (7-day lifetime, left to the signer). */
  datatype Claims = Claims(id: UserId, email: Email)

  /** The public fields a successful login returns. */
  datatype PublicUser = PublicUser(id: UserId, email: Email, isVerified: bool)

  datatype Reply =
    | Registered(created: User)
    | Done(message: string)
    | LoggedIn(user: PublicUser, token: Claims)
    | RedirectTo(url: string)
    | Failed(status: int, message: string)

  datatype Step = Step(store: Store, reply: Reply)

  /** Some user has this e-mail. */
  predicate HasEmail(s: Store, email: Email) {
    exists i :: 0 <= i < |s| && s[i].email == email
  }

  /** A password check against a stored secret; the Google placeholder matches no password. */
  predicate Matches(matches: (string, Digest) -> bool, password: string, secret: Secret) {
    secret.Hashed? && matches(password, secret.digest)
  }

  /** The session token issued for a user. */
  function Issue(u: User): (c: Claims)
    ensures c.id == u.id && c.email == u.email
  {
    Claims(u.id, u.email)
  }

  /** No other user field than those named differs between `s` and `t` outside position `i`. */
  ghost predicate OthersUnchanged(s: Store, t: Store, i: nat) {
    |t| == |s| && i < |s| && forall j :: 0 <= j < |s| && j != i ==> t[j] == s[j]
  }

  // ---------------------------------------------------------------- register

  /** POST /register. */
  function Register(s: Store, email: Email, digest: Digest, token: Token, freshId: UserId, mailOk: bool): (r: Step)
    ensures HasEmail(s, email) ==> r == Step(s, Failed(400, "User already exists"))
    ensures !HasEmail(s, email) ==>
      && |r.store| == |s| + 1 && r.store[..|s|] == s
      && var u := r.store[|s|];
      && u.email == email && u.password == Hashed(digest) && u.id == freshId
      && !u.isVerified && u.verificationToken == Some(token)
      && u.resetToken.None? && u.resetTokenExpiry.None? && u.loginCount == 0
      && r.reply == (if mailOk then Registered(u) else Failed(500, "Internal server error"))
    ensures !r.reply.LoggedIn?
  {
    match FindFirst(s, (u: User) => u.email == email)
    case Some(_) => Step(s, Failed(400, "User already exists"))
    case None =>
      var u := User(freshId, email, Hashed(digest), false, Some(token), None, None, None, 0);
      assert (s + [u])[..|s|] == s;
      Step(s + [u], if mailOk then Registered(u) else Failed(500, "Internal server error"))
  }

  // ---------------------------------------------------------------- verify e-mail

  /** Some user holds this verification token. */
  predicate HoldsVerification(s: Store, token: Token) {
    exists i :: 0 <= i < |s| && s[i].verificationToken == Some(token)
  }

  /** GET /verify-email/:token. */
  function VerifyEmail(s: Store, token: Token): (r: Step)
    ensures !HoldsVerification(s, token) ==> r == Step(s, Failed(400, "Invalid or expired token"))
    ensures HoldsVerification(s, token) ==>
      && r.reply == RedirectTo("/login?verified=true")
      && (exists i: nat :: OthersUnchanged(s, r.store, i)
            && s[i].verificationToken == Some(token)
            && r.store[i] == s[i].(isVerified := true, verificationToken := None))
  {
    match FindFirst(s, (u: User) => u.verificationToken == Some(token))
    case None => Step(s, Failed(400, "Invalid or expired token"))
    case Some(i) =>
      var t := s[i := s[i].(isVerified := true, verificationToken := None)];
      assert OthersUnchanged(s, t, i);
      Step(t, RedirectTo("/login?verified=true"))
  }

  // ---------------------------------------------------------------- login

  /** POST /login. */
  function Login(s: Store, email: Email, password: string, matches: (string, Digest) -> bool, now: int): (r: Step)
    ensures !HasEmail(s, email) ==> r == Step(s, Failed(401, "User not found"))
    ensures HasEmail(s, email) ==>
      var i := FindFirst(s, (u: User) => u.email == email).value;
      && s[i].email == email
      && (!Matches(matches, password, s[i].password) ==> r == Step(s, Failed(401, "Invalid credentials")))
      && (Matches(matches, password, s[i].password) && !s[i].isVerified ==>
            r == Step(s, Failed(403, "Please verify your email first")))
      && (Matches(matches, password, s[i].password) && s[i].isVerified ==>
            && OthersUnchanged(s, r.store, i)
            && r.store[i] == s[i].(lastLogin := Some(now), loginCount := s[i].loginCount + 1)
            && r.reply == LoggedIn(PublicUser(s[i].id, email, true), Issue(s[i])))
    ensures r.reply.LoggedIn? || r.store == s
  {
    match FindFirst(s, (u: User) => u.email == email)
    case None => Step(s, Failed(401, "User not found"))
    case Some(i) =>
      var u := s[i];
      if !Matches(matches, password, u.password) then Step(s, Failed(401, "Invalid credentials"))
      else if !u.isVerified then Step(s, Failed(403, "Please verify your email first"))
      else
        var t := s[i := u.(lastLogin := Some(now), loginCount := u.loginCount + 1)];
        assert OthersUnchanged(s, t, i);
        Step(t, LoggedIn(PublicUser(u.id, u.email, u.isVerified), Issue(u)))
  }

  // ---------------------------------------------------------------- forgot / reset password

  /** POST /forgot-password: the reset token expires `ResetWindow` after `now`. */
  function ForgotPassword(s: Store, email: Email, token: Token, now: int, mailOk: bool): (r: Step)
    ensures !HasEmail(s, email) ==> r == Step(s, Failed(404, "User not found"))
    ensures HasEmail(s, email) ==>
      var i := FindFirst(s, (u: User) => u.email == email).value;
      && OthersUnchanged(s, r.store, i)
      && r.store[i] == s[i].(resetToken := Some(token), resetTokenExpiry := Some(now + ResetWindow))
      && r.reply == (if mailOk then Done("Reset link sent") else Failed(500, "Server error"))
  {
    match FindFirst(s, (u: User) => u.email == email)
    case None => Step(s, Failed(404, "User not found"))
    case Some(i) =>
      var t := s[i := s[i].(resetToken := Some(token), resetTokenExpiry := Some(now + ResetWindow))];
      assert OthersUnchanged(s, t, i);
      Step(t, if mailOk then Done("Reset link sent") else Failed(500, "Server error"))
  }

  /** The user holds this reset token and it has not expired (strictly later than `now`). */
  predicate ResetUsable(u: User, token: Token, now: int) {
    u.resetToken == Some(token) && u.resetTokenExpiry.Some? && u.resetTokenExpiry.value > now
  }

  /** POST /reset-password/:token. */
  function ResetPassword(s: Store, token: Token, digest: Digest, now: int): (r: Step)
    ensures (forall j :: 0 <= j < |s| ==> !ResetUsable(s[j], token, now)) ==>
      r == Step(s, Failed(400, "Invalid or expired token"))
    ensures (exists j :: 0 <= j < |s| && ResetUsable(s[j], token, now)) ==>
      && r.reply == Done("Password updated")
      && (exists i: nat :: OthersUnchanged(s, r.store, i)
            && ResetUsable(s[i], token, now)
            && r.store[i] == s[i].(password := Hashed(digest), resetToken := None, resetTokenExpiry := None))
  {
    match FindFirst(s, (u: User) => ResetUsable(u, token, now))
    case None => Step(s, Failed(400, "Invalid or expired token"))
    case Some(i) =>
      var t := s[i := s[i].(password := Hashed(digest), resetToken := None, resetTokenExpiry := None)];
      assert OthersUnchanged(s, t, i);
      Step(t, Done("Password updated"))
  }

  // ---------------------------------------------------------------- resend verification

  /** POST /resend-verification; an empty e-mail counts as missing. */
  function ResendVerification(s: Store, email: Email, token: Token, mailOk: bool): (r: Step)
    ensures email == "" ==> r == Step(s, Failed(400, "Email is required"))
    ensures email != "" && !HasEmail(s, email) ==> r == Step(s, Failed(404, "No account found with that email"))
    ensures email != "" && HasEmail(s, email) ==>
      var i := FindFirst(s, (u: User) => u.email == email).value;
      && (s[i].isVerified ==> r == Step(s, Failed(400, "Account already verified")))
      && (!s[i].isVerified ==>
            && OthersUnchanged(s, r.store, i)
            && r.store[i] == s[i].(verificationToken := Some(token))
            && r.reply == (if mailOk then Done("Verification email sent")
                           else Failed(500, "Failed to send verification email")))
  {
    if email == "" then Step(s, Failed(400, "Email is required"))
    else
      match FindFirst(s, (u: User) => u.email == email)
      case None => Step(s, Failed(404, "No account found with that email"))
      case Some(i) =>
        if s[i].isVerified then Step(s, Failed(400, "Account already verified"))
        else
          var t := s[i := s[i].(verificationToken := Some(token))];
          assert OthersUnchanged(s, t, i);
          Step(t, if mailOk then Done("Verification email sent") else Failed(500, "Failed to send verification email"))
  }

  // ---------------------------------------------------------------- Google sign-in

  datatype GoogleStep = GoogleStep(store: Store, token: Claims)

  /** The Google callback: find the user by e-mail or create a verified one, then issue a session token. */
  function GoogleSignIn(s: Store, email: Email, freshId: UserId): (r: GoogleStep)
    ensures HasEmail(s, email) ==>
      var i := FindFirst(s, (u: User) => u.email == email).value;
      r == GoogleStep(s, Issue(s[i]))
    ensures !HasEmail(s, email) ==>
      && r.store == s + [User(freshId, email, GoogleSentinel, true, None, None, None, None, 0)]
      && r.token == Claims(freshId, email)
    ensures r.token.email == email
  {
    match FindFirst(s, (u: User) => u.email == email)
    case Some(i) => GoogleStep(s, Issue(s[i]))
    case None =>
      var u := User(freshId, email, GoogleSentinel, true, None, None, None, None, 0);
      GoogleStep(s + [u], Issue(u))
  }
}
