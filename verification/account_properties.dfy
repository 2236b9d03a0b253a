/**
 * Properties of the account lifecycle: the store invariant every workflow
 * keeps, single-use tokens, the one-hour reset window, and the
 * register / verify / login scenario.
 */
module AccountProperties {
  import opened Wrappers
  import opened Seqs
  import opened Accounts
  import opened Portfolio

  /** Per-user consistency: a verified account holds no verification token, a reset token always has an expiry, and Google-created accounts are verified. */
  ghost predicate UserOk(u: User) {
    && (u.isVerified ==> u.verificationToken.None?)
    && (u.resetToken.Some? <==> u.resetTokenExpiry.Some?)
    && (u.password.GoogleSentinel? ==> u.isVerified)
  }

  /** The store invariant: consistent users, unique e-mails and ids, and no token held twice. */
  ghost predicate Valid(s: Store) {
    && (forall i :: 0 <= i < |s| ==> UserOk(s[i]))
    && (forall i, j :: 0 <= i < j < |s| ==> s[i].email != s[j].email && s[i].id != s[j].id)
    && (forall i, j :: 0 <= i < j < |s| && s[i].verificationToken.Some? ==> s[i].verificationToken != s[j].verificationToken)
    && (forall i, j :: 0 <= i < j < |s| && s[i].resetToken.Some? ==> s[i].resetToken != s[j].resetToken)
  }

  /** A freshly generated token is held by nobody. */
  ghost predicate FreshToken(s: Store, t: Token) {
    forall i :: 0 <= i < |s| ==> s[i].verificationToken != Some(t) && s[i].resetToken != Some(t)
  }

  /** A freshly generated object id belongs to nobody. */
  ghost predicate FreshId(s: Store, id: UserId) {
    forall i :: 0 <= i < |s| ==> s[i].id != id
  }

  /** In a valid store the user found by e-mail is the only one with that e-mail. */
  lemma FindByEmailUnique(s: Store, email: Email, i: nat)
    requires Valid(s) && i < |s| && s[i].email == email
    ensures FindFirst(s, (u: User) => u.email == email) == Some(i)
  {
    var r := FindFirst(s, (u: User) => u.email == email);
    assert r.Some?;
  }

  // ---------------------------------------------------------------- the invariant is kept

  lemma {:induction false} RegisterKeepsValid(s: Store, email: Email, digest: Digest, t: Token, id: UserId, mailOk: bool)
    requires Valid(s) && FreshToken(s, t) && FreshId(s, id)
    ensures Valid(Register(s, email, digest, t, id, mailOk).store)
  {
    var r := Register(s, email, digest, t, id, mailOk);
    if !HasEmail(s, email) {
      assert r.store == s + [r.store[|s|]];
    }
  }

  lemma {:induction false} VerifyEmailKeepsValid(s: Store, t: Token)
    requires Valid(s)
    ensures Valid(VerifyEmail(s, t).store)
  {
    var r := VerifyEmail(s, t);
    if HoldsVerification(s, t) {
      var i: nat :| OthersUnchanged(s, r.store, i)
        && s[i].verificationToken == Some(t)
        && r.store[i] == s[i].(isVerified := true, verificationToken := None);
      assert forall j :: 0 <= j < |s| ==> r.store[j] == (if j == i then s[i].(isVerified := true, verificationToken := None) else s[j]);
    }
  }

  lemma {:induction false} LoginKeepsValid(s: Store, email: Email, pw: string, matches: (string, Digest) -> bool, now: int)
    requires Valid(s)
    ensures Valid(Login(s, email, pw, matches, now).store)
  {
    var r := Login(s, email, pw, matches, now);
    if r.store != s {
      var i := FindFirst(s, (u: User) => u.email == email).value;
      assert forall j :: 0 <= j < |s| ==> r.store[j] == (if j == i then s[i].(lastLogin := Some(now), loginCount := s[i].loginCount + 1) else s[j]);
    }
  }

  lemma {:induction false} ForgotPasswordKeepsValid(s: Store, email: Email, t: Token, now: int, mailOk: bool)
    requires Valid(s) && FreshToken(s, t)
    ensures Valid(ForgotPassword(s, email, t, now, mailOk).store)
  {
    var r := ForgotPassword(s, email, t, now, mailOk);
    if HasEmail(s, email) {
      var i := FindFirst(s, (u: User) => u.email == email).value;
      assert forall j :: 0 <= j < |s| ==> r.store[j] == (if j == i then s[i].(resetToken := Some(t), resetTokenExpiry := Some(now + ResetWindow)) else s[j]);
    }
  }

  lemma {:induction false} ResetPasswordKeepsValid(s: Store, t: Token, digest: Digest, now: int)
    requires Valid(s)
    ensures Valid(ResetPassword(s, t, digest, now).store)
  {
    var r := ResetPassword(s, t, digest, now);
    if exists j :: 0 <= j < |s| && ResetUsable(s[j], t, now) {
      var i: nat :| OthersUnchanged(s, r.store, i)
        && ResetUsable(s[i], t, now)
        && r.store[i] == s[i].(password := Hashed(digest), resetToken := None, resetTokenExpiry := None);
      assert forall j :: 0 <= j < |s| ==> r.store[j] == (if j == i then s[i].(password := Hashed(digest), resetToken := None, resetTokenExpiry := None) else s[j]);
    }
  }

  lemma {:induction false} ResendKeepsValid(s: Store, email: Email, t: Token, mailOk: bool)
    requires Valid(s) && FreshToken(s, t)
    ensures Valid(ResendVerification(s, email, t, mailOk).store)
  {
    var r := ResendVerification(s, email, t, mailOk);
    if email != "" && HasEmail(s, email) {
      var i := FindFirst(s, (u: User) => u.email == email).value;
      assert forall j :: 0 <= j < |s| ==> r.store[j] == (if j == i && !s[i].isVerified then s[i].(verificationToken := Some(t)) else s[j]);
    }
  }

  lemma {:induction false} GoogleKeepsValid(s: Store, email: Email, id: UserId)
    requires Valid(s) && FreshId(s, id)
    ensures Valid(GoogleSignIn(s, email, id).store)
  {
  }

  // ---------------------------------------------------------------- tokens

  /** A verification token works once: replaying it fails with 400. */
  lemma {:induction false} VerificationTokenSingleUse(s: Store, t: Token)
    requires Valid(s) && HoldsVerification(s, t)
    ensures VerifyEmail(s, t).reply.RedirectTo?
    ensures VerifyEmail(VerifyEmail(s, t).store, t).reply == Failed(400, "Invalid or expired token")
  {
    var r := VerifyEmail(s, t);
    var i: nat :| OthersUnchanged(s, r.store, i)
      && s[i].verificationToken == Some(t)
      && r.store[i] == s[i].(isVerified := true, verificationToken := None);
    assert forall j :: 0 <= j < |s| && j != i ==> r.store[j] == s[j];
  }

  /** A reset token works once: after a successful reset the same token is rejected. */
  lemma {:induction false} ResetTokenSingleUse(s: Store, t: Token, d1: Digest, d2: Digest, now: int, later: int)
    requires Valid(s)
    requires exists j :: 0 <= j < |s| && ResetUsable(s[j], t, now)
    ensures ResetPassword(s, t, d1, now).reply == Done("Password updated")
    ensures ResetPassword(ResetPassword(s, t, d1, now).store, t, d2, later).reply == Failed(400, "Invalid or expired token")
  {
    var r := ResetPassword(s, t, d1, now);
    var i: nat :| OthersUnchanged(s, r.store, i)
      && ResetUsable(s[i], t, now)
      && r.store[i] == s[i].(password := Hashed(d1), resetToken := None, resetTokenExpiry := None);
    assert forall j :: 0 <= j < |s| && j != i ==> r.store[j] == s[j];
  }

  /**
   * A reset token issued at `issued` is accepted at `now` exactly while
   * `now < issued + ResetWindow`: the expiry instant itself is already too late.
   */
  lemma {:induction false} ResetWindowIsStrict(s: Store, email: Email, t: Token, issued: int, d: Digest, now: int)
    requires Valid(s) && FreshToken(s, t) && HasEmail(s, email)
    ensures var s1 := ForgotPassword(s, email, t, issued, true).store;
      ResetPassword(s1, t, d, now).reply == (if now < issued + ResetWindow then Done("Password updated")
                                              else Failed(400, "Invalid or expired token"))
  {
    var i := FindFirst(s, (u: User) => u.email == email).value;
    var s1 := ForgotPassword(s, email, t, issued, true).store;
    assert s1[i].resetToken == Some(t) && s1[i].resetTokenExpiry == Some(issued + ResetWindow);
    if now < issued + ResetWindow {
      assert ResetUsable(s1[i], t, now);
    } else {
      forall j | 0 <= j < |s1| ensures !ResetUsable(s1[j], t, now) {
        if j != i { assert s1[j] == s[j]; }
      }
    }
  }

  /** Requesting a second reset link invalidates the first one. */
  lemma {:induction false} NewerResetTokenRevokesOlder(s: Store, email: Email, t1: Token, t2: Token, n1: int, n2: int, d: Digest, now: int)
    requires Valid(s) && FreshToken(s, t1) && HasEmail(s, email) && t1 != t2
    ensures var s1 := ForgotPassword(s, email, t1, n1, true).store;
      var s2 := ForgotPassword(s1, email, t2, n2, true).store;
      ResetPassword(s2, t1, d, now).reply == Failed(400, "Invalid or expired token")
  {
    var i := FindFirst(s, (u: User) => u.email == email).value;
    var s1 := ForgotPassword(s, email, t1, n1, true).store;
    assert s1[i].email == email;
    FindByEmailUnique(s, email, i);
    assert HasEmail(s1, email);
    var k := FindFirst(s1, (u: User) => u.email == email).value;
    assert k == i;
    var s2 := ForgotPassword(s1, email, t2, n2, true).store;
    forall j | 0 <= j < |s2| ensures !ResetUsable(s2[j], t1, now) {
      if j != i { assert s2[j] == s[j]; }
    }
  }

  // ---------------------------------------------------------------- login

  /** An account created by Google sign-in cannot log in with any password. */
  lemma GooglePlaceholderNeverMatches(s: Store, email: Email, id: UserId, pw: string, matches: (string, Digest) -> bool, now: int)
    requires Valid(s) && !HasEmail(s, email)
    ensures var s1 := GoogleSignIn(s, email, id).store;
      Login(s1, email, pw, matches, now) == Step(s1, Failed(401, "Invalid credentials"))
  {
    var s1 := GoogleSignIn(s, email, id).store;
    assert s1[|s|].email == email;
    assert FindFirst(s1, (u: User) => u.email == email) == Some(|s|);
  }

  /**
   * The register / verify / login scenario: before verification the login
   * is refused with 403; after it the first login counts 1 and the second 2.
   */
  lemma {:induction false} RegisterVerifyLogin(s: Store, email: Email, pw: string, digest: Digest, t: Token, id: UserId,
                                               matches: (string, Digest) -> bool, n1: int, n2: int)
    requires Valid(s) && !HasEmail(s, email) && FreshToken(s, t) && matches(pw, digest)
    ensures var s1 := Register(s, email, digest, t, id, true).store;
      && Login(s1, email, pw, matches, n1).reply == Failed(403, "Please verify your email first")
      && var s2 := VerifyEmail(s1, t).store;
      && var l1 := Login(s2, email, pw, matches, n1);
      && l1.reply.LoggedIn? && l1.store[|s|].loginCount == 1
      && var l2 := Login(l1.store, email, pw, matches, n2);
      && l2.reply.LoggedIn? && l2.store[|s|].loginCount == 2 && l2.store[|s|].lastLogin == Some(n2)
  {
    var n := |s|;
    var s1 := Register(s, email, digest, t, id, true).store;
    assert s1[n].email == email;
    assert forall j :: 0 <= j < n ==> s1[j] == s[j];
    assert FindFirst(s1, (u: User) => u.email == email) == Some(n);
    assert FindFirst(s1, (u: User) => u.verificationToken == Some(t)) == Some(n);
    var s2 := VerifyEmail(s1, t).store;
    assert s2 == s1[n := s1[n].(isVerified := true, verificationToken := None)];
    assert FindFirst(s2, (u: User) => u.email == email) == Some(n);
    var l1 := Login(s2, email, pw, matches, n1);
    assert l1.store == s2[n := s2[n].(lastLogin := Some(n1), loginCount := 1)];
    assert FindFirst(l1.store, (u: User) => u.email == email) == Some(n);
  }
}
