/**
 * Properties that relate several handler calls: duplicate registration, the
 * life of a reset token, when the cache is transparent to login, and the
 * window in which a cached password hash outlives a password reset.
 */
module AuthProperties {
  import opened Wrappers
  import opened Crypto
  import opened Cache
  import opened Store
  import opened AuthController

  /** Registering the same email twice: the first call succeeds, the second is refused. */
  lemma {:induction false} SecondRegistrationWithSameEmailIsRefused(
    w: World, name1: string, name2: string, email: string, pw1: string, pw2: string,
    salt1: nat, salt2: nat, t1: int, t2: int, fails1: bool, fails2: bool)
    requires Consistent(w)
    requires RegisterStep(w, true, name1, email, pw1, salt1, t1, fails1).outcome == Registered
    ensures var w1 := RegisterStep(w, true, name1, email, pw1, salt1, t1, fails1).world;
      RegisterStep(w1, true, name2, email, pw2, salt2, t2, fails2) == Step(w1, UserExists)
  {
  }

  /** The same holds for a username: it is taken once registered, whatever the email. */
  lemma {:induction false} SecondRegistrationWithSameUsernameIsRefused(
    w: World, name: string, email1: string, email2: string, pw1: string, pw2: string,
    salt1: nat, salt2: nat, t1: int, t2: int, fails1: bool, fails2: bool)
    requires Consistent(w)
    requires RegisterStep(w, true, name, email1, pw1, salt1, t1, fails1).outcome == Registered
    ensures var w1 := RegisterStep(w, true, name, email1, pw1, salt1, t1, fails1).world;
      RegisterStep(w1, true, name, email2, pw2, salt2, t2, fails2) == Step(w1, UserExists)
  {
  }

  /** A `user:email:` entry, live or expired, always belongs to a stored user with that email. */
  lemma EmailEntryHasOwner(w: World, email: string)
    requires Consistent(w)
    ensures EmailKey(email) in w.cache ==> HasEmail(w.users, email)
  {
  }

  /**
   * A freshly registered user can log in with the registered password at any
   * time, whatever the cache does: registration writes no `user:email:` entry,
   * so login reads the store.
   */
  lemma {:induction false} LoginAfterRegistrationSucceeds(
    w: World, name: string, email: string, pw: string, salt: nat, t: int, regFails: bool,
    now: int, getFails: bool, setPublicFails: bool, setFullFails: bool)
    requires Consistent(w)
    requires RegisterStep(w, true, name, email, pw, salt, t, regFails).outcome == Registered
    ensures var w1 := RegisterStep(w, true, name, email, pw, salt, t, regFails).world;
      LoginStep(w1, email, pw, now, getFails, setPublicFails, setFullFails).outcome == LoggedIn
  {
  }

  /**
   * While the email's cached hash is not stale, the cache is invisible to
   * login: it succeeds exactly when the store holds a user with that email
   * whose hash verifies the password, whatever the cache client does.
   */
  lemma {:induction false} LoginAgreesWithStore(
    w: World, email: string, pw: string, now: int, getFails: bool, setPublicFails: bool, setFullFails: bool)
    requires Consistent(w) && HashCurrentFor(w, email)
    ensures LoginStep(w, email, pw, now, getFails, setPublicFails, setFullFails).outcome == LoggedIn
        <==> exists id :: id in w.users && w.users[id].email == email && Compare(pw, w.users[id].password)
  {
  }

  /** Registration keeps every cached hash current: it writes only the public projection. */
  lemma RegisterKeepsHashesCurrent(w: World, valid: bool, name: string, email: string, pw: string,
                                   salt: nat, t: int, fails: bool)
    requires Consistent(w) && NoStaleHash(w)
    ensures NoStaleHash(RegisterStep(w, valid, name, email, pw, salt, t, fails).world)
  {
  }

  /** Login keeps every cached hash current: what it caches is the store's current hash. */
  lemma LoginKeepsHashesCurrent(w: World, email: string, pw: string, now: int,
                                getFails: bool, setPublicFails: bool, setFullFails: bool)
    requires Consistent(w) && NoStaleHash(w)
    ensures NoStaleHash(LoginStep(w, email, pw, now, getFails, setPublicFails, setFullFails).world)
  {
  }

  /** Login keeps one email's cached hash current, whichever email logs in. */
  lemma LoginKeepsHashCurrentFor(w: World, e: string, email: string, pw: string, now: int,
                                 getFails: bool, setPublicFails: bool, setFullFails: bool)
    requires Consistent(w) && HashCurrentFor(w, e)
    ensures HashCurrentFor(LoginStep(w, email, pw, now, getFails, setPublicFails, setFullFails).world, e)
  {
  }

  /**
   * A password reset leaves a cached hash in place: at any time `later` at
   * which the `user:email:` entry is still live, the old password still logs
   * in and the new one is refused, although the store now holds only the new
   * hash.
   */
  lemma {:induction false} StaleHashWindow(
    w: World, email: string, oldPw: string, raw: string, newPw: string, salt: nat, now: int, later: int,
    setPublicFails: bool, setFullFails: bool)
    requires Consistent(w)
    requires CacheHit(w, email, later, false).Some?
    requires CacheHit(w, email, later, false).value.password.Some?
    requires Compare(oldPw, CacheHit(w, email, later, false).value.password.value)
    requires Key(oldPw) != Key(newPw)
    requires ResetPasswordStep(w, raw, newPw, salt, now).outcome == PasswordReset
    requires w.tokens[FindToken(w.tokens, Digest(raw), now).value].userId == CacheHit(w, email, later, false).value.id
    ensures var w1 := ResetPasswordStep(w, raw, newPw, salt, now).world;
      var id := CacheHit(w, email, later, false).value.id;
      && id in w1.users
      && !Compare(oldPw, w1.users[id].password)
      && Compare(newPw, w1.users[id].password)
      && LoginStep(w1, email, oldPw, later, false, setPublicFails, setFullFails).outcome == LoggedIn
      && LoginStep(w1, email, newPw, later, false, setPublicFails, setFullFails).outcome == InvalidCredentials
  {
  }

  /**
   * Without a live cached hash for the email (none stored, expired, or the
   * cache read fails), login after a reset follows the store: the new
   * password logs in, and the old one is refused unless bcrypt cannot tell
   * it from the new one.
   */
  lemma {:induction false} LoginAfterResetWithoutCache(
    w: World, email: string, oldPw: string, raw: string, newPw: string, salt: nat, now: int, later: int,
    getFails: bool, setPublicFails: bool, setFullFails: bool)
    requires Consistent(w)
    requires Key(oldPw) != Key(newPw)
    requires ResetPasswordStep(w, raw, newPw, salt, now).outcome == PasswordReset
    requires var id := w.tokens[FindToken(w.tokens, Digest(raw), now).value].userId;
      id in w.users && w.users[id].email == email
    requires CacheHit(ResetPasswordStep(w, raw, newPw, salt, now).world, email, later, getFails).None?
    ensures var w1 := ResetPasswordStep(w, raw, newPw, salt, now).world;
      && LoginStep(w1, email, newPw, later, getFails, setPublicFails, setFullFails).outcome == LoggedIn
      && LoginStep(w1, email, oldPw, later, getFails, setPublicFails, setFullFails).outcome == InvalidCredentials
  {
  }

  /** A token issued by forgot-password is redeemable until, strictly, an hour after issue. */
  lemma {:induction false} IssuedTokenRedeemsBeforeExpiry(
    w: World, email: string, raw: string, issuedAt: int, clientUrl: string, mailFails: bool,
    newPw: string, salt: nat, now: int)
    requires Consistent(w)
    requires forall j :: 0 <= j < |w.tokens| ==> w.tokens[j].token != Digest(raw)
    requires ForgotPasswordStep(w, email, raw, issuedAt, clientUrl, mailFails).outcome == ResetEmailSent
    requires now < issuedAt + ResetTokenLifetime
    ensures var w1 := ForgotPasswordStep(w, email, raw, issuedAt, clientUrl, mailFails).world;
      ResetPasswordStep(w1, raw, newPw, salt, now).outcome == PasswordReset
  {
  }

  /** Once an hour has passed, the issued token is refused even if it was never used. */
  lemma {:induction false} IssuedTokenExpires(
    w: World, email: string, raw: string, issuedAt: int, clientUrl: string, mailFails: bool,
    newPw: string, salt: nat, now: int)
    requires Consistent(w)
    requires forall j :: 0 <= j < |w.tokens| ==> w.tokens[j].token != Digest(raw)
    requires now >= issuedAt + ResetTokenLifetime
    ensures var w1 := ForgotPasswordStep(w, email, raw, issuedAt, clientUrl, mailFails).world;
      ResetPasswordStep(w1, raw, newPw, salt, now) == Step(w1, InvalidOrExpiredToken)
  {
  }

  /** Issuing a token whose digest is new keeps the stored digests distinct. */
  lemma IssuingFreshTokenKeepsDigestsDistinct(
    w: World, email: string, raw: string, now: int, clientUrl: string, mailFails: bool)
    requires Consistent(w)
    requires DistinctDigests(w.tokens)
    requires forall j :: 0 <= j < |w.tokens| ==> w.tokens[j].token != Digest(raw)
    ensures DistinctDigests(ForgotPasswordStep(w, email, raw, now, clientUrl, mailFails).world.tokens)
  {
    var w1 := ForgotPasswordStep(w, email, raw, now, clientUrl, mailFails).world;
    if HasEmail(w.users, email) {
      var t := w1.tokens[|w.tokens|];
      assert w1.tokens == w.tokens + [t];
      FreshDigestKeepsDistinct(w.tokens, t);
    }
  }

  /**
   * A token is used at most once: after a reset succeeds, the same raw token
   * is refused at any later time, and the stored digests stay distinct.
   */
  lemma {:induction false} TokenIsSingleUse(
    w: World, raw: string, newPw: string, salt: nat, now: int,
    newPw2: string, salt2: nat, later: int)
    requires Consistent(w)
    requires DistinctDigests(w.tokens)
    requires ResetPasswordStep(w, raw, newPw, salt, now).outcome == PasswordReset
    ensures var w1 := ResetPasswordStep(w, raw, newPw, salt, now).world;
      && DistinctDigests(w1.tokens)
      && ResetPasswordStep(w1, raw, newPw2, salt2, later) == Step(w1, InvalidOrExpiredToken)
  {
    RedeemedTokenIsGone(w.tokens, Digest(raw), now, FindToken(w.tokens, Digest(raw), now).value);
  }

  /** Whether the reset mail is delivered does not change the answer or the stored token. */
  lemma MailFailureIsInvisible(w: World, email: string, raw: string, now: int, clientUrl: string)
    requires Consistent(w)
    ensures var sent := ForgotPasswordStep(w, email, raw, now, clientUrl, false);
      var lost := ForgotPasswordStep(w, email, raw, now, clientUrl, true);
      sent.outcome == lost.outcome && sent.world.tokens == lost.world.tokens
  {
  }

  /**
   * A login that misses the cache and finds the user fills both keyspaces:
   * until the default time to live runs out, `user:<id>` reads as the public
   * projection and `user:email:<email>` as the full one, whatever the password.
   */
  lemma LoginMissCachesBothProjections(w: World, email: string, pw: string, now: int, getFails: bool,
                                       id: UserId, later: int)
    requires Consistent(w)
    requires CacheHit(w, email, now, getFails).None?
    requires id in w.users && w.users[id].email == email
    requires later <= now + DefaultExpiration * 1000
    ensures var w1 := LoginStep(w, email, pw, now, getFails, false, false).world;
      && Lookup(w1.cache, UserKey(id), later) == Some(PublicProjection(id, w.users[id]))
      && Lookup(w1.cache, EmailKey(email), later) == Some(FullProjection(id, w.users[id]))
  {
  }

  /**
   * Register, log in, log out, log in again, then try a wrong password: the
   * two logins with the registered password succeed, logout empties the
   * session, and a password bcrypt tells apart from the registered one is
   * refused without touching the session, whatever the cache client does on
   * each call. Other users' cached hashes may be stale; the new user's never is.
   */
  lemma {:induction false} RegisterLoginLogoutScenario(
    w: World, name: string, email: string, pw: string, wrong: string, salt: nat, t0: int, f0: bool,
    t1: int, g1: bool, p1: bool, q1: bool,
    t2: int, g2: bool, p2: bool, q2: bool,
    t3: int, g3: bool, p3: bool, q3: bool)
    requires Consistent(w)
    requires Key(wrong) != Key(pw)
    requires RegisterStep(w, true, name, email, pw, salt, t0, f0).outcome == Registered
    ensures var w1 := RegisterStep(w, true, name, email, pw, salt, t0, f0).world;
      var l1 := LoginStep(w1, email, pw, t1, g1, p1, q1);
      var w2 := LogoutStep(l1.world).world;
      var l2 := LoginStep(w2, email, pw, t2, g2, p2, q2);
      var l3 := LoginStep(l2.world, email, wrong, t3, g3, p3, q3);
      && l1.outcome == LoggedIn && l1.world.session == Some(w.nextId)
      && w2.session == None
      && l2.outcome == LoggedIn && l2.world.session == Some(w.nextId)
      && l3.outcome == InvalidCredentials && l3.world.session == Some(w.nextId)
  {
    var id := w.nextId;
    var w1 := RegisterStep(w, true, name, email, pw, salt, t0, f0).world;
    EmailEntryHasOwner(w, email);
    assert EmailKey(email) !in w1.cache;
    assert id in w1.users && w1.users[id].email == email && Compare(pw, w1.users[id].password);
    assert !Compare(wrong, w1.users[id].password);
    forall other | other in w1.users && w1.users[other].email == email
      ensures other == id
    {
      EmailOwnerIsUnique(w1, email, other, id);
    }
    LoginAgreesWithStore(w1, email, pw, t1, g1, p1, q1);
    var l1 := LoginStep(w1, email, pw, t1, g1, p1, q1);
    LoginKeepsHashCurrentFor(w1, email, email, pw, t1, g1, p1, q1);
    var w2 := LogoutStep(l1.world).world;
    LoginAgreesWithStore(w2, email, pw, t2, g2, p2, q2);
    var l2 := LoginStep(w2, email, pw, t2, g2, p2, q2);
    LoginKeepsHashCurrentFor(w2, email, email, pw, t2, g2, p2, q2);
    LoginAgreesWithStore(l2.world, email, wrong, t3, g3, p3, q3);
  }
}
