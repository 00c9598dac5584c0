/**
 * The authentication controller: register, login, logout, forgot-password
 * and reset-password over four pieces of state: the user collection, the
 * reset-token collection, the Redis cache with its two per-user keyspaces,
 * and the session slot of the client making the requests.
 *
 * Each handler is first given as a step function over a `World` value, whose
 * contract states what the handler promises; `Controller` then carries the
 * same state in fields and implements each handler step by step, proved to
 * agree with its step function. A handler is one atomic step. Clock, salt,
 * raw token and every client failure are inputs.
 */
module AuthController {
  import opened Wrappers
  import opened Crypto
  import opened Cache
  import opened Store

  /** The two cache keyspaces for a user: `user:<id>` and `user:email:<email>`. */
  datatype CacheKey = UserKey(id: UserId) | EmailKey(email: string)

  /** A cached user record; the public projection carries no password. */
  datatype CachedUser = CachedUser(id: UserId, username: string, email: string,
                                   password: Option<PasswordHash>, createdAt: int)

  /** What `user:<id>` holds: id, username, email and creation time. */
  function PublicProjection(id: UserId, u: User): CachedUser
  {
    CachedUser(id, u.username, u.email, None, u.createdAt)
  }

  /** What `user:email:<email>` holds: the public projection plus the password hash. */
  function FullProjection(id: UserId, u: User): CachedUser
  {
    CachedUser(id, u.username, u.email, Some(u.password), u.createdAt)
  }

  /** A mail handed to the transport. */
  datatype Mail = Mail(to: string, subject: string, text: string)

  /** How long a reset token stays redeemable: one hour, in ms. */
  const ResetTokenLifetime: int := 3600000

  /** The session cookie that logout clears. */
  const SessionCookie: string := "connect.sid"

  /** The reset mail to the user's address: its link ends in the raw token, which is never stored. */
  function ResetMail(to: string, clientUrl: string, raw: string): (m: Mail)
    ensures m.to == to && m.subject == "Password Reset"
    ensures |m.text| >= |raw| && m.text[|m.text| - |raw|..] == raw
  {
    Mail(to, "Password Reset",
         "You requested a password reset. Please make a PUT request to: " + clientUrl + "/reset-password/" + raw)
  }

  /** The answers the handlers give. */
  datatype Outcome =
    | ValidationFailed | UserExists | Registered
    | InvalidCredentials | LoggedIn | LoggedOut
    | EmailNotFound | ResetEmailSent
    | InvalidOrExpiredToken | UserNotFound | PasswordReset
    | ServerError  // login's 500, whose body key is "message"

  /** An HTTP answer: status, the JSON body's key and text, and the cookie it clears. */
  datatype Reply = Reply(status: int, key: string, text: Option<string>, clearCookie: Option<string>)

  /**
   * The answer each outcome is sent as. Statuses: 201 only for a registration,
   * 401 only for refused credentials, 500 only for a server error, 200 for the
   * other successes and 400 for the other refusals. The register, login and
   * logout handlers answer under "message" and the reset handlers under "msg";
   * a validation failure sends its error list instead of a text; only logout
   * clears a cookie, the session cookie.
   */
  function Respond(o: Outcome): (r: Reply)
    ensures r.status == 201 <==> o == Registered
    ensures r.status == 401 <==> o == InvalidCredentials
    ensures r.status == 500 <==> o == ServerError
    ensures r.status == 200 <==> o in {LoggedIn, LoggedOut, ResetEmailSent, PasswordReset}
    ensures r.status == 400 <==> o in {ValidationFailed, UserExists, EmailNotFound, InvalidOrExpiredToken, UserNotFound}
    ensures r.key == "msg" <==> o in {EmailNotFound, ResetEmailSent, InvalidOrExpiredToken, UserNotFound, PasswordReset}
    ensures r.key == "errors" <==> o == ValidationFailed
    ensures r.text.None? <==> o == ValidationFailed
    ensures r.clearCookie.Some? <==> o == LoggedOut
    ensures r.clearCookie.Some? ==> r.clearCookie.value == SessionCookie
  {
    match o
    case ValidationFailed => Reply(400, "errors", None, None)
    case UserExists => Reply(400, "message", Some("User already exists"), None)
    case Registered => Reply(201, "message", Some("User registered successfully"), None)
    case InvalidCredentials => Reply(401, "message", Some("Invalid credentials"), None)
    case LoggedIn => Reply(200, "message", Some("Logged in successfully"), None)
    case LoggedOut => Reply(200, "message", Some("Logged out successfully"), Some(SessionCookie))
    case EmailNotFound => Reply(400, "msg", Some("User with this email does not exist"), None)
    case ResetEmailSent => Reply(200, "msg", Some("Password reset email sent"), None)
    case InvalidOrExpiredToken => Reply(400, "msg", Some("Invalid or expired token"), None)
    case UserNotFound => Reply(400, "msg", Some("User not found"), None)
    case PasswordReset => Reply(200, "msg", Some("Password reset successful"), None)
    case ServerError => Reply(500, "message", Some("Server error"), None)
  }

  /** Everything a handler can read or change. */
  datatype World = World(users: map<UserId, User>, nextId: UserId, tokens: seq<ResetToken>,
                         cache: map<CacheKey, Entry<CachedUser>>, session: Option<UserId>,
                         outbox: seq<Mail>)

  /** The state after a handler and its answer. */
  datatype Step = Step(world: World, outcome: Outcome)

  /** Every user id in use was handed out before `nextId`. */
  predicate IdsIssued(users: map<UserId, User>, nextId: UserId)
  {
    forall id :: id in users ==> id < nextId
  }

  /** No two users share an email or a username. */
  predicate UniqueCredentials(users: map<UserId, User>)
  {
    forall a, b :: a in users && b in users && a != b ==>
      users[a].email != users[b].email && users[a].username != users[b].username
  }

  /**
   * A cache entry agrees with the store: `user:<id>` holds that user's public
   * projection, and `user:email:<e>` the full projection of the user with
   * email e, except that its password hash may be older than the store's.
   */
  predicate Coherent(users: map<UserId, User>, k: CacheKey, v: CachedUser)
  {
    match k
    case UserKey(id) => id in users && v == PublicProjection(id, users[id])
    case EmailKey(e) =>
      v.id in users && users[v.id].email == e && v.password.Some?
      && v == FullProjection(v.id, users[v.id]).(password := v.password)
  }

  /** The invariant every handler keeps. */
  ghost predicate Consistent(w: World)
  {
    && IdsIssued(w.users, w.nextId)
    && UniqueCredentials(w.users)
    && forall k :: k in w.cache ==> Coherent(w.users, k, w.cache[k].value)
  }

  /** The cached hash for this email, if there is one, is the store's current one. */
  ghost predicate HashCurrentFor(w: World, email: string)
  {
    EmailKey(email) in w.cache ==>
      var v := w.cache[EmailKey(email)].value;
      v.id in w.users && v.password == Some(w.users[v.id].password)
  }

  /** Every cached password hash is the store's current one. */
  ghost predicate NoStaleHash(w: World)
  {
    forall k :: k in w.cache && k.EmailKey? ==> HashCurrentFor(w, k.email)
  }

  /** Some stored user has this email or this username. */
  ghost predicate Taken(users: map<UserId, User>, email: string, username: string)
  {
    exists id :: id in users && (users[id].email == email || users[id].username == username)
  }

  /** Some stored user has this email. */
  ghost predicate HasEmail(users: map<UserId, User>, email: string)
  {
    exists id :: id in users && users[id].email == email
  }

  /** What the login's read of `user:email:<email>` returns: a live entry, unless the client fails. */
  function CacheHit(w: World, email: string, now: int, getFails: bool): (r: Option<CachedUser>)
    ensures r.Some? <==> !getFails && EmailKey(email) in w.cache && now <= w.cache[EmailKey(email)].expiresAt
    ensures r.Some? ==> r.value == w.cache[EmailKey(email)].value
  {
    if getFails then None else Lookup(w.cache, EmailKey(email), now)
  }

  /**
   * `register`: a validation failure or a taken email or username is refused
   * with nothing changed; otherwise exactly one user is added under a fresh id,
   * holding the bcrypt hash of the password, and only `user:<id>` is cached.
   */
  function RegisterStep(w: World, valid: bool, username: string, email: string, password: string,
                        saltNonce: nat, now: int, cacheFails: bool): (r: Step)
    requires Consistent(w)
    ensures Consistent(r.world)
    ensures !valid ==> r == Step(w, ValidationFailed)
    ensures valid && Taken(w.users, email, username) ==> r == Step(w, UserExists)
    ensures valid && !Taken(w.users, email, username) ==>
      var id := w.nextId;
      && r.outcome == Registered
      && id !in w.users
      && r.world.users.Keys == w.users.Keys + {id}
      && |r.world.users| == |w.users| + 1
      && (forall other :: other in w.users ==> r.world.users[other] == w.users[other])
      && r.world.users[id].username == username
      && r.world.users[id].email == email
      && r.world.users[id].createdAt == now
      && (forall p :: Compare(p, r.world.users[id].password) <==> Key(p) == Key(password))
      && (forall k :: k != UserKey(id) ==>
            (k in r.world.cache <==> k in w.cache) && (k in w.cache ==> r.world.cache[k] == w.cache[k]))
      && (cacheFails ==> r.world.cache == w.cache)
      && (!cacheFails ==>
            UserKey(id) in r.world.cache
            && r.world.cache[UserKey(id)] == Entry(PublicProjection(id, r.world.users[id]), now + DefaultExpiration * 1000))
      && r.world.tokens == w.tokens && r.world.session == w.session && r.world.outbox == w.outbox
  {
    if !valid then Step(w, ValidationFailed)
    else if FindUser(w.users, WithEmailOrUsername(email, username), w.nextId).Some? then
      TakenIffFound(w, email, username);
      Step(w, UserExists)
    else
      TakenIffFound(w, email, username);
      var id := w.nextId;
      var user := User(username, email, Hash(password, Salt(SaltRounds, saltNonce)), now);
      var w1 := AddUser(w, user);
      CacheWriteKeepsConsistent(w1, UserKey(id), PublicProjection(id, user), now, DefaultExpiration, cacheFails);
      Step(w1.(cache := Put(w1.cache, UserKey(id), PublicProjection(id, user), now, DefaultExpiration, cacheFails)),
           Registered)
  }

  /** `user.save()` of a new user: it takes the next id, and the invariant survives when its credentials are free. */
  function AddUser(w: World, u: User): (r: World)
    requires Consistent(w)
    requires !Taken(w.users, u.email, u.username)
    ensures Consistent(r)
    ensures w.nextId !in w.users
    ensures r == w.(users := w.users[w.nextId := u], nextId := w.nextId + 1)
  {
    var r := w.(users := w.users[w.nextId := u], nextId := w.nextId + 1);
    forall k | k in r.cache
      ensures Coherent(r.users, k, r.cache[k].value)
    {
      assert Coherent(w.users, k, w.cache[k].value);
    }
    r
  }

  /** Writing a coherent entry, whether the write succeeds or fails, keeps the invariant. */
  lemma CacheWriteKeepsConsistent(w: World, k: CacheKey, v: CachedUser, now: int, expiration: int, fails: bool)
    requires Consistent(w)
    requires Coherent(w.users, k, v)
    ensures Consistent(w.(cache := Put(w.cache, k, v, now, expiration, fails)))
  {
  }

  /** Below `nextId` the `$or` lookup finds a user exactly when the email or the username is taken. */
  lemma TakenIffFound(w: World, email: string, username: string)
    requires IdsIssued(w.users, w.nextId)
    ensures Taken(w.users, email, username)
        <==> FindUser(w.users, WithEmailOrUsername(email, username), w.nextId).Some?
  {
  }

  /** Below `nextId` the `{ email }` lookup finds a user exactly when some user has that email. */
  lemma HasEmailIffFound(w: World, email: string)
    requires IdsIssued(w.users, w.nextId)
    ensures HasEmail(w.users, email) <==> FindUser(w.users, WithEmail(email), w.nextId).Some?
  {
  }

  /** A live `user:email:` entry agrees with the store in all but possibly its password hash. */
  lemma HitIsCoherent(w: World, email: string, now: int, getFails: bool)
    requires Consistent(w)
    requires CacheHit(w, email, now, getFails).Some?
    ensures Coherent(w.users, EmailKey(email), CacheHit(w, email, now, getFails).value)
  {
  }

  /** With unique emails, two users with the same email are the same user. */
  lemma EmailOwnerIsUnique(w: World, email: string, a: UserId, b: UserId)
    requires UniqueCredentials(w.users)
    requires a in w.users && w.users[a].email == email
    requires b in w.users && w.users[b].email == email
    ensures a == b
  {
  }

  /**
   * `login`: the `user:email:` cache entry is read first; on a miss the store is
   * queried and, when it finds the user, both keyspaces are written before the
   * password is checked. An unknown email and a wrong password give the same
   * answer, and only a successful check changes the session.
   */
  function LoginStep(w: World, email: string, password: string, now: int,
                     getFails: bool, setPublicFails: bool, setFullFails: bool): (r: Step)
    requires Consistent(w)
    ensures Consistent(r.world)
    ensures r.world.users == w.users && r.world.nextId == w.nextId
    ensures r.world.tokens == w.tokens && r.world.outbox == w.outbox
    ensures r.outcome == LoggedIn || r.outcome == InvalidCredentials
    ensures Respond(r.outcome).status == if r.outcome == LoggedIn then 200 else 401
    ensures r.outcome == InvalidCredentials ==> r.world.session == w.session
    ensures r.outcome == LoggedIn ==>
      r.world.session.Some? && r.world.session.value in w.users && w.users[r.world.session.value].email == email
    ensures CacheHit(w, email, now, getFails).Some? ==>
      var v := CacheHit(w, email, now, getFails).value;
      && r.world.cache == w.cache
      && v.password.Some?
      && (r.outcome == LoggedIn <==> Compare(password, v.password.value))
    ensures CacheHit(w, email, now, getFails).None? ==>
      (r.outcome == LoggedIn <==>
         exists id :: id in w.users && w.users[id].email == email && Compare(password, w.users[id].password))
    ensures CacheHit(w, email, now, getFails).None? && !HasEmail(w.users, email) ==> r.world == w
    ensures CacheHit(w, email, now, getFails).None? ==>
      forall id :: id in w.users && w.users[id].email == email ==>
        r.world.cache
          == Put(Put(w.cache, UserKey(id), PublicProjection(id, w.users[id]), now, DefaultExpiration, setPublicFails),
                 EmailKey(email), FullProjection(id, w.users[id]), now, DefaultExpiration, setFullFails)
  {
    var hit := CacheHit(w, email, now, getFails);
    if hit.Some? then
      HitIsCoherent(w, email, now, getFails);
      var v := hit.value;
      if v.password.None? then Step(w, ServerError)
      else if Compare(password, v.password.value) then Step(w.(session := Some(v.id)), LoggedIn)
      else Step(w, InvalidCredentials)
    else
      HasEmailIffFound(w, email);
      match FindUser(w.users, WithEmail(email), w.nextId)
      case None => Step(w, InvalidCredentials)
      case Some(id) =>
        var u := w.users[id];
        CacheWriteKeepsConsistent(w, UserKey(id), PublicProjection(id, u), now, DefaultExpiration, setPublicFails);
        var w1 := w.(cache := Put(w.cache, UserKey(id), PublicProjection(id, u), now, DefaultExpiration, setPublicFails));
        CacheWriteKeepsConsistent(w1, EmailKey(email), FullProjection(id, u), now, DefaultExpiration, setFullFails);
        var w2 := w1.(cache := Put(w1.cache, EmailKey(email), FullProjection(id, u), now, DefaultExpiration, setFullFails));
        assert forall other :: other in w.users && w.users[other].email == email ==> other == id;
        if Compare(password, u.password) then Step(w2.(session := Some(id)), LoggedIn)
        else Step(w2, InvalidCredentials)
  }

  /** `logout`: the session is destroyed and the session cookie cleared, whether or not anyone was logged in. */
  function LogoutStep(w: World): (r: Step)
    requires Consistent(w)
    ensures Consistent(r.world)
    ensures r.outcome == LoggedOut && Respond(r.outcome) == Reply(200, "message", Some("Logged out successfully"), Some(SessionCookie))
    ensures r.world == w.(session := None)
  {
    Step(w.(session := None), LoggedOut)
  }

  /**
   * `forgotPassword`: an unknown email is refused with nothing changed;
   * otherwise exactly one token is stored for the user, holding the digest of
   * the raw token and expiring an hour from now, and the raw token goes out
   * only in the mail. A failed mail does not change the answer.
   */
  function ForgotPasswordStep(w: World, email: string, raw: string, now: int, clientUrl: string, mailFails: bool)
    : (r: Step)
    requires Consistent(w)
    ensures Consistent(r.world)
    ensures r.world.users == w.users && r.world.nextId == w.nextId
    ensures r.world.cache == w.cache && r.world.session == w.session
    ensures !HasEmail(w.users, email) ==> r == Step(w, EmailNotFound)
    ensures HasEmail(w.users, email) ==>
      && r.outcome == ResetEmailSent
      && |r.world.tokens| == |w.tokens| + 1
      && r.world.tokens[..|w.tokens|] == w.tokens
      && var t := r.world.tokens[|w.tokens|];
         && t.userId in w.users && w.users[t.userId].email == email
         && t.token == Digest(raw)
         && t.expires == now + ResetTokenLifetime
         && r.world.outbox == (if mailFails then w.outbox else w.outbox + [ResetMail(email, clientUrl, raw)])
  {
    HasEmailIffFound(w, email);
    match FindUser(w.users, WithEmail(email), w.nextId)
    case None => Step(w, EmailNotFound)
    case Some(id) =>
      var token := ResetToken(id, Digest(raw), now + ResetTokenLifetime);
      var mail := ResetMail(w.users[id].email, clientUrl, raw);
      Step(w.(tokens := w.tokens + [token], outbox := if mailFails then w.outbox else w.outbox + [mail]),
           ResetEmailSent)
  }

  /** Replacing one user's password hash keeps the invariant: no cached field depends on it being current. */
  function ChangePassword(w: World, uid: UserId, h: PasswordHash): (r: World)
    requires Consistent(w)
    requires uid in w.users
    ensures Consistent(r)
    ensures r == w.(users := w.users[uid := w.users[uid].(password := h)])
  {
    var r := w.(users := w.users[uid := w.users[uid].(password := h)]);
    forall k | k in r.cache
      ensures Coherent(r.users, k, r.cache[k].value)
    {
      assert Coherent(w.users, k, w.cache[k].value);
    }
    r
  }

  /**
   * `resetPassword`: only a token with the digest of the supplied raw token
   * and an expiry strictly in the future is accepted; if its user is missing
   * the token is kept. On success the user's password becomes the hash of the
   * new one and that token is deleted. The cache is never touched.
   */
  function ResetPasswordStep(w: World, raw: string, newPassword: string, saltNonce: nat, now: int): (r: Step)
    requires Consistent(w)
    ensures Consistent(r.world)
    ensures r.world.cache == w.cache && r.world.session == w.session
    ensures r.world.outbox == w.outbox && r.world.nextId == w.nextId
    ensures r.outcome == InvalidOrExpiredToken || r.outcome == UserNotFound || r.outcome == PasswordReset
    ensures r.outcome != PasswordReset ==> r.world == w
    ensures r.outcome == InvalidOrExpiredToken <==>
      forall j :: 0 <= j < |w.tokens| ==> !Redeemable(w.tokens[j], Digest(raw), now)
    ensures r.outcome == UserNotFound <==>
      var f := FindToken(w.tokens, Digest(raw), now);
      f.Some? && w.tokens[f.value].userId !in w.users
    ensures r.outcome == PasswordReset ==>
      var f := FindToken(w.tokens, Digest(raw), now);
      && f.Some?
      && var uid := w.tokens[f.value].userId;
         && uid in w.users
         && r.world.tokens == RemoveAt(w.tokens, f.value)
         && r.world.users.Keys == w.users.Keys
         && (forall other :: other in w.users && other != uid ==> r.world.users[other] == w.users[other])
         && r.world.users[uid] == w.users[uid].(password := Hash(newPassword, Salt(SaltRounds, saltNonce)))
  {
    match FindToken(w.tokens, Digest(raw), now)
    case None => Step(w, InvalidOrExpiredToken)
    case Some(i) =>
      var uid := w.tokens[i].userId;
      if uid !in w.users then Step(w, UserNotFound)
      else
        var w1 := ChangePassword(w, uid, Hash(newPassword, Salt(SaltRounds, saltNonce)));
        Step(w1.(tokens := RemoveAt(w.tokens, i)), PasswordReset)
  }

  /**
   * The controller with its collaborators' state held in fields: the user and
   * token collections, the session slot, the mails handed to the transport,
   * and the shared cache object. Each method performs its handler's steps in
   * the source's order and is proved to end where the step function says.
   */
  class Controller {
    var users: map<UserId, User>
    var nextId: UserId
    var tokens: seq<ResetToken>
    var session: Option<UserId>
    var outbox: seq<Mail>
    const cache: KeyValueCache<CacheKey, CachedUser>
    /** The client URL the reset link points to. */
    const clientUrl: string

    /** The state of this controller and its cache, as a value. */
    function Snapshot(): World
      reads this, cache
    {
      World(users, nextId, tokens, cache.entries, session, outbox)
    }

    ghost predicate Valid()
      reads this, cache
    {
      Consistent(Snapshot())
    }

    constructor (clientUrl: string)
      ensures Valid() && fresh(cache)
      ensures Snapshot() == World(map[], 0, [], map[], None, [])
      ensures this.clientUrl == clientUrl
    {
      users := map[];
      nextId := 0;
      tokens := [];
      session := None;
      outbox := [];
      cache := new KeyValueCache<CacheKey, CachedUser>();
      this.clientUrl := clientUrl;
    }

    method Register(valid: bool, username: string, email: string, password: string,
                    saltNonce: nat, now: int, cacheFails: bool) returns (out: Outcome)
      requires Valid()
      modifies this, cache
      ensures Valid()
      ensures Step(Snapshot(), out)
           == RegisterStep(old(Snapshot()), valid, username, email, password, saltNonce, now, cacheFails)
    {
      ghost var before := Snapshot();
      if !valid {
        return ValidationFailed;
      }
      var existing := FindUser(users, WithEmailOrUsername(email, username), nextId);
      if existing.Some? {
        return UserExists;
      }
      var hashed := Hash(password, Salt(SaltRounds, saltNonce));
      var id := nextId;
      var user := User(username, email, hashed, now);
      TakenIffFound(before, email, username);
      ghost var added := AddUser(before, user);
      users := users[id := user];
      nextId := nextId + 1;
      assert Snapshot() == added;
      var cached := cache.Set(UserKey(id), PublicProjection(id, user), now, cacheFails);
      out := Registered;
    }

    method Login(email: string, password: string, now: int,
                 getFails: bool, setPublicFails: bool, setFullFails: bool) returns (out: Outcome)
      requires Valid()
      modifies this, cache
      ensures Valid()
      ensures Step(Snapshot(), out)
           == LoginStep(old(Snapshot()), email, password, now, getFails, setPublicFails, setFullFails)
    {
      var cachedUser := cache.Get(EmailKey(email), now, getFails);
      if cachedUser.Some? {
        var user := cachedUser.value;
        if user.password.None? {
          // bcrypt.compare rejects a missing hash, and the handler answers 500
          out := ServerError;
        } else if !Compare(password, user.password.value) {
          out := InvalidCredentials;
        } else {
          session := Some(user.id);
          out := LoggedIn;
        }
      } else {
        var found := FindUser(users, WithEmail(email), nextId);
        if found.None? {
          out := InvalidCredentials;
        } else {
          var id := found.value;
          var user := users[id];
          var publicCached := cache.Set(UserKey(id), PublicProjection(id, user), now, setPublicFails);
          var fullCached := cache.Set(EmailKey(email), FullProjection(id, user), now, setFullFails);
          if !Compare(password, user.password) {
            out := InvalidCredentials;
          } else {
            session := Some(id);
            out := LoggedIn;
          }
        }
      }
    }

    method Logout() returns (out: Outcome)
      requires Valid()
      modifies this
      ensures Valid()
      ensures Step(Snapshot(), out) == LogoutStep(old(Snapshot()))
    {
      session := None;
      out := LoggedOut;
    }

    method ForgotPassword(email: string, raw: string, now: int, mailFails: bool) returns (out: Outcome)
      requires Valid()
      modifies this
      ensures Valid()
      ensures Step(Snapshot(), out) == ForgotPasswordStep(old(Snapshot()), email, raw, now, clientUrl, mailFails)
    {
      var found := FindUser(users, WithEmail(email), nextId);
      if found.None? {
        return EmailNotFound;
      }
      var id := found.value;
      var token := ResetToken(id, Digest(raw), now + ResetTokenLifetime);
      tokens := tokens + [token];
      var mail := ResetMail(users[id].email, clientUrl, raw);
      SendEmail(mail.to, mail.subject, mail.text, mailFails);
      out := ResetEmailSent;
    }

    /** `sendEmail`: hands the mail to the transport; a transport error is swallowed. */
    method SendEmail(to: string, subject: string, text: string, fails: bool)
      modifies this
      ensures outbox == if fails then old(outbox) else old(outbox) + [Mail(to, subject, text)]
      ensures users == old(users) && nextId == old(nextId) && tokens == old(tokens) && session == old(session)
    {
      if !fails {
        outbox := outbox + [Mail(to, subject, text)];
      }
    }

    method ResetPassword(raw: string, newPassword: string, saltNonce: nat, now: int) returns (out: Outcome)
      requires Valid()
      modifies this
      ensures Valid()
      ensures Step(Snapshot(), out) == ResetPasswordStep(old(Snapshot()), raw, newPassword, saltNonce, now)
    {
      var hashedToken := Digest(raw);
      var found := FindToken(tokens, hashedToken, now);
      if found.None? {
        return InvalidOrExpiredToken;
      }
      var i := found.value;
      var uid := tokens[i].userId;
      if uid !in users {
        return UserNotFound;
      }
      var user := users[uid].(password := Hash(newPassword, Salt(SaltRounds, saltNonce)));
      users := users[uid := user];
      tokens := RemoveAt(tokens, i);
      out := PasswordReset;
    }
  }
}
