# Session authentication with a read-through cache, in Dafny

This project models the authentication controller of a small Express
service (`controllers/authController.js`) and the fail-soft Redis wrapper it
sits on (`utils/cache.js`). The five handlers are `register`, `login`,
`logout`, `forgotPassword` and `resetPassword`. They work over four pieces of
state:

- the user collection, queried by email, by email-or-username and by id;
- the reset-token collection, queried by digest and unexpired expiry;
- the Redis cache with two keyspaces per user: `user:<id>` holds the public
  projection, and `user:email:<email>` holds the full projection with the
  password hash;
- the session slot that holds `userId`.

Files:

- `wrappers.dfy`: the `Option` type.
- `crypto.dfy`: bcrypt and SHA-256 as symbolic terms. `Hash` is
  `bcrypt.hash`, `Compare` is `bcrypt.compare` and `Digest` is the token
  digest. A stored password has type `PasswordHash` and a stored token has
  type `TokenDigest`, so neither can ever be the raw string.
- `cache.dfy`: the cache wrapper. The class `KeyValueCache` holds a
  key → (value, expiry) map. `Get`, `Set` and `Delete` take a `fails` flag
  that stands for a client error. `Lookup`, `Put` and `Remove` are the
  functions that specify them.
- `store.dfy`: users keyed by id, tokens in insertion order, and the
  `findOne` queries the controller issues.
- `auth_controller.dfy`: a `World` value and one step function per handler.
  Each step function's contract states what that handler promises. The
  invariant `Consistent` says three things: ids were issued below a
  counter, emails and usernames are unique, and every cache entry agrees
  with the store, except that a `user:email:` entry's hash may be older than
  the stored one. The class `Controller` keeps the same state in fields and
  runs each handler step by step. Each of its methods is proved to end
  where its step function says.
- `auth_properties.dfy`: properties that span several calls. They cover
  duplicate registration, the life of a reset token, when the cache makes
  no difference to login, and the stale-hash window after a reset.

Inputs stand for everything the handlers read from outside:

- the clock is `now`, in milliseconds, as `Date.now()` gives it;
- the bcrypt salt is `saltNonce`;
- the raw reset token is `raw`;
- the validation result is `valid`;
- each cache call's client error and the mail transport's error are flags.

A handler is one atomic step.

## Model

| member | source | states |
|---|---|---|
| `Crypto.Key` | controllers/authController.js:40-42 | bcrypt reads at most 72 characters of a password: a password within the limit whole, a longer one exactly its first 72 characters |
| `Crypto.Compare` | controllers/authController.js:104 | `bcrypt.compare` accepts only a password that starts with the hashed key, and a password within the limit only when it is that key |
| `Crypto.Hash` | controllers/authController.js:40-42 | the hash of a password verifies exactly the passwords whose first 72 characters agree with it, the password itself included, and records the salt it was made with |
| `Crypto.ShortPasswordsAreDistinguished` | controllers/authController.js:104 | two passwords within the limit verify against each other's hash only when they are equal |
| `Crypto.PasswordsSharingTheirKeyCollide` | controllers/authController.js:104 | any two passwords that agree on their first 72 characters verify against each other's hash |
| `Crypto.LongPasswordsCollide` | controllers/authController.js:104 | for example, 72 × "a" + "x" and 72 × "a" + "y" are different passwords that verify against each other's hash |
| `Crypto.SaltedHashesDiffer` | controllers/authController.js:41-42 | two different salts give two different hashes of the same password |
| `Crypto.DigestInjective` | controllers/authController.js:146-150 | the token digest is injective: two raw tokens with the same digest are equal |
| `Cache.Lookup` | utils/cache.js:9-10 | a read sees a value exactly when the key is present and the clock has not passed its expiry time, and then the stored value |
| `Cache.Put` | utils/cache.js:18-27 | a successful SETEX stores the value under the key with expiry now + TTL·1000 ms; a failed one or a non-positive TTL changes nothing; other keys are kept |
| `Cache.Remove` | utils/cache.js:30-38 | a successful DEL removes exactly the key; a failed one changes nothing; other keys are kept |
| `Cache.KeyValueCache.Get` | utils/cache.js:7-15 | a client error gives None (no exception); otherwise the stored value if present and unexpired, else None |
| `Cache.KeyValueCache.Set` | utils/cache.js:17-27 | returns true exactly when the client does not fail and the TTL is positive, and then stores the value; the TTL defaults to `DefaultExpiration` (86400 s) |
| `Cache.KeyValueCache.Delete` | utils/cache.js:29-38 | returns true and removes the key, or returns false on a client error with the store unchanged |
| `Cache.SetThenGet` | utils/cache.js:9-21 | a value written with a positive TTL reads back unchanged up to and including its expiry time |
| `Cache.SetThenExpire` | utils/cache.js:18-21 | once the clock is past the expiry time, the written key reads as absent |
| `Cache.DefaultItemLivesOneDay` | utils/cache.js:4 | with the default TTL an item is readable 86 400 000 ms after the write and absent 1 ms later |
| `Cache.SetKeepsOtherKeys` | utils/cache.js:18-27 | a write, failed or not, leaves every other key's reading unchanged |
| `Cache.DeleteThenGet` | utils/cache.js:30-38 | after a successful delete the key reads as absent and other keys read as before |
| `Store.FindUser` | controllers/authController.js:35 | `User.findOne`: the first matching user in id order, or None exactly when no user below the bound matches |
| `Store.FindToken` | controllers/authController.js:184-187 | `Token.findOne`: the first token whose digest matches and whose expiry is strictly after now, or None exactly when there is none |
| `Store.RemoveAt` | controllers/authController.js:206 | `deleteOne` removes exactly that document and keeps the others in order (multiset minus one) |
| `Store.RedeemedTokenIsGone` | controllers/authController.js:184-206 | when digests are distinct, after the found token is deleted no token has that digest at any time, and digests stay distinct |
| `Store.FreshDigestKeepsDistinct` | controllers/authController.js:153-159 | storing a token with a new digest keeps digests distinct |
| `AuthController.ResetMail` | controllers/authController.js:162-165 | the reset mail goes to the user's address with subject "Password Reset", and its text ends in the raw token |
| `AuthController.Respond` | controllers/authController.js:28-208 | 201 only for a registration, 401 only for refused credentials, 500 only for a server error, 200 for the other successes and 400 for the other refusals; the reset handlers answer under "msg", the others under "message", a validation failure under "errors" with no text; only logout clears a cookie, `connect.sid` |
| `AuthController.CacheHit` | controllers/authController.js:74 | login's read of `user:email:<email>` returns a value exactly when the client does not fail and the entry is present and live, and then the stored entry |
| `AuthController.TakenIffFound` | controllers/authController.js:35-36 | the `$or` query finds a user exactly when some user has that email or that username |
| `AuthController.HasEmailIffFound` | controllers/authController.js:81 | the `{ email }` query finds a user exactly when some user has that email |
| `AuthController.AddUser` | controllers/authController.js:45-51 | saving a user whose email and username are free takes a fresh id and keeps the invariant |
| `AuthController.CacheWriteKeepsConsistent` | controllers/authController.js:84-96 | writing an entry that agrees with the store, successfully or not, keeps the invariant |
| `AuthController.HitIsCoherent` | controllers/authController.js:74-78 | a live `user:email:` entry names a stored user with that email and carries a hash |
| `AuthController.EmailOwnerIsUnique` | controllers/authController.js:81 | two users with the same email are the same user |
| `AuthController.RegisterStep` | controllers/authController.js:24-66 | failed validation → 400 and nothing changes; email OR username taken → 400 "User already exists" and nothing changes; otherwise exactly one user is added under a fresh id; it holds a hash that verifies the supplied password and exactly those agreeing with it on the first 72 characters; only `user:<id>` is written, with the public projection and the default TTL; no `user:email:` key is written; the answer is 201 |
| `AuthController.LoginStep` | controllers/authController.js:69-117 | a live `user:email:` entry that the cache read returns decides alone: the store is not read and the cache is not written; on a miss the store decides, and a found user gets both keyspaces written before the password check; an unknown email and a wrong password give the same 401 "Invalid credentials"; only success sets the session, to a user with that email; for inputs that are present strings, 500 cannot occur |
| `AuthController.LogoutStep` | controllers/authController.js:120-130 | the session is emptied whether or not anyone was logged in; the answer is 200 and clears `connect.sid`; nothing else changes |
| `AuthController.ForgotPasswordStep` | controllers/authController.js:133-172 | unknown email → 400 and nothing changes; otherwise exactly one token is appended, with the user's id, the digest of the raw token and expiry now + 3 600 000 ms; the mail with the raw token is sent unless the transport fails; the answer is 200 either way; users, cache and session are untouched |
| `AuthController.ChangePassword` | controllers/authController.js:199-203 | replacing a user's hash keeps the invariant |
| `AuthController.ResetPasswordStep` | controllers/authController.js:175-213 | no matching token with expiry strictly after now → 400 and nothing changes; its user missing → 400 and the token is kept; otherwise that user's hash becomes the hash of the new password, other users are unchanged, and that token is deleted; cache, session and mails are never touched |
| `AuthController.Controller.Register` | controllers/authController.js:24-66 | ends in the state and answer `RegisterStep` gives, keeping the invariant |
| `AuthController.Controller.Login` | controllers/authController.js:69-117 | ends in the state and answer `LoginStep` gives, keeping the invariant |
| `AuthController.Controller.Logout` | controllers/authController.js:120-130 | ends in the state and answer `LogoutStep` gives |
| `AuthController.Controller.ForgotPassword` | controllers/authController.js:133-172 | ends in the state and answer `ForgotPasswordStep` gives, keeping the invariant |
| `AuthController.Controller.SendEmail` | controllers/authController.js:10-21 | appends the mail to the outbox unless the transport fails, never fails itself, and changes nothing else |
| `AuthController.Controller.ResetPassword` | controllers/authController.js:175-213 | ends in the state and answer `ResetPasswordStep` gives, keeping the invariant |
| `AuthProperties.SecondRegistrationWithSameEmailIsRefused` | controllers/authController.js:35-38 | after a successful registration, a second one with the same email is refused with nothing changed |
| `AuthProperties.SecondRegistrationWithSameUsernameIsRefused` | controllers/authController.js:35-38 | likewise for the same username with any email |
| `AuthProperties.EmailEntryHasOwner` | controllers/authController.js:90-96 | a `user:email:` entry only exists for an email some stored user has |
| `AuthProperties.LoginAfterRegistrationSucceeds` | controllers/authController.js:54-110 | right after registering, login with the registered password succeeds at any time and under any cache failure |
| `AuthProperties.LoginAgreesWithStore` | controllers/authController.js:74-107 | while the email's cached hash is not stale, login succeeds exactly when a stored user with that email has a hash that verifies the password |
| `AuthProperties.RegisterKeepsHashesCurrent` | controllers/authController.js:54-59 | registration never makes a cached hash stale |
| `AuthProperties.LoginKeepsHashesCurrent` | controllers/authController.js:84-96 | login never makes a cached hash stale |
| `AuthProperties.LoginKeepsHashCurrentFor` | controllers/authController.js:84-96 | a login, for any email, never makes a current cached hash for a given email stale |
| `AuthProperties.StaleHashWindow` | controllers/authController.js:199-206 | after a reset, at any later time at which the `user:email:` entry is still live and the cache read succeeds, the old password still logs in and the new one is refused (when bcrypt tells them apart), although the store holds only the new hash |
| `AuthProperties.LoginAfterResetWithoutCache` | controllers/authController.js:81-107 | after a reset, with no live cached hash, the new password logs in, and the old one is refused when bcrypt tells it apart from the new one |
| `AuthProperties.IssuedTokenRedeemsBeforeExpiry` | controllers/authController.js:156 | a freshly issued token resets the password at any time strictly before issue + 1 hour |
| `AuthProperties.IssuedTokenExpires` | controllers/authController.js:184-191 | from issue + 1 hour on, the never-used token is refused with nothing changed |
| `AuthProperties.IssuingFreshTokenKeepsDigestsDistinct` | controllers/authController.js:146-159 | issuing a token with a new digest keeps stored digests distinct |
| `AuthProperties.TokenIsSingleUse` | controllers/authController.js:184-206 | after a successful reset, the same raw token is refused at any later time with nothing changed |
| `AuthProperties.MailFailureIsInvisible` | controllers/authController.js:161-167 | a lost reset mail changes neither the answer nor the stored token |
| `AuthProperties.LoginMissCachesBothProjections` | controllers/authController.js:84-96 | after a miss that finds the user, when both cache writes succeed, `user:<id>` reads as the public projection and `user:email:<email>` as the full one until the default expiry time |
| `AuthProperties.RegisterLoginLogoutScenario` | controllers/authController.js:24-125 | from any consistent state (other users' cached hashes may be stale): register, login, logout, login, then a password bcrypt tells apart from the registered one: success, empty session, success, 401 with the session kept, whatever the cache does |

## The stale-hash window after a reset

One would expect the old password to be refused straight after a reset and
the new one to work. The code does not delete any cache entry in
`resetPassword` (lines 199-206). So while the `user:email:<email>` entry
written by an earlier login is live (up to 24 hours), login still checks the
password against the cached old hash. The model follows the code.
`StaleHashWindow` proves that, at every time in that window at which the
cache read succeeds, the old password keeps working and the new one is
refused. A failed cache read makes `getFromCache` answer null
(`utils/cache.js` lines 11-14), and login then reads the store.
`LoginAfterResetWithoutCache` proves the expected behaviour whenever the read
returns nothing: no entry, an expired one, or a failed read.

## Left out

- Store and infrastructure failures: MongoDB and session-store errors that
  reach the handlers' `catch` blocks as 500 are not modelled. The one 500
  path that is modelled is a cached entry without a hash. There,
  `bcrypt.compare` rejects and the handler answers 500. `LoginStep` proves
  that this path cannot happen under the invariant.
- Input validation (`express-validator`) is a boolean input. The error array
  in the 400 body is not modelled.
- Request fields are taken to be present strings. Only `register` validates
  its body; `login`, `forgotPassword` and `resetPassword` pass `req.body` and
  `req.params` straight on. A missing password at login (for a user that is
  found) makes `bcrypt.compare` reject and the handler answer 500 after the
  cache writes; a missing new password with a valid token gives 500 and keeps
  the token; a non-string `email` such as `{"$ne": null}` becomes a query
  operator. None of these paths is modelled.
- 500 answers of `forgotPassword` and `resetPassword` (lines 170 and 211)
  carry the key "msg". They come from store failures and from the malformed
  request fields listed above, none of which is modelled, so the one
  `ServerError` outcome is login's, keyed "message".
- Logging and the sender address: the `console.error` call on every
  swallowed or caught error (`controllers/authController.js` lines 19, 63,
  114, 127, 169 and 210; `utils/cache.js` lines 12, 24 and 35) and the mail's
  `from: process.env.EMAIL_USER` (line 13) are not modelled. A `Mail` holds
  only recipient, subject and text.
- Concurrency: each handler is one atomic step. Two races are accepted and
  not analysed: check-then-insert in `register`, and find-then-delete of
  tokens.
- JSON serialisation in the cache is taken as the identity on records. For
  example, a `Date` does not turn into a string on the round trip.
- Key strings: `user:<id>` and `user:email:<email>` are distinct constructors
  of `CacheKey`. The model therefore excludes a key that could be read both
  ways. ObjectIds never start with `email:`.
- Redis removing expired keys: expired entries stay in the map, and reads
  treat them as absent from the millisecond after their expiry time on.
  Expiry is computed on the caller's clock; the model takes it to be Redis's
  clock, with no skew between them.
- Crypto.Key: counts bcrypt's 72-byte limit in characters. This is exact for
  ASCII passwords; a password with multi-byte UTF-8 characters is cut later in
  the model than bcrypt cuts it. Other bcrypt collisions are not modelled.
- Entropy: `crypto.randomBytes` and `bcrypt.genSalt` are inputs. Digest
  uniqueness among stored tokens is not an invariant. The token lemmas
  assume that the issued raw token's digest is new, or that stored digests
  are distinct.
- Id generation: a MongoDB ObjectId combines a timestamp, a random value and
  a counter. The model instead hands out ids from a counter. That is a
  modelling choice that keeps ids fresh. `findOne` without a sort returns the
  first match in storage order, which the model takes to be id order. With
  unique emails, the `{ email }` query (lines 81 and 138) matches at most one
  user. The `$or` query of `register` (line 35) can match two users, one
  holding the email and another the username. `register` only asks whether
  it finds any user, so storage order makes no difference there.
- `createdAt` is taken to be the request time, as schema timestamps would
  set it. `models/User` and `models/Token` are not part of this model.
- Sessions: one session slot stands for the session of the client making
  the requests. The session store and the 24-hour cookie lifetime are not
  modelled, and neither are session-scoped counters.
- `deleteFromCache` is modelled in the cache wrapper. The controller imports
  it but never calls it.
- `index.js` is framework wiring and is not modelled: Express, session and
  Redis setup, the demo view-counter route, and server start-up.
- HTTP responses are `Outcome` values. `Respond` maps each one to its status,
  body key, message and cleared cookie.
