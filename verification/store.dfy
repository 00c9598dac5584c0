/**
 * The two document collections the controller reads and writes, as values:
 * users keyed by id, and password-reset tokens in insertion order. Only the
 * queries the controller issues are modelled.
 */
module Store {
  import opened Wrappers
  import opened Crypto

  /** A user id. Ids are handed out in increasing order, so id order is insertion order. */
  type UserId = nat

  /** A stored user; `password` holds a bcrypt hash, never the password itself. */
  datatype User = User(username: string, email: string, password: PasswordHash, createdAt: int)

  /** A stored reset token: its owner, the digest of the raw token, and its expiry (ms). */
  datatype ResetToken = ResetToken(userId: UserId, token: TokenDigest, expires: int)

  /** The two user filters the controller issues: `{ email }` and `{ $or: [{ email }, { username }] }`. */
  datatype Query = WithEmail(email: string) | WithEmailOrUsername(email: string, username: string)

  predicate Matches(u: User, q: Query)
  {
    match q
    case WithEmail(e) => u.email == e
    case WithEmailOrUsername(e, n) => u.email == e || u.username == n
  }

  /**
   * `User.findOne(q)` over the users whose ids lie below `bound`: the first
   * matching user in id order, or None exactly when no such user matches.
   */
  function FindUser(users: map<UserId, User>, q: Query, bound: nat): (r: Option<UserId>)
    ensures r.Some? ==> r.value < bound && r.value in users && Matches(users[r.value], q)
    ensures r.Some? ==> forall id: UserId :: id < r.value && id in users ==> !Matches(users[id], q)
    ensures r.None? <==> forall id: UserId :: id < bound && id in users ==> !Matches(users[id], q)
    decreases bound
  {
    if bound == 0 then None
    else
      var earlier := FindUser(users, q, bound - 1);
      if earlier.Some? then earlier
      else if bound - 1 in users && Matches(users[bound - 1], q) then Some(bound - 1)
      else None
  }

  /** The token filter `{ token: d, expires: { $gt: now } }`: expiry is strict. */
  predicate Redeemable(t: ResetToken, d: TokenDigest, now: int)
  {
    t.token == d && t.expires > now
  }

  /** `Token.findOne(...)`: the index of the first redeemable token, or None exactly when there is none. */
  function FindToken(tokens: seq<ResetToken>, d: TokenDigest, now: int): (r: Option<nat>)
    ensures r.Some? ==> r.value < |tokens| && Redeemable(tokens[r.value], d, now)
    ensures r.Some? ==> forall j :: 0 <= j < r.value ==> !Redeemable(tokens[j], d, now)
    ensures r.None? <==> forall j :: 0 <= j < |tokens| ==> !Redeemable(tokens[j], d, now)
  {
    if |tokens| == 0 then None
    else if Redeemable(tokens[0], d, now) then Some(0)
    else
      match FindToken(tokens[1..], d, now)
      case None => None
      case Some(i) => Some(i + 1)
  }

  /** `deleteOne()` of the document at index i: the others stay, in their order. */
  function RemoveAt<T>(s: seq<T>, i: nat): (r: seq<T>)
    requires i < |s|
    ensures |r| == |s| - 1
    ensures forall j :: 0 <= j < i ==> r[j] == s[j]
    ensures forall j :: i <= j < |r| ==> r[j] == s[j + 1]
    ensures multiset(r) + multiset{s[i]} == multiset(s)
  {
    assert s == s[..i] + [s[i]] + s[i + 1..];
    s[..i] + s[i + 1..]
  }

  /** No two stored tokens share a digest. */
  predicate DistinctDigests(tokens: seq<ResetToken>)
  {
    forall i, j :: 0 <= i < j < |tokens| ==> tokens[i].token != tokens[j].token
  }

  /**
   * When digests are distinct, deleting the token a redemption found leaves
   * no token with that digest, at any time, and digests stay distinct.
   */
  lemma RedeemedTokenIsGone(tokens: seq<ResetToken>, d: TokenDigest, now: int, i: nat)
    requires DistinctDigests(tokens)
    requires FindToken(tokens, d, now) == Some(i)
    ensures forall t :: FindToken(RemoveAt(tokens, i), d, t).None?
    ensures DistinctDigests(RemoveAt(tokens, i))
  {
  }

  /** Appending a token whose digest no stored token has keeps digests distinct. */
  lemma FreshDigestKeepsDistinct(tokens: seq<ResetToken>, t: ResetToken)
    requires DistinctDigests(tokens)
    requires forall j :: 0 <= j < |tokens| ==> tokens[j].token != t.token
    ensures DistinctDigests(tokens + [t])
  {
  }
}
