/**
 * The two one-way functions the controller relies on, kept symbolic.
 *
 * bcrypt and SHA-256 are foreign code. Here a hash is a term that remembers
 * what it was computed from; no operation of the model other than `Compare`
 * looks inside it. What the controller needs from them is exactly what the
 * contracts below state: bcrypt reads only the first `KeyLimit` characters
 * of a password and verification accepts exactly the passwords that agree
 * there, a fresh salt gives a different hash, and the token digest is
 * injective. Because a stored password has type `PasswordHash` and a stored
 * token has type `TokenDigest`, neither can ever be the raw string.
 */
module Crypto {

  /** The cost factor every caller hands to `bcrypt.genSalt`. */
  const SaltRounds: nat := 10

  /** bcrypt reads at most this many bytes of a password and ignores the rest. */
  const KeyLimit: nat := 72

  /** A bcrypt salt: its cost factor and the random part that genSalt draws. */
  datatype Salt = Salt(rounds: nat, nonce: nat)

  /** A bcrypt hash as a symbolic term: the salt and the part of the password it read. */
  datatype PasswordHash = Bcrypt(salt: Salt, key: string)

  /** The part of a password bcrypt reads: all of a short one, the first `KeyLimit` characters of a long one. */
  function Key(password: string): (k: string)
    ensures |k| <= KeyLimit
    ensures k <= password
    ensures |password| <= KeyLimit ==> k == password
    ensures |password| > KeyLimit ==> k == password[..KeyLimit]
  {
    if |password| <= KeyLimit then password else password[..KeyLimit]
  }

  /**
   * `bcrypt.compare(password, hash)`: it accepts only a password of which the
   * hashed key is a prefix, and a password within the limit only when it is
   * that key itself.
   */
  function Compare(password: string, h: PasswordHash): (ok: bool)
    ensures ok ==> |h.key| <= KeyLimit && h.key <= password
    ensures |password| <= KeyLimit ==> (ok <==> h.key == password)
  {
    Key(password) == h.key
  }

  /** `bcrypt.hash(password, salt)`: the result verifies exactly the passwords bcrypt cannot tell from this one. */
  function Hash(password: string, salt: Salt): (h: PasswordHash)
    ensures h.salt == salt
    ensures forall p :: Compare(p, h) <==> Key(p) == Key(password)
    ensures Compare(password, h)
  {
    Bcrypt(salt, Key(password))
  }

  /** Passwords within the limit verify against each other's hash only when they are equal. */
  lemma ShortPasswordsAreDistinguished(password: string, p: string, salt: Salt)
    requires |password| <= KeyLimit && |p| <= KeyLimit
    ensures Compare(p, Hash(password, salt)) <==> p == password
  {
  }

  /** Two passwords that agree on their first `KeyLimit` characters verify against each other's hash. */
  lemma PasswordsSharingTheirKeyCollide(a: string, b: string, salt: Salt)
    requires |a| >= KeyLimit && |b| >= KeyLimit && a[..KeyLimit] == b[..KeyLimit]
    ensures Compare(b, Hash(a, salt)) && Compare(a, Hash(b, salt))
  {
  }

  /** For example, two different passwords that differ only in their 73rd character share a hash. */
  lemma LongPasswordsCollide(salt: Salt)
    ensures var long := seq(KeyLimit, _ => 'a');
      long + "x" != long + "y" && Compare(long + "y", Hash(long + "x", salt))
  {
    var long := seq(KeyLimit, _ => 'a');
    assert (long + "x")[KeyLimit] == 'x';
    assert Key(long + "x") == long == Key(long + "y");
  }

  /** Two salts give two different hashes of the same password. */
  lemma SaltedHashesDiffer(password: string, s1: Salt, s2: Salt)
    requires s1 != s2
    ensures Hash(password, s1) != Hash(password, s2)
  {
  }

  /** A SHA-256 hex digest as a symbolic term. */
  datatype TokenDigest = Sha256Hex(preimage: string)

  /** `crypto.createHash("sha256").update(raw).digest("hex")`. */
  function Digest(raw: string): TokenDigest
  {
    Sha256Hex(raw)
  }

  /** Two raw tokens with the same digest are the same token. */
  lemma DigestInjective(a: string, b: string)
    requires Digest(a) == Digest(b)
    ensures a == b
  {
  }
}
