/** The two cryptographic libraries the backend calls, bcrypt and jsonwebtoken,
    as uninterpreted functions carried in values. What the libraries promise is
    stated as ghost predicates; a lemma that relies on it says so in its requires. */
module Crypto {
  import opened Common

  /** The random salt bcrypt draws for each hash. */
  type Salt = string

  /** bcrypt: `hash(plaintext, cost, salt)` and `compare(plaintext, digest)`. */
  datatype Bcrypt = Bcrypt(hash: (string, nat, Salt) -> string, compare: (string, string) -> bool)

  /** The library's correctness promise: a plaintext matches its own digest,
      whatever the cost and salt. This is an assumption about bcrypt. */
  ghost predicate BcryptCorrect(b: Bcrypt)
  {
    forall p, cost, salt :: b.compare(p, b.hash(p, cost, salt))
  }

  /** The registered claims of a session token: subject `_id`, issued-at, expiry. */
  datatype Claims = Claims(sub: UserId, iat: Time, exp: Time)

  /** The two errors `jwt.verify` throws. */
  datatype JwtError = JsonWebTokenError | TokenExpiredError

  datatype Verified = Decoded(claims: Claims) | Rejected(error: JwtError)

  /** jsonwebtoken: `sign(claims, secret)` and `verify(token, secret, now)`. */
  datatype Jwt = Jwt(sign: (Claims, string) -> string, verify: (string, string, Time) -> Verified)

  /** A token signed with a secret verifies under that secret, with its own
      claims, exactly until its expiry; from `exp` on it is rejected as
      expired. This is an assumption about jsonwebtoken. */
  ghost predicate JwtComplete(j: Jwt)
  {
    forall c, key, now ::
      j.verify(j.sign(c, key), key, now) == if now < c.exp then Decoded(c) else Rejected(TokenExpiredError)
  }

  /** Only a token signed with the secret verifies, and never after its expiry.
      This is an assumption about jsonwebtoken (unforgeability). */
  ghost predicate JwtSound(j: Jwt)
  {
    forall t, key, now :: j.verify(t, key, now).Decoded? ==>
      now < j.verify(t, key, now).claims.exp && t == j.sign(j.verify(t, key, now).claims, key)
  }
}
