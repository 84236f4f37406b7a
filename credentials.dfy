/**
  Stand-ins for the helpers the controllers import from `utils/auth` and
  `utils/jwt`: bcrypt hashing and checking, and signing a session token.
  The model keeps only what the controllers rely on: a hash is checked
  successfully by exactly the password it was made from, and a session
  token carries the id it was issued for.
 */
module Credentials {
  import opened Ids

  type Password = string

  /** A stored password hash. Injective by construction; salting is not modelled. */
  datatype Digest = Digest(preimage: Password)

  function Hash(p: Password): (h: Digest)
  {
    Digest(p)
  }

  /** `checkPassword(password, hash)` */
  predicate Verify(p: Password, h: Digest)
  {
    Hash(p) == h
  }

  /** A hash verifies the password it was made from and no other; so `Hash` is injective. */
  lemma HashThenVerify(p: Password, q: Password)
    ensures Verify(p, Hash(p))
    ensures Verify(q, Hash(p)) <==> q == p
  {
  }

  /** A signed session token asserting the identity `subject`. */
  datatype Jwt = Jwt(subject: UserId)

  /** `generateJWT({id})` */
  function GenerateJwt(id: UserId): (j: Jwt)
  {
    Jwt(id)
  }

  /** What the authentication boundary recovers from a session token. */
  function JwtSubject(j: Jwt): UserId
  {
    j.subject
  }

  lemma JwtRoundTrip(id: UserId, other: UserId)
    ensures JwtSubject(GenerateJwt(id)) == id
    ensures GenerateJwt(id) == GenerateJwt(other) <==> id == other
  {
  }
}
