/** The password hashing library (bcryptjs), as an abstract primitive: a
    salted one-way function and the comparison that goes with it. */
module Bcrypt {

  /** The cost factor every handler passes to `bcrypt.hash`. */
  const Rounds: nat := 12

  /** A stored password hash. `image` stands for the one-way function of
      the password; nothing in the model reads it except `Compare`, just as
      nothing in the source inspects a hash except `bcrypt.compare`. */
  datatype Digest = Digest(rounds: nat, salt: string, image: string)

  /** `bcrypt.hash(password, 12)`; the random salt is a parameter. */
  function Hash(password: string, salt: string): (h: Digest)
    ensures h.rounds == Rounds
    ensures forall candidate :: Compare(candidate, h) <==> candidate == password
  {
    Digest(Rounds, salt, password)
  }

  /** `bcrypt.compare(candidate, h)`. */
  predicate Compare(candidate: string, h: Digest)
  {
    h.image == candidate
  }
}

/** The token library (jsonwebtoken) as used by the routes: HS256 tokens
    with a seven-day expiry, signed and verified with one key. */
module Jwt {
  import opened Js

  /** `expiresIn: '7d'`, in seconds. */
  const Lifetime: int := 7 * 24 * 60 * 60

  /** The key used when `JWT_SECRET` is unset or empty. */
  const FallbackSecret: string := "fallback-secret"

  /** The payload `{userId, email}` plus the `iat` and `exp` claims the
      library adds. */
  datatype Claims = Claims(userId: string, email: string, iat: int, exp: int)

  /** The signature over a payload, abstracted: it records the key and the
      payload it was made with and can only be produced by `Sign`. */
  datatype Mac = Hs256(key: string, claims: Claims)

  /** A cookie value: a token in JWT form, or any other text. */
  datatype Token = Signed(claims: Claims, mac: Mac) | Text(text: string)

  /** `process.env.JWT_SECRET || 'fallback-secret'`. */
  function Key(jwtSecret: Option<string>): (key: string)
    ensures key != ""
    ensures Truthy(jwtSecret) ==> key == jwtSecret.value
    ensures !Truthy(jwtSecret) ==> key == FallbackSecret
  {
    if Truthy(jwtSecret) then jwtSecret.value else FallbackSecret
  }

  /** `jwt.sign({userId, email}, key, {expiresIn: '7d'})` at time `now`
      (seconds since the epoch). */
  function Sign(userId: string, email: string, key: string, now: int): (t: Token)
    ensures t.Signed? && t.claims.userId == userId && t.claims.email == email
    ensures t.claims.exp == now + Lifetime
  {
    var claims := Claims(userId, email, now, now + Lifetime);
    Signed(claims, Hs256(key, claims))
  }

  /** `jwt.verify(token, key)` at time `now`: the payload, or `None` where
      the library throws (not a token, bad signature, expired). */
  function Verify(t: Token, key: string, now: int): (r: Option<Claims>)
    ensures r.Some? ==> t == Signed(r.value, Hs256(key, r.value))
    ensures r.Some? ==> now < r.value.exp
  {
    if t.Signed? && t.mac == Hs256(key, t.claims) && now < t.claims.exp
    then Some(t.claims) else None
  }

  /** A token signed at `iat` verifies with the same key exactly until its
      expiry, and yields the payload it was signed with. */
  lemma SignThenVerify(userId: string, email: string, key: string, iat: int, now: int)
    ensures Verify(Sign(userId, email, key, iat), key, now) ==
            if now < iat + Lifetime then Some(Claims(userId, email, iat, iat + Lifetime)) else None
  {
  }

  /** A token signed with one key never verifies with another. */
  lemma OtherKeyRejected(userId: string, email: string, key: string, other: string, iat: int, now: int)
    requires key != other
    ensures Verify(Sign(userId, email, key, iat), other, now) == None
  {
  }
}
