/** The JSON Web Token the client puts in every `Authorization: Bearer` header.
    Only the claim set is modelled; the HS256 signature and the compact
    serialisation (section 3.2 of RFC 7518, section 7.1 of RFC 7519) are
    abstracted to the pair of the claim set and the key that signed it. */
module Jwt {

  import PyValues

  /** Seconds a token stays valid after it is issued. */
  const Lifetime: int := 300

  /** The registered claims the client sets: `iss` (section 4.1.1 of RFC 7519),
      `iat` (section 4.1.6) and `exp` (section 4.1.4), as NumericDate seconds. */
  datatype Claims = Claims(iss: string, iat: int, exp: int)

  /** A token signed with a shared secret. */
  datatype Token = Signed(claims: Claims, secret: string)

  /** The claim set built from the consumer id and `int(time.time())`. */
  function IssueClaims(consumerId: string, now: int): (c: Claims)
    ensures c.iss == consumerId && c.iat == now
    ensures c.exp - c.iat == Lifetime
  {
    Claims(consumerId, now, now + Lifetime)
  }

  /** `jwt.encode(payload, secret, algorithm="HS256")`. */
  function Encode(c: Claims, secret: string): (t: Token)
  {
    Signed(c, secret)
  }

  /** What a verifier holding `secret` reads back from a token: the claim set
      when the signature checks out. */
  function Verify(t: Token, secret: string): (r: PyValues.Option<Claims>)
    ensures r.Some? <==> t.secret == secret
    ensures r.Some? ==> r.value == t.claims
  {
    if t.secret == secret then PyValues.Some(t.claims) else PyValues.None
  }

  /** Section 4.1.4 of RFC 7519: a token is accepted only before its
      expiration time. */
  predicate Unexpired(c: Claims, time: int) {
    time < c.exp
  }

  /** A token made at `now` decodes, under the same secret, to the issuer and
      a 300-second window; under any other secret it does not decode. */
  lemma TokenRoundTrip(consumerId: string, secret: string, other: string, now: int)
    requires other != secret
    ensures Verify(Encode(IssueClaims(consumerId, now), secret), secret)
            == PyValues.Some(Claims(consumerId, now, now + 300))
    ensures Verify(Encode(IssueClaims(consumerId, now), secret), other).None?
  {
  }
}
