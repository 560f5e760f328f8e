/** Claims, configuration and the cryptographic collaborators. bcrypt,
    HMAC-SHA256 signing and jwtware's verification are not modelled: they are
    function values of the configuration about which only what is stated
    here is known. */
module Tokens {
  import opened Http

  /** A JSON value stored under a claim name (jwt.MapClaims holds `any`). */
  datatype ClaimValue = Null | Bool(b: bool) | Num(n: int) | Str(s: string)

  type Claims = map<string, ClaimValue>

  /** Indexing a MapClaims: an absent key reads as nil. */
  function Claim(c: Claims, key: string): ClaimValue
  {
    if key in c then c[key] else Null
  }

  /** The five-key claim set every issued token carries. */
  function NewClaims(email: ClaimValue, name: ClaimValue, admin: ClaimValue, owner: ClaimValue, exp: ClaimValue): Claims
  {
    map["email" := email, "name" := name, "admin" := admin, "owner" := owner, "exp" := exp]
  }

  const HOUR := 3600

  /** Unix seconds between issuance and expiry: time.Hour * 72. */
  const TOKEN_LIFETIME := 72 * HOUR

  /** What bcrypt.CompareHashAndPassword reports. */
  datatype Compare = Match | Mismatch | Malformed

  /** bcrypt: `generate(password, cost)` is GenerateFromPassword (None when it
      fails), `compare(hash, password)` is CompareHashAndPassword. */
  datatype Hasher = Hasher(generate: (string, int) -> Option<string>, compare: (string, string) -> Compare)

  /** The one thing assumed of bcrypt: a hash it produced verifies
      against the password it was produced from. */
  ghost predicate Sound(h: Hasher)
  {
    forall p: string, cost: int :: h.generate(p, cost).Some? ==> h.compare(h.generate(p, cost).value, p) == Match
  }

  /** What jwtware makes of the presented bearer token: the verified claims,
      or the error response it sends itself. */
  datatype TokenCheck = Accepted(claims: Claims) | Refused(response: Response)

  /** Process-wide configuration: the signing key and owner UUID read from
      the environment once, and the collaborators that use the key.
      `sign(secret, claims)` is token.SignedString (None when it fails);
      `verify(secret, bearer, now)` is jwtware's signature and expiry check. */
  datatype Config = Config(
    secret: seq<byte>,
    ownerUuid: string,
    hasher: Hasher,
    sign: (seq<byte>, Claims) -> Option<string>,
    verify: (seq<byte>, Option<string>, int) -> TokenCheck)

  /** A verifier that accepts only tokens carrying a numeric `exp` claim and
      never one at or after its `exp` second. The claim is optional to the JWT
      library, but every token this service signs has one: login sets it and
      updateUser copies it from a token that was already accepted. */
  ghost predicate EnforcesExpiry(cfg: Config)
  {
    forall bearer: Option<string>, now: int ::
      cfg.verify(cfg.secret, bearer, now).Accepted? ==>
        var exp := Claim(cfg.verify(cfg.secret, bearer, now).claims, "exp");
        exp.Num? && now < exp.n
  }

  /** A verifier that accepts, with exactly its claims, every token the key
      signed while the token's `exp` second has not been reached. */
  ghost predicate Authentic(cfg: Config)
  {
    forall claims: Claims, now: int ::
      cfg.sign(cfg.secret, claims).Some? && Claim(claims, "exp").Num? && now < Claim(claims, "exp").n ==>
        cfg.verify(cfg.secret, Some(cfg.sign(cfg.secret, claims).value), now) == Accepted(claims)
  }
}
