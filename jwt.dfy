/**
 * Signed tokens as the backend issues and checks them. Signing is treated
 * as an opaque, deterministic, injective function: a signed token is the
 * record of its payload, the key it was signed with, and its issue and
 * expiry times in whole seconds. Any other text never verifies.
 */
module Jwt {
  import opened Wrappers

  /** The two payloads the backend signs; the jsonwebtoken library adds `iat` and `exp`. */
  datatype Claims =
    | AccessClaims(id: nat, email: string, firstName: string, lastName: string)
    | RefreshClaims(id: nat)

  datatype Token = Token(claims: Claims, key: string, iat: nat, exp: nat)

  /** The text of a token as it travels in headers and bodies. */
  datatype TokenText = Signed(token: Token) | Other(text: string)

  const FALLBACK_SECRET := "super-secret-finance-tracker-key"
  /** `'60m'` and `'1d'`, in seconds. */
  const DEFAULT_ACCESS_LIFETIME: nat := 3600
  const DEFAULT_REFRESH_LIFETIME: nat := 86400
  const INVALID_TOKEN := "Invalid or expired token"

  /** `Math.floor(Date.now() / 1000)` */
  function Seconds(nowMs: nat): nat { nowMs / 1000 }

  /** `jwt.sign(claims, key, { expiresIn: lifetime })` at time `nowMs`. */
  function Sign(claims: Claims, key: string, nowMs: nat, lifetime: nat): TokenText {
    Signed(Token(claims, key, Seconds(nowMs), Seconds(nowMs) + lifetime))
  }

  /** `verifyToken`: the payload of a token signed with `key` that has not expired; every failure has one message. */
  function Verify(t: TokenText, key: string, nowMs: nat): (r: Result<Claims, string>)
    ensures r.Err? ==> r.error == INVALID_TOKEN
    ensures r.Ok? <==> t.Signed? && t.token.key == key && Seconds(nowMs) < t.token.exp
  {
    if t.Signed? && t.token.key == key && Seconds(nowMs) < t.token.exp then Ok(t.token.claims)
    else Err(INVALID_TOKEN)
  }

  /**
   * A token verifies under its own key, returning its payload, exactly until
   * `lifetime` seconds after the second it was issued; under another key,
   * or as unsigned text, it never verifies.
   */
  lemma SignVerify(c: Claims, key: string, issuedMs: nat, lifetime: nat, nowMs: nat, otherKey: string, text: string)
    requires otherKey != key
    ensures Verify(Sign(c, key, issuedMs, lifetime), key, nowMs) ==
      (if Seconds(nowMs) < Seconds(issuedMs) + lifetime then Ok(c) else Err(INVALID_TOKEN))
    ensures Verify(Sign(c, key, issuedMs, lifetime), otherKey, nowMs) == Err(INVALID_TOKEN)
    ensures Verify(Other(text), key, nowMs) == Err(INVALID_TOKEN)
  {
  }

  /** Signing is deterministic: the same payload and key in the same second give the same token, and different payloads different tokens. */
  lemma SignInjective(c1: Claims, c2: Claims, key: string, t1: nat, t2: nat, lifetime: nat)
    ensures Sign(c1, key, t1, lifetime) == Sign(c2, key, t2, lifetime) <==> c1 == c2 && Seconds(t1) == Seconds(t2)
  {
  }

  /** The identity `generateAuthTokens` reads from a user. */
  datatype Subject = Subject(id: nat, email: string, firstName: string, lastName: string)

  function AccessPayload(u: Subject): Claims { AccessClaims(u.id, u.email, u.firstName, u.lastName) }
  function RefreshPayload(u: Subject): Claims { RefreshClaims(u.id) }

  /** An environment variable counts as set when it is present and not empty. */
  predicate IsSet(v: Option<string>) { v.Some? && v.value != "" }

  /**
   * The process-wide token configuration: the `JWT_SECRET` variable, the two
   * lifetimes, and the flag that keeps the fallback warning to one.
   */
  class TokenService {
    const secretVar: Option<string>
    const accessLifetime: nat
    const refreshLifetime: nat
    var warned: bool
    /** How many fallback warnings have been written to the console. */
    var warnings: nat

    /** The key every token is signed and checked with. */
    function Secret(): string {
      if IsSet(secretVar) then secretVar.value else FALLBACK_SECRET
    }

    /** At most one warning, and only when the fallback is in use. */
    ghost predicate WarnedOnce()
      reads this
    {
      warnings == (if warned then 1 else 0) && (warned ==> !IsSet(secretVar))
    }

    constructor (secretVar: Option<string>, accessLifetime: Option<nat>, refreshLifetime: Option<nat>)
      ensures this.secretVar == secretVar
      ensures this.accessLifetime == accessLifetime.GetOr(DEFAULT_ACCESS_LIFETIME)
      ensures this.refreshLifetime == refreshLifetime.GetOr(DEFAULT_REFRESH_LIFETIME)
      ensures !warned && warnings == 0 && WarnedOnce()
    {
      this.secretVar := secretVar;
      this.accessLifetime := accessLifetime.GetOr(DEFAULT_ACCESS_LIFETIME);
      this.refreshLifetime := refreshLifetime.GetOr(DEFAULT_REFRESH_LIFETIME);
      warned := false;
      warnings := 0;
    }

    /** `getJWTSecret`: the variable's value or the fallback; the first use of the fallback warns. */
    method GetSecret() returns (secret: string)
      requires WarnedOnce()
      modifies this
      ensures WarnedOnce()
      ensures secret == Secret()
      ensures warned == (old(warned) || !IsSet(secretVar))
      ensures warnings == old(warnings) + (if !IsSet(secretVar) && !old(warned) then 1 else 0)
    {
      secret := if IsSet(secretVar) then secretVar.value else FALLBACK_SECRET;
      if !IsSet(secretVar) && !warned {
        warnings := warnings + 1;
        warned := true;
      }
    }

    /** `generateAuthTokens`: an access token for the full identity and a refresh token for the id alone. */
    method GenerateAuthTokens(u: Subject, nowMs: nat) returns (access: TokenText, refresh: TokenText)
      requires WarnedOnce()
      modifies this
      ensures WarnedOnce()
      ensures access == Sign(AccessPayload(u), Secret(), nowMs, accessLifetime)
      ensures refresh == Sign(RefreshPayload(u), Secret(), nowMs, refreshLifetime)
      ensures warned == (old(warned) || !IsSet(secretVar))
    {
      var key := GetSecret();
      access := Sign(AccessPayload(u), key, nowMs, accessLifetime);
      key := GetSecret();
      refresh := Sign(RefreshPayload(u), key, nowMs, refreshLifetime);
    }

    /** `verifyToken` with the configured key. */
    method VerifyToken(t: TokenText, nowMs: nat) returns (r: Result<Claims, string>)
      requires WarnedOnce()
      modifies this
      ensures WarnedOnce()
      ensures r == Verify(t, Secret(), nowMs)
      ensures warned == (old(warned) || !IsSet(secretVar))
    {
      var key := GetSecret();
      r := Verify(t, key, nowMs);
    }
  }
}
