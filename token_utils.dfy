/**
 * The browser's token helpers: split a token into its three parts, read the
 * `exp` claim of the payload without checking the signature, and compare it
 * with the clock. Decoding the middle part (base64url and JSON) is a
 * parameter; it yields `None` where the browser would throw.
 */
module TokenUtils {
  import opened Wrappers
  import opened Text

  /** The part of a decoded payload the helpers read: `exp`, in seconds, when present. */
  datatype Payload = Payload(exp: Option<int>)

  const DEFAULT_BUFFER_SECONDS: int := 60
  const DEFAULT_THRESHOLD_MINUTES: int := 5

  predicate Truthy(token: Option<string>) {
    token.Some? && token.value != ""
  }

  /** `Math.floor(Date.now() / 1000)` */
  function NowSeconds(nowMs: nat): int { nowMs / 1000 }

  /** `decodeToken` */
  function DecodeToken(token: Option<string>, parse: string -> Option<Payload>): (r: Option<Payload>)
    ensures !Truthy(token) ==> r.None?
    ensures Truthy(token) && |Split(token.value, '.')| != 3 ==> r.None?
    ensures Truthy(token) && |Split(token.value, '.')| == 3 ==> r == parse(Split(token.value, '.')[1])
  {
    if !Truthy(token) then None
    else
      var parts := Split(token.value, '.');
      if |parts| != 3 then None else parse(parts[1])
  }

  /** A token of exactly three parts has exactly two dots, and the part handed to the decoder holds none. */
  lemma DecodeShape(token: string, parse: string -> Option<Payload>)
    requires token != "" && DecodeToken(Some(token), parse).Some?
    ensures Count(token, '.') == 2
    ensures '.' !in Split(token, '.')[1]
  {
  }

  /** The `exp` a token carries when its payload decodes and `exp` is truthy (present and not 0). */
  function Exp(token: Option<string>, parse: string -> Option<Payload>): (r: Option<int>)
    ensures r.Some? <==>
      DecodeToken(token, parse).Some? && DecodeToken(token, parse).value.exp.Some?
      && DecodeToken(token, parse).value.exp.value != 0
    ensures r.Some? ==> r.value != 0 && r == DecodeToken(token, parse).value.exp
  {
    var d := DecodeToken(token, parse);
    if d.None? || d.value.exp.None? || d.value.exp.value == 0 then None else d.value.exp
  }

  /** `isTokenExpired(token, bufferSeconds)` */
  function IsTokenExpired(token: Option<string>, parse: string -> Option<Payload>, bufferSeconds: int, nowMs: nat): (b: bool)
    ensures Exp(token, parse).None? ==> b
    ensures Exp(token, parse).Some? ==> (b <==> NowSeconds(nowMs) >= Exp(token, parse).value - bufferSeconds)
  {
    var exp := Exp(token, parse);
    exp.None? || NowSeconds(nowMs) >= exp.value - bufferSeconds
  }

  /** `getTokenExpiration`: the expiry in milliseconds. */
  function GetTokenExpiration(token: Option<string>, parse: string -> Option<Payload>): (r: Option<int>)
    ensures r.Some? <==> Exp(token, parse).Some?
    ensures r.Some? ==> r.value == Exp(token, parse).value * 1000 && r.value % 1000 == 0
  {
    var exp := Exp(token, parse);
    if exp.None? then None else Some(exp.value * 1000)
  }

  /** `getTimeUntilExpiration`: whole seconds left, never negative. */
  function GetTimeUntilExpiration(token: Option<string>, parse: string -> Option<Payload>, nowMs: nat): (r: int)
    ensures r >= 0
    ensures Exp(token, parse).None? ==> r == 0
    ensures Exp(token, parse).Some? && Exp(token, parse).value > NowSeconds(nowMs) ==>
      r == Exp(token, parse).value - NowSeconds(nowMs)
    ensures Exp(token, parse).Some? && Exp(token, parse).value <= NowSeconds(nowMs) ==> r == 0
  {
    var exp := Exp(token, parse);
    if exp.None? then 0
    else if exp.value - NowSeconds(nowMs) > 0 then exp.value - NowSeconds(nowMs) else 0
  }

  /** `shouldRefreshToken(token, refreshThresholdMinutes)` */
  function ShouldRefreshToken(token: Option<string>, parse: string -> Option<Payload>, thresholdMinutes: int, nowMs: nat): bool {
    var left := GetTimeUntilExpiration(token, parse, nowMs);
    left > 0 && left <= thresholdMinutes * 60
  }

  /** For any buffer of zero or more seconds, a token counts as expired exactly when at most that many seconds are left. */
  lemma ExpiredIffLittleTimeLeft(token: Option<string>, parse: string -> Option<Payload>, bufferSeconds: int, nowMs: nat)
    requires bufferSeconds >= 0
    ensures IsTokenExpired(token, parse, bufferSeconds, nowMs) <==>
      GetTimeUntilExpiration(token, parse, nowMs) <= bufferSeconds
  {
  }

  /**
   * A token is due for refresh exactly when it has not expired yet but is
   * inside the threshold; in particular an expired token is never due.
   */
  lemma RefreshWindow(token: Option<string>, parse: string -> Option<Payload>, thresholdMinutes: int, nowMs: nat)
    requires thresholdMinutes >= 0
    ensures ShouldRefreshToken(token, parse, thresholdMinutes, nowMs) <==>
      !IsTokenExpired(token, parse, 0, nowMs) && IsTokenExpired(token, parse, thresholdMinutes * 60, nowMs)
    ensures IsTokenExpired(token, parse, 0, nowMs) ==> !ShouldRefreshToken(token, parse, thresholdMinutes, nowMs)
  {
    ExpiredIffLittleTimeLeft(token, parse, 0, nowMs);
    ExpiredIffLittleTimeLeft(token, parse, thresholdMinutes * 60, nowMs);
  }

  /** With the defaults, a token with between one and sixty seconds left is already treated as expired and also due for refresh. */
  lemma DefaultsOverlap(token: Option<string>, parse: string -> Option<Payload>, nowMs: nat)
    requires 0 < GetTimeUntilExpiration(token, parse, nowMs) <= DEFAULT_BUFFER_SECONDS
    ensures IsTokenExpired(token, parse, DEFAULT_BUFFER_SECONDS, nowMs)
    ensures ShouldRefreshToken(token, parse, DEFAULT_THRESHOLD_MINUTES, nowMs)
  {
    ExpiredIffLittleTimeLeft(token, parse, DEFAULT_BUFFER_SECONDS, nowMs);
  }
}
