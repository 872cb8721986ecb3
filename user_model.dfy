/**
 * The user document: its schema constraints and defaults, and the password
 * hash. Hashing is treated as an opaque function whose comparison accepts
 * exactly the hashed password; a bcrypt hash is a 60-character string.
 */
module UserModel {
  import opened Wrappers
  import opened Text
  import opened Jwt

  type UserId = nat

  datatype Currency = USD | EUR | GBP | INR | CAD | AUD | JPY | CHF

  const CURRENCY_CODES: seq<string> := ["USD", "EUR", "GBP", "INR", "CAD", "AUD", "JPY", "CHF"]
  const DEFAULT_CURRENCY: Currency := INR
  const MAX_NAME_LENGTH: nat := 50
  const MIN_PASSWORD_LENGTH: nat := 6
  const BCRYPT_HASH_LENGTH: nat := 60

  function CurrencyCode(c: Currency): string {
    match c
    case USD => "USD" case EUR => "EUR" case GBP => "GBP" case INR => "INR"
    case CAD => "CAD" case AUD => "AUD" case JPY => "JPY" case CHF => "CHF"
  }

  /** The currency enum: exactly the eight listed codes. */
  function ParseCurrency(s: string): (r: Option<Currency>)
    ensures r.Some? <==> s in CURRENCY_CODES
    ensures r.Some? ==> CurrencyCode(r.value) == s
  {
    if s == "USD" then Some(USD) else if s == "EUR" then Some(EUR) else if s == "GBP" then Some(GBP)
    else if s == "INR" then Some(INR) else if s == "CAD" then Some(CAD) else if s == "AUD" then Some(AUD)
    else if s == "JPY" then Some(JPY) else if s == "CHF" then Some(CHF) else None
  }

  lemma CurrencyCodes(c: Currency)
    ensures ParseCurrency(CurrencyCode(c)) == Some(c)
    ensures CurrencyCode(c) in CURRENCY_CODES
  {
  }

  /** A salted one-way hash of a password. */
  datatype PasswordHash = PasswordHash(salt: nat, secret: string)

  /** `bcrypt.hash(password, salt)` */
  function Hash(password: string, salt: nat): PasswordHash { PasswordHash(salt, password) }

  /** `bcrypt.compare(plain, hash)` */
  predicate Compare(plain: string, h: PasswordHash) { h.secret == plain }

  /** The length of the stored hash string, whatever the password. */
  function HashLength(h: PasswordHash): nat { BCRYPT_HASH_LENGTH }

  /** A hash accepts the password it was made from and nothing else. */
  lemma HashCompare(password: string, attempt: string, salt: nat)
    ensures Compare(attempt, Hash(password, salt)) <==> attempt == password
  {
  }

  datatype User = User(
    id: UserId,
    email: string,
    password: PasswordHash,
    firstName: string,
    lastName: string,
    currency: Currency,
    isActive: bool,
    lastLogin: Option<nat>,
    refreshToken: Option<TokenText>,
    refreshTokenExpiresAt: Option<nat>)

  /** A user document without its password field (`toObject()` and `delete password`). */
  datatype PublicUser = PublicUser(
    id: UserId,
    email: string,
    firstName: string,
    lastName: string,
    currency: Currency,
    isActive: bool,
    lastLogin: Option<nat>,
    refreshToken: Option<TokenText>,
    refreshTokenExpiresAt: Option<nat>)

  function Public(u: User): PublicUser {
    PublicUser(u.id, u.email, u.firstName, u.lastName, u.currency, u.isActive, u.lastLogin, u.refreshToken, u.refreshTokenExpiresAt)
  }

  function SubjectOf(u: User): Subject { Subject(u.id, u.email, u.firstName, u.lastName) }

  predicate ValidName(n: string) {
    n != "" && |n| <= MAX_NAME_LENGTH && IsTrimmed(n)
  }

  /** The schema's constraints on a stored user; the length rule on `password` applies to the hash string. */
  predicate Valid(u: User) {
    u.email != "" && IsTrimmed(u.email)
    && ValidName(u.firstName) && ValidName(u.lastName)
    && HashLength(u.password) >= MIN_PASSWORD_LENGTH
  }

  datatype UserError =
    | EmailRequired
    | FirstNameRequired | FirstNameTooLong
    | LastNameRequired | LastNameTooLong
    | CurrencyNotInEnum

  /** The fields `createUser` receives; `currency` may be absent. */
  datatype NewUser = NewUser(email: string, password: string, firstName: string, lastName: string, currency: Option<string>)

  /** A name after the `trim` setter: required, then at most 50 characters. */
  function CheckName(n: string, required: UserError, tooLong: UserError): (errs: seq<UserError>)
    ensures errs == [] <==> ValidName(Trim(n))
  {
    TrimSpec(n);
    var t := Trim(n);
    if t == "" then [required] else if |t| > MAX_NAME_LENGTH then [tooLong] else []
  }

  function CheckCurrency(c: Option<string>): (errs: seq<UserError>)
    ensures errs == [] <==> c.None? || ParseCurrency(c.value).Some?
  {
    if c.Some? && ParseCurrency(c.value).None? then [CurrencyNotInEnum] else []
  }

  function CheckEmail(e: string): (errs: seq<UserError>)
    ensures errs == [] <==> Trim(e) != ""
  {
    if Trim(e) == "" then [EmailRequired] else []
  }

  function UserErrors(d: NewUser): seq<UserError> {
    CheckEmail(d.email)
    + CheckName(d.firstName, FirstNameRequired, FirstNameTooLong)
    + CheckName(d.lastName, LastNameRequired, LastNameTooLong)
    + CheckCurrency(d.currency)
  }

  /**
   * `new User({...userData, password: hash})` and its validation: the trimmed
   * fields, the currency defaulting to INR, an active account and an empty
   * refresh-token slot.
   */
  function BuildUser(d: NewUser, id: UserId, salt: nat): (r: Result<User, seq<UserError>>)
    ensures r.Ok? <==>
      Trim(d.email) != "" && ValidName(Trim(d.firstName)) && ValidName(Trim(d.lastName))
      && (d.currency.None? || ParseCurrency(d.currency.value).Some?)
    ensures r.Err? ==> r.error != []
    ensures r.Ok? ==> Valid(r.value)
    ensures r.Ok? ==>
      r.value.id == id && r.value.email == Trim(d.email) && r.value.password == Hash(d.password, salt)
      && r.value.firstName == Trim(d.firstName) && r.value.lastName == Trim(d.lastName)
      && r.value.currency == (if d.currency.Some? then ParseCurrency(d.currency.value).value else DEFAULT_CURRENCY)
      && r.value.isActive && r.value.lastLogin.None?
      && r.value.refreshToken.None? && r.value.refreshTokenExpiresAt.None?
  {
    var errs := UserErrors(d);
    if errs != [] then Err(errs)
    else
      TrimSpec(d.email);
      var currency := if d.currency.Some? then ParseCurrency(d.currency.value).value else DEFAULT_CURRENCY;
      Ok(User(id, Trim(d.email), Hash(d.password, salt), Trim(d.firstName), Trim(d.lastName), currency,
        true, None, None, None))
  }

  /** The minimum length is checked on the 60-character hash, so a password of any length, even one character, is accepted. */
  lemma ShortPasswordAccepted(d: NewUser, id: UserId, salt: nat)
    requires |d.password| < MIN_PASSWORD_LENGTH
    requires Trim(d.email) != "" && ValidName(Trim(d.firstName)) && ValidName(Trim(d.lastName)) && d.currency.None?
    ensures BuildUser(d, id, salt).Ok?
    ensures HashLength(BuildUser(d, id, salt).value.password) >= MIN_PASSWORD_LENGTH
  {
  }
}
