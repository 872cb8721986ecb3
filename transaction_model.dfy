/**
 * The transaction document (backend/src/models/Transaction.js): its fields,
 * the schema's casting and validation as a validity predicate, the defaults,
 * and the `formattedAmount` virtual.
 *
 * Amounts are JavaScript numbers; the model uses `real`, whose values are
 * all finite, so the schema's `Number.isFinite` test always holds here.
 * Dates are milliseconds since the epoch.
 */
module TransactionModel {
  import opened Wrappers
  import opened Text

  type UserId = nat
  type TransactionId = nat

  /** The two values of the `type` enum. */
  datatype TxType = Income | Expense

  function TypeName(t: TxType): string {
    match t
    case Income => "income"
    case Expense => "expense"
  }

  /** The enum check `['income', 'expense'].includes(s)`, returning the matching value. */
  function ParseType(s: string): (r: Option<TxType>)
    ensures r.Some? <==> (s == "income" || s == "expense")
    ensures r.Some? ==> TypeName(r.value) == s
  {
    if s == "income" then Some(Income)
    else if s == "expense" then Some(Expense)
    else None
  }

  lemma ParseTypeName(t: TxType)
    ensures ParseType(TypeName(t)) == Some(t)
  {
  }

  datatype Transaction = Transaction(
    id: TransactionId,
    user: UserId,
    amount: real,
    txType: TxType,
    description: string,
    date: nat,
    category: string)

  const MIN_AMOUNT: real := 0.01
  const MAX_DESCRIPTION_LENGTH: nat := 200
  const MAX_CATEGORY_LENGTH: nat := 50

  /** One failed schema validator, named after its path and kind. */
  datatype SchemaError =
    | AmountRequired | AmountBelowMinimum
    | TypeRequired | TypeNotInEnum
    | DescriptionRequired | DescriptionTooLong
    | CategoryRequired | CategoryTooLong
    | UserRequired

  /** The schema's constraints on a stored document. */
  predicate ValidAmount(a: real) {
    a >= MIN_AMOUNT && a > 0.0
  }

  predicate ValidDescription(d: string) {
    d != "" && |d| <= MAX_DESCRIPTION_LENGTH && IsTrimmed(d)
  }

  predicate ValidCategory(c: string) {
    c != "" && |c| <= MAX_CATEGORY_LENGTH
  }

  predicate Valid(t: Transaction) {
    ValidAmount(t.amount) && ValidDescription(t.description) && ValidCategory(t.category)
  }

  /* Per-path validation. A path reports at most its first failing validator
     (required first, then the others in the order the schema lists them). */

  function CheckAmount(a: Option<real>): (errs: seq<SchemaError>)
    ensures errs == [] <==> (a.Some? && ValidAmount(a.value))
  {
    if a.None? then [AmountRequired]
    else if a.value < MIN_AMOUNT then [AmountBelowMinimum]
    else []
  }

  function CheckType(s: Option<string>): (errs: seq<SchemaError>)
    ensures errs == [] <==> (s.Some? && ParseType(s.value).Some?)
  {
    if s.None? || s.value == "" then [TypeRequired]
    else if ParseType(s.value).None? then [TypeNotInEnum]
    else []
  }

  /** `trim: true` runs as a setter, before validation. */
  function CheckDescription(s: Option<string>): (errs: seq<SchemaError>)
    ensures errs == [] <==> (s.Some? && ValidDescription(Trim(s.value)))
  {
    TrimSpec(if s.Some? then s.value else "");
    if s.None? || Trim(s.value) == "" then [DescriptionRequired]
    else if |Trim(s.value)| > MAX_DESCRIPTION_LENGTH then [DescriptionTooLong]
    else []
  }

  function CheckCategory(s: Option<string>): (errs: seq<SchemaError>)
    ensures errs == [] <==> (s.Some? && ValidCategory(s.value))
  {
    if s.None? || s.value == "" then [CategoryRequired]
    else if |s.value| > MAX_CATEGORY_LENGTH then [CategoryTooLong]
    else []
  }

  /** The fields handed to `new Transaction(...)`; anything else is dropped by the strict schema. */
  datatype Draft = Draft(
    amount: Option<real>,
    txType: Option<string>,
    description: Option<string>,
    date: Option<nat>,
    category: Option<string>,
    user: Option<UserId>)

  /**
   * Casting and validating a new document, as `save()` does: description
   * trimmed, date defaulting to `now`, and the list of failed validators
   * in path order when any fails.
   */
  function Build(d: Draft, id: TransactionId, now: nat): (r: Result<Transaction, seq<SchemaError>>)
    ensures r.Ok? <==> CheckAmount(d.amount) == CheckType(d.txType) == CheckDescription(d.description)
                       == CheckCategory(d.category) == [] && d.user.Some?
    ensures r.Err? ==> r.error != []
    ensures r.Ok? ==> Valid(r.value)
    ensures r.Ok? ==> r.value == Transaction(id, d.user.value, d.amount.value,
                                            ParseType(d.txType.value).value,
                                            Trim(d.description.value),
                                            d.date.GetOr(now), d.category.value)
  {
    var errs := CheckAmount(d.amount) + CheckType(d.txType) + CheckDescription(d.description)
                + CheckCategory(d.category) + (if d.user.None? then [UserRequired] else []);
    if errs != [] then Err(errs)
    else Ok(Transaction(id, d.user.value, d.amount.value, ParseType(d.txType.value).value,
                        Trim(d.description.value), d.date.GetOr(now), d.category.value))
  }

  /** An update document for `findOneAndUpdate`: each present field is set. */
  datatype Patch = Patch(
    amount: Option<real>,
    txType: Option<string>,
    description: Option<string>,
    date: Option<nat>,
    category: Option<string>,
    user: Option<UserId>)

  /** The update validators (`runValidators: true`) check only the paths the update sets. */
  function PatchErrors(p: Patch): seq<SchemaError> {
    (if p.amount.Some? then CheckAmount(p.amount) else [])
    + (if p.txType.Some? then CheckType(p.txType) else [])
    + (if p.description.Some? then CheckDescription(p.description) else [])
    + (if p.category.Some? then CheckCategory(p.category) else [])
  }

  /**
   * The document after the update: set fields replaced (description trimmed),
   * the rest untouched; a failed validator rejects the whole update.
   */
  function ApplyPatch(t: Transaction, p: Patch): (r: Result<Transaction, seq<SchemaError>>)
    ensures r.Ok? <==> PatchErrors(p) == []
    ensures r.Err? ==> r.error != []
    ensures r.Ok? ==> r.value.id == t.id
    ensures r.Ok? ==> r.value.user == p.user.GetOr(t.user)
    ensures r.Ok? ==> r.value.amount == p.amount.GetOr(t.amount)
    ensures r.Ok? ==> r.value.txType == (if p.txType.Some? then ParseType(p.txType.value).value else t.txType)
    ensures r.Ok? ==> r.value.description == (if p.description.Some? then Trim(p.description.value) else t.description)
    ensures r.Ok? ==> r.value.date == p.date.GetOr(t.date)
    ensures r.Ok? ==> r.value.category == p.category.GetOr(t.category)
    ensures r.Ok? && Valid(t) ==> Valid(r.value)
  {
    var errs := PatchErrors(p);
    if errs != [] then Err(errs)
    else
      var ty := if p.txType.Some? then ParseType(p.txType.value).value else t.txType;
      var desc := if p.description.Some? then Trim(p.description.value) else t.description;
      Ok(Transaction(t.id, p.user.GetOr(t.user), p.amount.GetOr(t.amount), ty, desc,
                     p.date.GetOr(t.date), p.category.GetOr(t.category)))
  }

  /** The `formattedAmount` virtual: the amount signed by the type. */
  function FormattedAmount(t: Transaction): real {
    if t.txType == Expense then -t.amount else t.amount
  }

  /** For a stored (valid) document the sign of `formattedAmount` tells the type, and its magnitude is the amount. */
  lemma FormattedAmountSign(t: Transaction)
    requires Valid(t)
    ensures FormattedAmount(t) < 0.0 <==> t.txType == Expense
    ensures FormattedAmount(t) > 0.0 <==> t.txType == Income
    ensures (if FormattedAmount(t) < 0.0 then -FormattedAmount(t) else FormattedAmount(t)) == t.amount
  {
  }

  /** An amount below one cent is rejected by the schema even though it is positive. */
  lemma SubCentAmountRejected(d: Draft, id: TransactionId, now: nat)
    requires d.amount == Some(0.005)
    ensures Build(d, id, now).Err?
    ensures AmountBelowMinimum in Build(d, id, now).error
  {
  }
}
