/**
 * The transaction endpoints: request validation for create and update, the
 * option defaults of the list and analytics endpoints, and the mapping from
 * service errors to HTTP statuses.
 *
 * A request body's `amount` is given as the JSON value it holds. A textual
 * value carries two readings: the number `Number()` coerces it to, which the
 * handlers check, and the number `parseFloat` reads from its start, which
 * they store. The two differ: `"0x10"` coerces to 16 but parses as 0.
 */
module TransactionController {
  import opened Wrappers
  import opened Http
  import opened TransactionModel
  import opened Groups
  import opened TransactionService

  const MISSING_FIELDS := "Amount, type, description, and category are required"
  const BAD_TYPE := "Type must be either income or expense"
  const BAD_AMOUNT := "Amount must be a positive number"
  const CREATED := "Transaction created successfully"
  const CREATE_FAILED := "Failed to create transaction"
  const UPDATED := "Transaction updated successfully"
  const UPDATE_FAILED := "Failed to update transaction"
  const DELETED := "Transaction deleted successfully"
  const CATEGORY_NOT_FOUND := "Category not found"
  const TYPE_MISMATCH := "Transaction type must match category type"
  const SUMMARY_FAILED := "Failed to fetch financial summary"

  /** The JSON value of `amount`: absent (`undefined`), `null`, a number, or a string. */
  datatype AmountInput = Missing | Null | Number(x: real) | Text(text: string, numeric: Option<real>, parsed: Option<real>)

  /** `!amount` */
  predicate AmountFalsy(a: AmountInput) {
    a.Missing? || a.Null? || (a.Number? && a.x == 0.0) || (a.Text? && a.text == "")
  }

  /** The number the value coerces to (`Number()`, as `isNaN` and `<=` see it), or None for NaN. */
  function AmountValue(a: AmountInput): Option<real> {
    match a
    case Missing => None
    case Null => Some(0.0)
    case Number(x) => Some(x)
    case Text(_, v, _) => v
  }

  /** `parseFloat(amount)`, the number the handlers store, or None for NaN. */
  function StoredAmount(a: AmountInput): Option<real> {
    match a
    case Missing => None
    case Null => None
    case Number(x) => Some(x)
    case Text(_, _, v) => v
  }

  /** `isNaN(amount) || amount <= 0` */
  predicate AmountRejected(a: AmountInput) {
    AmountValue(a).None? || AmountValue(a).value <= 0.0
  }

  /** `['income', 'expense'].includes(type)` */
  predicate IsTypeName(s: string) {
    s == "income" || s == "expense"
  }

  /** The fields of a create request's body that the handler reads; dates are parsed timestamps. */
  datatype CreateBody = CreateBody(
    amount: AmountInput,
    txType: Option<string>,
    description: Option<string>,
    date: Option<nat>,
    category: Option<string>)

  predicate MissingField(b: CreateBody) {
    AmountFalsy(b.amount) || !Truthy(b.txType) || !Truthy(b.description) || !Truthy(b.category)
  }

  /** The create handler's early returns, in order: a missing field, a bad type, a bad amount. */
  function CreateCheck(b: CreateBody): Option<Response> {
    if MissingField(b) then Some(Response(400, MISSING_FIELDS))
    else if !IsTypeName(b.txType.value) then Some(Response(400, BAD_TYPE))
    else if AmountRejected(b.amount) then Some(Response(400, BAD_AMOUNT))
    else None
  }

  /**
   * The create checks: a falsy field is reported first; then a type outside
   * income and expense; then an amount that is not a number or not positive.
   * A body that passes has a positive amount and a known type.
   */
  lemma CreateValidation(b: CreateBody)
    ensures MissingField(b) ==> CreateCheck(b) == Some(Response(400, MISSING_FIELDS))
    ensures !MissingField(b) && !IsTypeName(b.txType.value) ==> CreateCheck(b) == Some(Response(400, BAD_TYPE))
    ensures !MissingField(b) && IsTypeName(b.txType.value) && AmountRejected(b.amount) ==>
      CreateCheck(b) == Some(Response(400, BAD_AMOUNT))
    ensures CreateCheck(b).Some? ==> CreateCheck(b).value.status == 400
    ensures CreateCheck(b).None? <==>
      !MissingField(b) && IsTypeName(b.txType.value) && AmountValue(b.amount).Some? && AmountValue(b.amount).value > 0.0
  {
  }

  /** The document the handler asks the service to create: the caller as owner, and now as the default date. */
  function DraftOf(b: CreateBody, userId: UserId, now: nat): Draft {
    Draft(StoredAmount(b.amount), b.txType, b.description, Some(b.date.GetOr(now)), b.category, Some(userId))
  }

  /**
   * A created record belongs to the caller, is dated now unless a date was
   * given, holds the `parseFloat` reading of the amount, and satisfies the schema.
   */
  lemma CreatedRecord(b: CreateBody, userId: UserId, now: nat, id: TransactionId)
    requires CreateCheck(b).None?
    requires Build(DraftOf(b, userId, now), id, now).Ok?
    ensures
      var t := Build(DraftOf(b, userId, now), id, now).value;
      t.user == userId && t.date == b.date.GetOr(now) && StoredAmount(b.amount).Some? && t.amount == StoredAmount(b.amount).value
      && TypeName(t.txType) == b.txType.value && Valid(t)
  {
    var t := Build(DraftOf(b, userId, now), id, now).value;
    ParseTypeName(t.txType);
  }

  /** An amount of 0.005 passes the handler's own check but not the schema's minimum, so the request fails with 500. */
  lemma SubCentCreateFails(b: CreateBody, userId: UserId, now: nat, id: TransactionId)
    requires !MissingField(b) && IsTypeName(b.txType.value)
    requires b.amount == Number(0.005)
    ensures CreateCheck(b).None?
    ensures Build(DraftOf(b, userId, now), id, now).Err?
  {
    SubCentAmountRejected(DraftOf(b, userId, now), id, now);
  }

  /**
   * A hexadecimal amount such as `"0x10"` passes the handler's check, since
   * `Number` reads 16, but `parseFloat` stores 0, which the schema's
   * minimum rejects, so the request fails with 500.
   */
  lemma HexAmountCreateFails(b: CreateBody, userId: UserId, now: nat, id: TransactionId)
    requires !MissingField(b) && IsTypeName(b.txType.value)
    requires b.amount == Text("0x10", Some(16.0), Some(0.0))
    ensures CreateCheck(b).None?
    ensures Build(DraftOf(b, userId, now), id, now).Err?
    ensures AmountBelowMinimum in Build(DraftOf(b, userId, now), id, now).error
  {
  }

  /**
   * `createTransactionController`. The service reports only validation
   * failures, so the "Category not found" (404) and type mismatch branches of
   * the error handler are never taken.
   */
  method CreateTransactionController(store: TransactionStore, userId: UserId, b: CreateBody, now: nat)
    returns (resp: Response)
    requires store.Consistent()
    modifies store
    ensures store.Consistent()
    ensures resp.status == 201 || resp.status == 400 || resp.status == 500
    ensures CreateCheck(b).Some? ==>
      resp == CreateCheck(b).value && store.transactions == old(store.transactions) && store.nextId == old(store.nextId)
    ensures CreateCheck(b).None? ==>
      var built := Build(DraftOf(b, userId, now), old(store.nextId), now);
      (built.Ok? ==> resp == Response(201, CREATED) && store.transactions == old(store.transactions) + [built.value])
      && (built.Err? ==> resp == Response(500, CREATE_FAILED) && store.transactions == old(store.transactions))
  {
    var rejected := CreateCheck(b);
    if rejected.Some? {
      return rejected.value;
    }
    var r := store.Create(DraftOf(b, userId, now), now);
    if r.Ok? {
      resp := Response(201, CREATED);
    } else if r.error == CATEGORY_NOT_FOUND {
      resp := Response(404, CATEGORY_NOT_FOUND);
    } else if r.error == TYPE_MISMATCH {
      resp := Response(400, TYPE_MISMATCH);
    } else {
      resp := Response(500, CREATE_FAILED);
    }
  }

  /* ---------------- Update ---------------- */

  /** The update request's body; any of its fields may be absent, `user` included. */
  datatype UpdateBody = UpdateBody(
    amount: AmountInput,
    txType: Option<string>,
    description: Option<string>,
    date: Option<nat>,
    category: Option<string>,
    user: Option<UserId>)

  /**
   * The update handler's preparation of the body: `user` is deleted; a
   * present `amount` must coerce to a positive number and is replaced by its
   * `parseFloat` reading; a truthy `type` must be income or expense. The
   * amount is checked before the type.
   */
  function PrepareUpdate(body: UpdateBody): (r: Result<Patch, Response>)
    ensures r.Err? <==>
      (!body.amount.Missing? && AmountRejected(body.amount)) || (Truthy(body.txType) && !IsTypeName(body.txType.value))
    ensures r.Err? && !body.amount.Missing? && AmountRejected(body.amount) ==> r.error == Response(400, BAD_AMOUNT)
    ensures r.Err? && (body.amount.Missing? || !AmountRejected(body.amount)) ==> r.error == Response(400, BAD_TYPE)
    ensures r.Ok? ==> r.value.user.None?
    ensures r.Ok? ==> r.value.amount == (if body.amount.Missing? then None else StoredAmount(body.amount))
    ensures r.Ok? && !body.amount.Missing? ==> AmountValue(body.amount).Some? && AmountValue(body.amount).value > 0.0
    ensures r.Ok? ==>
      r.value.txType == body.txType && r.value.description == body.description
      && r.value.date == body.date && r.value.category == body.category
  {
    if !body.amount.Missing? && AmountRejected(body.amount) then Err(Response(400, BAD_AMOUNT))
    else if Truthy(body.txType) && !IsTypeName(body.txType.value) then Err(Response(400, BAD_TYPE))
    else
      var amount := if body.amount.Missing? then None else StoredAmount(body.amount);
      Ok(Patch(amount, body.txType, body.description, body.date, body.category, None))
  }

  /** The update handler's response for the service's outcome. */
  function UpdateResponse(r: Result<Transaction, string>): (resp: Response)
    ensures resp.status == 404 <==> r.Err? && (r.error == NOT_FOUND || r.error == CATEGORY_NOT_FOUND)
    ensures resp.status == 200 <==> r.Ok?
  {
    if r.Ok? then Response(200, UPDATED)
    else if r.error == NOT_FOUND then Response(404, NOT_FOUND)
    else if r.error == CATEGORY_NOT_FOUND then Response(404, CATEGORY_NOT_FOUND)
    else if r.error == TYPE_MISMATCH then Response(400, TYPE_MISMATCH)
    else Response(500, UPDATE_FAILED)
  }

  /**
   * `updateTransactionController`: a rejected body answers 400 and changes
   * nothing; a missing or foreign id answers 404 and changes nothing; a patch
   * the validators reject answers 500 and changes nothing; otherwise the
   * caller's document is replaced by the patched one. A patch can never move
   * a document to another owner.
   */
  method UpdateTransactionController(store: TransactionStore, userId: UserId, id: TransactionId, body: UpdateBody)
    returns (resp: Response)
    requires store.Consistent()
    modifies store
    ensures store.Consistent() && store.nextId == old(store.nextId)
    ensures PrepareUpdate(body).Err? ==>
      resp == PrepareUpdate(body).error && store.transactions == old(store.transactions)
    ensures PrepareUpdate(body).Ok? && OwnedIndex(old(store.transactions), id, userId).None? ==>
      resp == Response(404, NOT_FOUND) && store.transactions == old(store.transactions)
    ensures PrepareUpdate(body).Ok? && OwnedIndex(old(store.transactions), id, userId).Some? ==>
      var i := OwnedIndex(old(store.transactions), id, userId).value;
      var patched := ApplyPatch(old(store.transactions)[i], PrepareUpdate(body).value);
      (patched.Ok? ==> resp == Response(200, UPDATED) && store.transactions == old(store.transactions)[i := patched.value])
      && (patched.Err? ==> resp == Response(500, UPDATE_FAILED) && store.transactions == old(store.transactions))
    ensures |store.transactions| == |old(store.transactions)|
    ensures forall i :: 0 <= i < |store.transactions| ==>
      store.transactions[i].id == old(store.transactions)[i].id
      && store.transactions[i].user == old(store.transactions)[i].user
    ensures forall i :: 0 <= i < |store.transactions| && !Owned(old(store.transactions)[i], id, userId) ==>
      store.transactions[i] == old(store.transactions)[i]
  {
    var prepared := PrepareUpdate(body);
    if prepared.Err? {
      return prepared.error;
    }
    var r := store.Update(id, userId, prepared.value);
    resp := UpdateResponse(r);
  }

  /* ---------------- Fetch and delete one ---------------- */

  /** The get-by-id handler's response: the service never reports "not found", so the 404 branch is never taken. */
  function GetResponse(s: seq<Transaction>, id: TransactionId, userId: UserId): (resp: Response)
    ensures resp.status != 404
    ensures resp.status == 200 <==> exists i :: 0 <= i < |s| && Owned(s[i], id, userId)
    ensures resp.status != 200 ==> resp == Response(500, FETCH_ONE_FAILED)
  {
    var r := GetTransactionById(s, id, userId);
    if r.Ok? then Response(200, "")
    else if r.error == NOT_FOUND then Response(404, NOT_FOUND)
    else Response(500, FETCH_ONE_FAILED)
  }

  /** The delete handler's response for the service's outcome. */
  function DeleteResponse(r: Result<Transaction, string>): Response {
    if r.Ok? then Response(200, DELETED)
    else if r.error == NOT_FOUND then Response(404, NOT_FOUND)
    else Response(500, DELETE_FAILED)
  }

  /**
   * `deleteTransactionController`: removes the caller's document; a missing
   * or foreign id answers 500, not 404, and changes nothing.
   */
  method DeleteTransactionController(store: TransactionStore, userId: UserId, id: TransactionId)
    returns (resp: Response)
    requires store.Consistent()
    modifies store
    ensures store.Consistent()
    ensures resp.status != 404
    ensures OwnedIndex(old(store.transactions), id, userId).None? ==>
      resp == Response(500, DELETE_FAILED) && store.transactions == old(store.transactions)
    ensures OwnedIndex(old(store.transactions), id, userId).Some? ==>
      var i := OwnedIndex(old(store.transactions), id, userId).value;
      resp == Response(200, DELETED) && store.transactions == old(store.transactions)[..i] + old(store.transactions)[i + 1..]
  {
    var r := store.Delete(id, userId);
    resp := DeleteResponse(r);
  }

  /** The service's delete failures are all "Failed to delete transaction", which the handler answers with 500. */
  lemma DeleteNever404(r: Result<Transaction, string>)
    requires r.Err? ==> r.error == DELETE_FAILED
    ensures DeleteResponse(r).status != 404
    ensures r.Err? ==> DeleteResponse(r) == Response(500, DELETE_FAILED)
  {
  }

  /* ---------------- List and analytics defaults ---------------- */

  /** The list endpoint's query; `page` and `limit` are already read as integers. */
  datatype ListQuery = ListQuery(
    page: Option<int>,
    limit: Option<int>,
    txType: Option<string>,
    category: Option<string>,
    startDate: Option<nat>,
    endDate: Option<nat>,
    search: Option<string>,
    sortBy: Option<string>,
    sortOrder: Option<string>)

  /** The service options for a query: page 1, limit 10, sort by date, descending, unless given. */
  function ListOptionsOf(q: ListQuery): ListOptions {
    ListOptions(q.page.GetOr(1), q.limit.GetOr(10), q.txType, q.category, q.startDate, q.endDate, q.search,
      q.sortBy.GetOr("date"), q.sortOrder.GetOr("desc"))
  }

  /** With no query parameters the caller gets the first 10 of their documents, newest first. */
  lemma ListDefaults(s: seq<Transaction>, userId: UserId)
    ensures
      var o := ListOptionsOf(ListQuery(None, None, None, None, None, None, None, None, None));
      o.page == 1 && o.limit == 10 && o.sortBy == "date" && o.sortOrder == "desc"
      && ListSpec(s, userId, o).Ok?
      && ListSpec(s, userId, o).value.transactions
        == Page(SortBy(Selection(s, userId, o), DateRank, true), 0, 10)
      && (forall t :: t in Selection(s, userId, o) <==> t in s && t.user == userId)
  {
  }

  /** The list handler: 200 with the page, or 500 when the service fails. */
  function ListResponse(r: Result<ListResult, string>): (resp: Response)
    ensures resp.status == 200 <==> r.Ok?
    ensures r.Err? ==> resp == Response(500, FETCH_LIST_FAILED)
  {
    if r.Ok? then Response(200, "") else Response(500, FETCH_LIST_FAILED)
  }

  /** The months the trends and monthly endpoints cover: 6 unless given. */
  function WindowMonths(months: Option<int>): int {
    months.GetOr(6)
  }

  /** The trends endpoint also defaults `period` to "monthly", which the pipeline does not read. */
  function TrendsPeriod(period: Option<string>): string {
    period.GetOr("monthly")
  }

  /** Trends and the monthly summary cover 6 months unless told otherwise; trends' period defaults to "monthly". */
  lemma AnalyticsDefaults(months: int, period: string)
    ensures WindowMonths(None) == 6 && WindowMonths(Some(months)) == months
    ensures TrendsPeriod(None) == "monthly" && TrendsPeriod(Some(period)) == period
  {
  }
}
