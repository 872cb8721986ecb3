/**
 * The browser's transaction endpoints: the query parameters each builder
 * sends and the defaults its response and error transforms fill in.
 * The parameters each request sends are a record whose optional fields
 * are the parameters sent only sometimes; their order in the URL is not
 * modelled.
 */
module TransactionsApi {
  import opened Wrappers

  const DEFAULT_PAGE: int := 1
  const DEFAULT_LIMIT: int := 10
  const RECENT_LIMIT: int := 5
  const DEFAULT_MONTHS: int := 6
  const DEFAULT_PERIOD := "monthly"
  const DEFAULT_SORT_BY := "date"
  const DEFAULT_SORT_ORDER := "desc"

  /** A string argument counts when present and not empty. */
  predicate Truthy(v: Option<string>) {
    v.Some? && v.value != ""
  }

  /** `...(value && { key: value })`: the parameter is sent (`Some`) only when its value is truthy. */
  function Sent(v: Option<string>): (r: Option<string>)
    ensures r.Some? <==> Truthy(v)
    ensures r.Some? ==> r == v
  {
    if Truthy(v) then v else None
  }

  /** The arguments of `getTransactions`; `None` is an argument left undefined. */
  datatype TransactionQuery = TransactionQuery(
    page: Option<int>,
    limit: Option<int>,
    txType: Option<string>,
    category: Option<string>,
    startDate: Option<string>,
    endDate: Option<string>,
    search: Option<string>,
    sortBy: Option<string>,
    sortOrder: Option<string>)

  /** The `params` object of a list request; a `None` field is a parameter that is not sent. */
  datatype ListParams = ListParams(
    page: int,
    limit: int,
    txType: Option<string>,
    category: Option<string>,
    startDate: Option<string>,
    endDate: Option<string>,
    search: Option<string>,
    sortBy: string,
    sortOrder: string)

  /** `getTransactions` */
  function GetTransactionsParams(q: TransactionQuery): ListParams {
    ListParams(q.page.GetOr(DEFAULT_PAGE), q.limit.GetOr(DEFAULT_LIMIT),
      Sent(q.txType), Sent(q.category), Sent(q.startDate), Sent(q.endDate), Sent(q.search),
      q.sortBy.GetOr(DEFAULT_SORT_BY), q.sortOrder.GetOr(DEFAULT_SORT_ORDER))
  }

  /**
   * Page, limit and both sort parameters are always sent, defaulting to
   * 1, 10, "date" and "desc"; each filter is sent exactly when it is
   * truthy, with the value given.
   */
  lemma GetTransactionsParamsMeaning(q: TransactionQuery)
    ensures var p := GetTransactionsParams(q);
      (q.page.None? ==> p.page == 1) && (q.page.Some? ==> p.page == q.page.value)
      && (q.limit.None? ==> p.limit == 10) && (q.limit.Some? ==> p.limit == q.limit.value)
      && (q.sortBy.None? ==> p.sortBy == "date") && (q.sortBy.Some? ==> p.sortBy == q.sortBy.value)
      && (q.sortOrder.None? ==> p.sortOrder == "desc") && (q.sortOrder.Some? ==> p.sortOrder == q.sortOrder.value)
    ensures var p := GetTransactionsParams(q);
      (p.txType.Some? <==> Truthy(q.txType)) && (p.category.Some? <==> Truthy(q.category))
      && (p.startDate.Some? <==> Truthy(q.startDate)) && (p.endDate.Some? <==> Truthy(q.endDate))
      && (p.search.Some? <==> Truthy(q.search))
    ensures var p := GetTransactionsParams(q);
      (p.txType.Some? ==> p.txType == q.txType) && (p.category.Some? ==> p.category == q.category)
      && (p.startDate.Some? ==> p.startDate == q.startDate) && (p.endDate.Some? ==> p.endDate == q.endDate)
      && (p.search.Some? ==> p.search == q.search)
  {
  }

  /** `getRecentTransactions`: the first page of the newest, five by default. */
  function GetRecentTransactionsParams(limit: Option<int>): ListParams {
    ListParams(1, limit.GetOr(RECENT_LIMIT), None, None, None, None, None, DEFAULT_SORT_BY, DEFAULT_SORT_ORDER)
  }

  /** The recent list asks for what the full list asks for with page 1, the same limit and no filters. */
  lemma RecentIsFirstPage(limit: Option<int>)
    ensures GetRecentTransactionsParams(limit)
      == GetTransactionsParams(TransactionQuery(Some(1), Some(limit.GetOr(RECENT_LIMIT)), None, None, None, None, None, None, None))
    ensures GetRecentTransactionsParams(limit).limit == (if limit.Some? then limit.value else 5)
  {
  }

  /** The `params` of the summary and breakdown requests. */
  datatype RangeParams = RangeParams(startDate: Option<string>, endDate: Option<string>, txType: Option<string>)

  /** `getFinancialSummary`: only the truthy dates; never a type. */
  function GetFinancialSummaryParams(startDate: Option<string>, endDate: Option<string>): (p: RangeParams)
    ensures p.startDate.Some? <==> Truthy(startDate)
    ensures p.endDate.Some? <==> Truthy(endDate)
    ensures p.startDate.Some? ==> p.startDate == startDate
    ensures p.endDate.Some? ==> p.endDate == endDate
    ensures p.txType.None?
  {
    RangeParams(Sent(startDate), Sent(endDate), None)
  }

  /** `getCategoryBreakdown`: only the truthy dates and type. */
  function GetCategoryBreakdownParams(startDate: Option<string>, endDate: Option<string>, txType: Option<string>): (p: RangeParams)
    ensures p.startDate.Some? <==> Truthy(startDate)
    ensures p.endDate.Some? <==> Truthy(endDate)
    ensures p.txType.Some? <==> Truthy(txType)
    ensures p.txType.Some? ==> p.txType == txType
    ensures p.startDate == GetFinancialSummaryParams(startDate, endDate).startDate
    ensures p.endDate == GetFinancialSummaryParams(startDate, endDate).endDate
  {
    RangeParams(Sent(startDate), Sent(endDate), Sent(txType))
  }

  /** The `params` of the spending-trends request. */
  datatype TrendsParams = TrendsParams(period: string, months: int)

  /** `getSpendingTrends`: always both parameters, monthly over six months unless given. */
  function GetSpendingTrendsParams(period: Option<string>, months: Option<int>): (p: TrendsParams)
    ensures period.None? ==> p.period == DEFAULT_PERIOD
    ensures months.None? ==> p.months == DEFAULT_MONTHS
    ensures period.Some? ==> p.period == period.value
    ensures months.Some? ==> p.months == months.value
  {
    TrendsParams(period.GetOr(DEFAULT_PERIOD), months.GetOr(DEFAULT_MONTHS))
  }

  /** `getMonthlySummary`: the `months` parameter, six unless given, the same default as the trends request. */
  function GetMonthlySummaryParams(months: Option<int>): (r: int)
    ensures months.None? ==> r == DEFAULT_MONTHS
    ensures months.Some? ==> r == months.value
    ensures r == GetSpendingTrendsParams(None, months).months
  {
    months.GetOr(DEFAULT_MONTHS)
  }

  /** The list transform: an absent `data` becomes `[]` and an absent `pagination` becomes `{}`. */
  datatype ListPage<T> = ListPage(transactions: seq<T>, pagination: map<string, int>)

  function TransformListResponse<T>(data: Option<seq<T>>, pagination: Option<map<string, int>>): (r: ListPage<T>)
    ensures data.Some? ==> r.transactions == data.value
    ensures data.None? ==> r.transactions == []
    ensures pagination.Some? ==> r.pagination == pagination.value
    ensures pagination.None? ==> r.pagination == map[]
  {
    ListPage(data.GetOr([]), pagination.GetOr(map[]))
  }

  /** `response.data || []`: the list when the reply carries one, empty otherwise. */
  function TransformDataList<T>(data: Option<seq<T>>): (r: seq<T>)
    ensures data.Some? ==> r == data.value
    ensures data.None? ==> r == []
    ensures r == TransformListResponse(data, None).transactions
  {
    data.GetOr([])
  }

  /** `response.data || response`: the payload when there is one, the whole reply otherwise. */
  function TransformItemResponse<T>(data: Option<T>, whole: T): (r: T)
    ensures data.Some? ==> r == data.value
    ensures data.None? ==> r == whole
  {
    data.GetOr(whole)
  }

  /** `response.data?.message || fallback`: the server's message when it sent a non-empty one. */
  function TransformErrorResponse(message: Option<string>, fallback: string): (r: string)
    ensures Truthy(message) ==> r == message.value
    ensures !Truthy(message) ==> r == fallback
    ensures fallback != "" ==> r != ""
  {
    if Truthy(message) then message.value else fallback
  }

  const LIST_ERROR := "Failed to fetch transactions"
  const ITEM_ERROR := "Failed to fetch transaction"
  const CREATE_ERROR := "Failed to create transaction"
  const UPDATE_ERROR := "Failed to update transaction"
  const DELETE_ERROR := "Failed to delete transaction"
  const SUMMARY_ERROR := "Failed to fetch financial summary"
  const RECENT_ERROR := "Failed to fetch recent transactions"
  const MONTHLY_ERROR := "Failed to fetch monthly transactions"
  const BREAKDOWN_ERROR := "Failed to fetch category breakdown"
  const TRENDS_ERROR := "Failed to fetch spending trends"
  const MONTHLY_SUMMARY_ERROR := "Failed to fetch monthly summary"
}
