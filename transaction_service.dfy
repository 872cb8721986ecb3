/**
 * The transaction service: the owner-scoped listing with filters, sorting
 * and pagination, lookup, update and delete by owner, and the four
 * analytics pipelines (financial summary, category breakdown, spending
 * trends, monthly summary).
 *
 * The document store is a sequence of transactions in insertion order;
 * a query returns the matching documents in that order. A filter is the
 * record the source builds before calling `find`.
 */
module TransactionService {
  import opened Wrappers
  import opened Text
  import opened Groups
  import opened Calendar
  import opened TransactionModel

  const FETCH_LIST_FAILED := "Failed to fetch transactions"
  const FETCH_ONE_FAILED := "Failed to fetch transaction"
  const DELETE_FAILED := "Failed to delete transaction"
  const NOT_FOUND := "Transaction not found"
  /** The message of a failed schema validation on create (its per-field detail is not modelled). */
  const CREATE_INVALID := "Transaction validation failed"
  /** The message of a failed update validator (its per-field detail is not modelled). */
  const UPDATE_INVALID := "Validation failed"

  /* ---------------- Filters ---------------- */

  /** `{ $gte: start, $lte: end }` on the date; an absent bound is not part of the object. */
  datatype DateRange = DateRange(gte: Option<nat>, lte: Option<nat>)

  /** The query object: `user` always, the other keys only when they were set. */
  datatype Filter = Filter(
    user: UserId,
    txType: Option<string>,
    category: Option<string>,
    date: Option<DateRange>,
    search: Option<string>)

  predicate InRange(r: DateRange, d: nat) {
    (r.gte.Some? ==> r.gte.value <= d) && (r.lte.Some? ==> d <= r.lte.value)
  }

  /** What the store's `find(filter)` matches; the search is a case-insensitive substring test. */
  predicate Matches(f: Filter, t: Transaction) {
    t.user == f.user
    && (f.txType.Some? ==> TypeName(t.txType) == f.txType.value)
    && (f.category.Some? ==> t.category == f.category.value)
    && (f.date.Some? ==> InRange(f.date.value, t.date))
    && (f.search.Some? ==> ContainsIgnoreCase(t.description, f.search.value))
  }

  /** The documents of `s` that match `f`, in store order. */
  function Where(s: seq<Transaction>, f: Filter): (r: seq<Transaction>)
    ensures forall t :: t in r <==> t in s && Matches(f, t)
    ensures |r| <= |s|
  {
    if s == [] then []
    else if Matches(f, s[0]) then [s[0]] + Where(s[1..], f)
    else Where(s[1..], f)
  }

  /** A query-string value is used only when it is present and not the empty string. */
  predicate Truthy(v: Option<string>) {
    v.Some? && v.value != ""
  }

  /** The date part of a filter, as the summary and breakdown build it. */
  function DateFilter(startDate: Option<nat>, endDate: Option<nat>): (r: Option<DateRange>)
    ensures r.None? <==> startDate.None? && endDate.None?
    ensures r.Some? ==> r.value == DateRange(startDate, endDate)
  {
    if startDate.None? && endDate.None? then None else Some(DateRange(startDate, endDate))
  }

  /* ---------------- Listing ---------------- */

  /** The options `getUserTransactions` receives; dates are already parsed timestamps. */
  datatype ListOptions = ListOptions(
    page: int,
    limit: int,
    txType: Option<string>,
    category: Option<string>,
    startDate: Option<nat>,
    endDate: Option<nat>,
    search: Option<string>,
    sortBy: string,
    sortOrder: string)

  /** The listing's selection, stated directly: the owner, and each filter that was given, ANDed. */
  predicate Selected(userId: UserId, o: ListOptions, t: Transaction) {
    t.user == userId
    && (Truthy(o.txType) ==> TypeName(t.txType) == o.txType.value)
    && (Truthy(o.category) ==> t.category == o.category.value)
    && (o.startDate.Some? ==> o.startDate.value <= t.date)
    && (o.endDate.Some? ==> t.date <= o.endDate.value)
    && (Truthy(o.search) ==> ContainsIgnoreCase(t.description, o.search.value))
  }

  function Selection(s: seq<Transaction>, userId: UserId, o: ListOptions): (r: seq<Transaction>)
    ensures forall t :: t in r <==> t in s && Selected(userId, o, t)
  {
    if s == [] then []
    else if Selected(userId, o, s[0]) then [s[0]] + Selection(s[1..], userId, o)
    else Selection(s[1..], userId, o)
  }

  /** Builds the listing's filter one key at a time; it matches exactly the selected documents. */
  method BuildFilter(userId: UserId, o: ListOptions) returns (f: Filter)
    ensures f.user == userId
    ensures forall t :: Matches(f, t) <==> Selected(userId, o, t)
  {
    f := Filter(userId, None, None, None, None);
    if Truthy(o.txType) {
      f := f.(txType := o.txType);
    }
    if Truthy(o.category) {
      f := f.(category := o.category);
    }
    if o.startDate.Some? || o.endDate.Some? {
      var range := DateRange(None, None);
      if o.startDate.Some? {
        range := range.(gte := o.startDate);
      }
      if o.endDate.Some? {
        range := range.(lte := o.endDate);
      }
      f := f.(date := Some(range));
    }
    if Truthy(o.search) {
      f := f.(search := o.search);
    }
  }

  lemma {:induction false} WhereSelection(s: seq<Transaction>, f: Filter, userId: UserId, o: ListOptions)
    requires forall t :: Matches(f, t) <==> Selected(userId, o, t)
    ensures Where(s, f) == Selection(s, userId, o)
  {
    if s != [] {
      WhereSelection(s[1..], f, userId, o);
    }
  }

  function DateRank(t: Transaction): real { t.date as real }
  function AmountRank(t: Transaction): real { t.amount }
  function NoRank(t: Transaction): real { 0.0 }

  /** The sort key of `sort[sortBy]`: date or amount; any other field leaves store order. */
  function RankFor(sortBy: string): Transaction -> real {
    if sortBy == "date" then DateRank else if sortBy == "amount" then AmountRank else NoRank
  }

  function Abs(n: int): nat { if n < 0 then -n else n }
  function Min(a: int, b: int): int { if a <= b then a else b }

  /** `skip(skip).limit(limit)`: a limit of 0 means no limit, a negative one its absolute value. */
  function Page<T>(s: seq<T>, skip: nat, limit: int): (r: seq<T>)
    ensures limit != 0 ==> |r| <= Abs(limit)
    ensures skip >= |s| ==> r == []
    ensures forall i :: 0 <= i < |r| ==> skip + i < |s| && r[i] == s[skip + i]
    ensures skip < |s| && limit == 0 ==> r == s[skip..]
    ensures skip < |s| && limit != 0 ==> r == s[skip..Min(skip + Abs(limit), |s|)]
  {
    if skip >= |s| then []
    else if limit == 0 then s[skip..]
    else s[skip..Min(skip + Abs(limit), |s|)]
  }

  /** `Math.ceil(a / b)` for a non-zero integer divisor. */
  function CeilDiv(a: nat, b: int): (r: int)
    requires b != 0
    ensures b > 0 ==> r >= 0 && (r - 1) * b < a <= r * b
    ensures b < 0 ==> r <= 0 && r * b <= a < (r - 1) * b
  {
    if b > 0 then
      var q := (a + b - 1) / b;
      assert a + b - 1 == q * b + (a + b - 1) % b;
      q
    else
      var q := a / (-b);
      assert a == q * (-b) + a % (-b);
      -q
  }

  datatype Pagination = Pagination(page: int, limit: int, total: nat, pages: Option<int>)
  datatype ListResult = ListResult(transactions: seq<Transaction>, pagination: Pagination)

  /**
   * The page of the sorted selection that `getUserTransactions` returns. A
   * negative skip is refused by the store and reported as a fetch failure;
   * with a limit of 0 the page count is `Infinity` or `NaN`, serialised as null.
   */
  function ListSpec(s: seq<Transaction>, userId: UserId, o: ListOptions): Result<ListResult, string> {
    var skip := (o.page - 1) * o.limit;
    if skip < 0 then Err(FETCH_LIST_FAILED)
    else
      var matched := Selection(s, userId, o);
      var sorted := SortBy(matched, RankFor(o.sortBy), o.sortOrder == "desc");
      Ok(ListResult(
        Page(sorted, skip, o.limit),
        Pagination(o.page, o.limit, |matched|, if o.limit == 0 then None else Some(CeilDiv(|matched|, o.limit)))))
  }

  method GetUserTransactions(s: seq<Transaction>, userId: UserId, o: ListOptions) returns (r: Result<ListResult, string>)
    ensures r == ListSpec(s, userId, o)
  {
    var f := BuildFilter(userId, o);
    var desc := o.sortOrder == "desc";
    var skip := (o.page - 1) * o.limit;
    if skip < 0 {
      return Err(FETCH_LIST_FAILED);
    }
    var matched := Where(s, f);
    WhereSelection(s, f, userId, o);
    var total := |matched|;
    var pages := if o.limit == 0 then None else Some(CeilDiv(total, o.limit));
    var window := Page(SortBy(matched, RankFor(o.sortBy), desc), skip, o.limit);
    r := Ok(ListResult(window, Pagination(o.page, o.limit, total, pages)));
  }

  lemma PageMembers<T>(s: seq<T>, skip: nat, limit: int)
    ensures forall x :: x in Page(s, skip, limit) ==> x in s
  {
    forall x | x in Page(s, skip, limit) ensures x in s {
      var i :| 0 <= i < |Page(s, skip, limit)| && Page(s, skip, limit)[i] == x;
      assert s[skip + i] == x;
    }
  }

  /** Every listed document is the caller's own and passes every given filter; the total counts all of them. */
  lemma ListScoped(s: seq<Transaction>, userId: UserId, o: ListOptions)
    ensures ListSpec(s, userId, o).Err? <==> (o.page - 1) * o.limit < 0
    ensures ListSpec(s, userId, o).Ok? ==>
      var res := ListSpec(s, userId, o).value;
      (forall t :: t in res.transactions ==> t in s && t.user == userId && Selected(userId, o, t))
      && res.pagination.total == |Selection(s, userId, o)|
  {
    var skip := (o.page - 1) * o.limit;
    if skip >= 0 {
      var matched := Selection(s, userId, o);
      var sorted := SortBy(matched, RankFor(o.sortBy), o.sortOrder == "desc");
      assert ListSpec(s, userId, o).value.transactions == Page(sorted, skip, o.limit);
      SortByMembers(matched, RankFor(o.sortBy), o.sortOrder == "desc");
      PageMembers(sorted, skip, o.limit);
    }
  }

  /** For a positive page and limit, the listing is the window of the sorted selection at `(page-1)*limit`, and the page count is `ceil(total/limit)`. */
  lemma ListWindow(s: seq<Transaction>, userId: UserId, o: ListOptions)
    requires o.page >= 1 && o.limit >= 1
    ensures ListSpec(s, userId, o).Ok?
    ensures
      var res := ListSpec(s, userId, o).value;
      var sorted := SortBy(Selection(s, userId, o), RankFor(o.sortBy), o.sortOrder == "desc");
      res.transactions == Page(sorted, (o.page - 1) * o.limit, o.limit)
      && res.pagination.total == |sorted|
      && res.pagination.pages == Some(CeilDiv(|sorted|, o.limit))
  {
    MulMonotone(o.page - 1, 0, o.limit);
  }

  /** A window of positive limit holds at most `limit` items, the consecutive ones from `skip` on, as many as remain up to the limit. */
  lemma PageWindow<T>(s: seq<T>, skip: nat, limit: int)
    requires limit > 0
    ensures var r := Page(s, skip, limit);
      |r| <= limit
      && (forall i :: 0 <= i < |r| ==> skip + i < |s| && r[i] == s[skip + i])
      && |r| == Min(limit, |s| - Min(skip, |s|))
  {
  }

  /** Pages 1 to `n` at a fixed positive limit, concatenated. */
  function Pages<T>(s: seq<T>, limit: nat, n: nat): seq<T>
    requires limit > 0
  {
    if n == 0 then [] else Pages(s, limit, n - 1) + Page(s, (n - 1) * limit, limit)
  }

  lemma {:induction false} PagesPrefix<T>(s: seq<T>, limit: nat, n: nat)
    requires limit > 0
    ensures Pages(s, limit, n) == s[..Min(n * limit, |s|)]
  {
    if n > 0 {
      PagesPrefix(s, limit, n - 1);
      var a := (n - 1) * limit;
      assert n * limit == a + limit;
      if a < |s| {
        assert s[..a] + s[a..Min(a + limit, |s|)] == s[..Min(a + limit, |s|)];
      }
    }
  }

  lemma MulMonotone(a: int, b: int, c: nat)
    requires a >= b
    ensures a * c >= b * c
  {
  }

  /** At a fixed positive limit, pages 1 to `pages` reassemble the sorted list exactly, and any later page is empty. */
  lemma PagesReassemble<T>(s: seq<T>, limit: int, p: int)
    requires limit > 0
    ensures Pages(s, limit, CeilDiv(|s|, limit) as nat) == s
    ensures p > CeilDiv(|s|, limit) ==> Page(s, (p - 1) * limit, limit) == []
  {
    var n := CeilDiv(|s|, limit);
    PagesPrefix(s, limit, n as nat);
    if p > n {
      MulMonotone(p - 1, n, limit);
    }
  }

  /* ---------------- Lookup, update and delete by owner ---------------- */

  predicate Owned(t: Transaction, id: TransactionId, userId: UserId) {
    t.id == id && t.user == userId
  }

  /** The position of the document with this id and this owner, if any. */
  function OwnedIndex(s: seq<Transaction>, id: TransactionId, userId: UserId): (r: Option<nat>)
    ensures r.Some? ==> r.value < |s| && Owned(s[r.value], id, userId)
    ensures r.None? <==> forall i :: 0 <= i < |s| ==> !Owned(s[i], id, userId)
    ensures r.Some? ==> forall i :: 0 <= i < r.value ==> !Owned(s[i], id, userId)
  {
    if s == [] then None
    else if Owned(s[0], id, userId) then Some(0)
    else
      var r := OwnedIndex(s[1..], id, userId);
      assert forall i :: 1 <= i < |s| ==> s[i] == s[1..][i - 1];
      if r.None? then None else Some(r.value + 1)
  }

  /**
   * `getTransactionById`: the caller's document with that id. The "not found"
   * error raised inside the `try` is rewritten by its own `catch`, so a
   * missing or foreign id reports the generic fetch failure.
   */
  function GetTransactionById(s: seq<Transaction>, id: TransactionId, userId: UserId): (r: Result<Transaction, string>)
    ensures r.Ok? <==> exists i :: 0 <= i < |s| && Owned(s[i], id, userId)
    ensures r.Ok? ==> r.value in s && Owned(r.value, id, userId)
    ensures r.Err? ==> r.error == FETCH_ONE_FAILED
  {
    match OwnedIndex(s, id, userId)
    case None => Err(FETCH_ONE_FAILED)
    case Some(i) => Ok(s[i])
  }

  /** Ids are distinct and below the counter, and every stored document satisfies the schema. */
  ghost predicate StoreConsistent(ts: seq<Transaction>, nextId: nat) {
    (forall i :: 0 <= i < |ts| ==> ts[i].id < nextId && Valid(ts[i]))
    && (forall i, j :: 0 <= i < j < |ts| ==> ts[i].id != ts[j].id)
  }

  /** A valid document under the counter's id may be appended once the counter moves on. */
  lemma StoreAppend(ts: seq<Transaction>, nextId: nat, t: Transaction)
    requires StoreConsistent(ts, nextId) && t.id == nextId && Valid(t)
    ensures StoreConsistent(ts + [t], nextId + 1)
  {
    var ts' := ts + [t];
    assert forall i :: 0 <= i < |ts| ==> ts'[i] == ts[i];
    assert ts'[|ts|] == t;
  }

  /** Removing one document keeps the rest consistent. */
  lemma StoreRemove(ts: seq<Transaction>, nextId: nat, i: nat)
    requires StoreConsistent(ts, nextId) && i < |ts|
    ensures StoreConsistent(ts[..i] + ts[i + 1..], nextId)
  {
    var ts' := ts[..i] + ts[i + 1..];
    assert forall k :: 0 <= k < |ts'| ==> ts'[k] == (if k < i then ts[k] else ts[k + 1]);
  }

  /** The document store, with the counter that hands out fresh ids. */
  class TransactionStore {
    var transactions: seq<Transaction>
    var nextId: nat

    ghost predicate Consistent()
      reads this
    {
      StoreConsistent(transactions, nextId)
    }

    constructor ()
      ensures Consistent() && transactions == [] && nextId == 0
    {
      transactions := [];
      nextId := 0;
    }

    /** `createTransaction`: validates and saves the draft under a fresh id. */
    method Create(d: Draft, now: nat) returns (r: Result<Transaction, string>)
      requires Consistent()
      modifies this
      ensures Consistent()
      ensures r.Ok? <==> Build(d, old(nextId), now).Ok?
      ensures r.Ok? ==>
        r.value == Build(d, old(nextId), now).value
        && transactions == old(transactions) + [r.value] && nextId == old(nextId) + 1
      ensures r.Err? ==>
        r.error == CREATE_INVALID && transactions == old(transactions) && nextId == old(nextId)
    {
      var b := Build(d, nextId, now);
      if b.Err? {
        return Err(CREATE_INVALID);
      }
      Save(b.value);
      r := Ok(b.value);
    }

    /** `save()` of a new document: appended under the counter's id, and the counter moves on. */
    method Save(t: Transaction)
      requires Consistent() && t.id == nextId && Valid(t)
      modifies this
      ensures Consistent()
      ensures transactions == old(transactions) + [t] && nextId == old(nextId) + 1
    {
      StoreAppend(transactions, nextId, t);
      transactions := transactions + [t];
      nextId := nextId + 1;
    }

    /**
     * `updateTransaction`: applies the patch to the caller's document with
     * that id, running the validators of the patched fields. A missing or
     * foreign id keeps the "not found" message.
     */
    method Update(id: TransactionId, userId: UserId, p: Patch) returns (r: Result<Transaction, string>)
      requires Consistent()
      modifies this
      ensures Consistent() && nextId == old(nextId)
      ensures OwnedIndex(old(transactions), id, userId).None? ==>
        r == Err(NOT_FOUND) && transactions == old(transactions)
      ensures OwnedIndex(old(transactions), id, userId).Some? ==>
        var i := OwnedIndex(old(transactions), id, userId).value;
        var patched := ApplyPatch(old(transactions)[i], p);
        (patched.Ok? ==> r == Ok(patched.value) && transactions == old(transactions)[i := patched.value])
        && (patched.Err? ==> r == Err(UPDATE_INVALID) && transactions == old(transactions))
    {
      var found := OwnedIndex(transactions, id, userId);
      if found.None? {
        return Err(NOT_FOUND);
      }
      var i := found.value;
      var patched := ApplyPatch(transactions[i], p);
      if patched.Err? {
        return Err(UPDATE_INVALID);
      }
      transactions := transactions[i := patched.value];
      r := Ok(patched.value);
    }

    /** `deleteTransaction`: removes the caller's document with that id; failures are all reported as a delete failure. */
    method Delete(id: TransactionId, userId: UserId) returns (r: Result<Transaction, string>)
      requires Consistent()
      modifies this
      ensures Consistent() && nextId == old(nextId)
      ensures OwnedIndex(old(transactions), id, userId).None? ==>
        r == Err(DELETE_FAILED) && transactions == old(transactions)
      ensures OwnedIndex(old(transactions), id, userId).Some? ==>
        var i := OwnedIndex(old(transactions), id, userId).value;
        r == Ok(old(transactions)[i]) && transactions == old(transactions)[..i] + old(transactions)[i + 1..]
    {
      var found := OwnedIndex(transactions, id, userId);
      if found.None? {
        return Err(DELETE_FAILED);
      }
      var i := found.value;
      r := Ok(transactions[i]);
      StoreRemove(transactions, nextId, i);
      transactions := transactions[..i] + transactions[i + 1..];
    }
  }

  /** An update touches only the caller's document with that id, and a patch without `user` keeps its owner. */
  lemma UpdateScoped(s: seq<Transaction>, id: TransactionId, userId: UserId, p: Patch)
    requires OwnedIndex(s, id, userId).Some? && ApplyPatch(s[OwnedIndex(s, id, userId).value], p).Ok?
    ensures
      var i := OwnedIndex(s, id, userId).value;
      var s' := s[i := ApplyPatch(s[i], p).value];
      |s'| == |s|
      && (forall j :: 0 <= j < |s| && j != i ==> s'[j] == s[j])
      && s'[i].id == id
      && (p.user.None? ==> s'[i].user == userId)
  {
  }

  /* ---------------- Financial summary ---------------- */

  function TypeOf(t: Transaction): TxType { t.txType }
  function AmountOf(t: Transaction): real { t.amount }

  /** The summary's `$match`: the owner and the optional date range. */
  function SummaryFilter(userId: UserId, startDate: Option<nat>, endDate: Option<nat>): Filter {
    Filter(userId, None, None, DateFilter(startDate, endDate), None)
  }

  /** One output document of `$group: { _id: '$type', total, count }`. */
  datatype TypeGroup = TypeGroup(txType: TxType, total: real, count: nat)

  function TypeGroups(ks: seq<TxType>, m: seq<Transaction>): (r: seq<TypeGroup>)
    ensures |r| == |ks|
    ensures forall i :: 0 <= i < |r| ==>
      r[i] == TypeGroup(ks[i], KeyTotal(m, TypeOf, ks[i], AmountOf), KeyCount(m, TypeOf, ks[i]))
  {
    if ks == [] then []
    else [TypeGroup(ks[0], KeyTotal(m, TypeOf, ks[0], AmountOf), KeyCount(m, TypeOf, ks[0]))] + TypeGroups(ks[1..], m)
  }

  function GroupCount(g: TypeGroup): int { g.count }

  lemma {:induction false} TypeGroupsCount(ks: seq<TxType>, m: seq<Transaction>)
    ensures Tally(TypeGroups(ks, m), GroupCount) == SumKeyCounts(ks, m, TypeOf)
  {
    if ks != [] {
      TypeGroupsCount(ks[1..], m);
      assert TypeGroups(ks, m)[1..] == TypeGroups(ks[1..], m);
    }
  }

  datatype FinancialSummary = FinancialSummary(totalIncome: real, totalExpenses: real, balance: real, transactionCount: nat)

  /** What the summary means: per-type sums over the matched documents, their difference, and their number. */
  function SummaryOf(m: seq<Transaction>): FinancialSummary {
    var income := KeyTotal(m, TypeOf, Income, AmountOf);
    var expenses := KeyTotal(m, TypeOf, Expense, AmountOf);
    FinancialSummary(income, expenses, income - expenses, |m|)
  }

  /** `getUserFinancialSummary`: folds the per-type groups into the summary record. */
  method GetUserFinancialSummary(s: seq<Transaction>, userId: UserId, startDate: Option<nat>, endDate: Option<nat>)
    returns (summary: FinancialSummary)
    ensures summary == SummaryOf(Where(s, SummaryFilter(userId, startDate, endDate)))
  {
    var m := Where(s, SummaryFilter(userId, startDate, endDate));
    var ks := Keys(m, TypeOf);
    var results := TypeGroups(ks, m);
    var income, expenses, count := 0.0, 0.0, 0;
    var i := 0;
    while i < |results|
      invariant 0 <= i <= |results|
      invariant (exists j :: 0 <= j < i && ks[j] == Income) ==> income == KeyTotal(m, TypeOf, Income, AmountOf)
      invariant (forall j :: 0 <= j < i ==> ks[j] != Income) ==> income == 0.0
      invariant (exists j :: 0 <= j < i && ks[j] == Expense) ==> expenses == KeyTotal(m, TypeOf, Expense, AmountOf)
      invariant (forall j :: 0 <= j < i ==> ks[j] != Expense) ==> expenses == 0.0
      invariant count == Tally(results[..i], GroupCount)
    {
      if results[i].txType == Income {
        income := results[i].total;
      } else if results[i].txType == Expense {
        expenses := results[i].total;
      }
      count := count + results[i].count;
      TallyConcat(results[..i], [results[i]], GroupCount);
      assert results[..i + 1] == results[..i] + [results[i]];
      i := i + 1;
    }
    assert results[..i] == results && i == |ks|;
    FoldedTotal(m, Income, income);
    FoldedTotal(m, Expense, expenses);
    GroupsCountMatched(m);
    summary := FinancialSummary(income, expenses, income - expenses, count);
  }

  /** The total the fold keeps for one type is that type's sum, also when no group for it came back. */
  lemma FoldedTotal(m: seq<Transaction>, k: TxType, v: real)
    requires k in Keys(m, TypeOf) ==> v == KeyTotal(m, TypeOf, k, AmountOf)
    requires k !in Keys(m, TypeOf) ==> v == 0.0
    ensures v == KeyTotal(m, TypeOf, k, AmountOf)
  {
    KeyCountIff(m, TypeOf, k, AmountOf);
  }

  /** The groups' counts add up to the number matched. */
  lemma GroupsCountMatched(m: seq<Transaction>)
    ensures Tally(TypeGroups(Keys(m, TypeOf), m), GroupCount) == |m|
  {
    var ks := Keys(m, TypeOf);
    TypeGroupsCount(ks, m);
    forall i | 0 <= i < |m| ensures TypeOf(m[i]) in ks {
      assert HasKey(m, TypeOf, TypeOf(m[i]));
    }
    Partition(ks, m, TypeOf, AmountOf);
  }

  /**
   * The summary's totals are the sums of income and of expense amounts; they
   * add up to the sum of all matched amounts; the count is the number matched;
   * and with nothing matched every field is zero.
   */
  lemma {:induction false} SummaryProperties(m: seq<Transaction>)
    ensures SummaryOf(m).totalIncome + SummaryOf(m).totalExpenses == Total(m, AmountOf)
    ensures SummaryOf(m).balance == SummaryOf(m).totalIncome - SummaryOf(m).totalExpenses
    ensures SummaryOf(m).transactionCount == |m|
    ensures m == [] ==> SummaryOf(m) == FinancialSummary(0.0, 0.0, 0.0, 0)
  {
    TypeTotals(m);
  }

  /** Every document is an income or an expense, so the two per-type sums add up to the whole. */
  lemma {:induction false} TypeTotals(m: seq<Transaction>)
    ensures KeyTotal(m, TypeOf, Income, AmountOf) + KeyTotal(m, TypeOf, Expense, AmountOf) == Total(m, AmountOf)
  {
    if m != [] {
      TypeTotals(m[1..]);
      assert TypeOf(m[0]) == Income || TypeOf(m[0]) == Expense;
    }
  }

  /** An income of 100 and an expense of 40 summarise to 100, 40, a balance of 60 and a count of 2. */
  lemma SummaryExample(salary: Transaction, lunch: Transaction)
    requires salary.txType == Income && salary.amount == 100.0
    requires lunch.txType == Expense && lunch.amount == 40.0
    ensures SummaryOf([salary, lunch]) == FinancialSummary(100.0, 40.0, 60.0, 2)
  {
    var m := [salary, lunch];
    assert m[1..] == [lunch] && [lunch][1..] == [];
    assert KeyTotal([lunch], TypeOf, Income, AmountOf) == 0.0;
    assert KeyTotal([lunch], TypeOf, Expense, AmountOf) == 40.0;
    assert KeyTotal(m, TypeOf, Income, AmountOf) == 100.0;
    assert KeyTotal(m, TypeOf, Expense, AmountOf) == 40.0;
  }

  /* ---------------- Category breakdown ---------------- */

  /** The breakdown's options; `type` is the raw query value. */
  datatype BreakdownOptions = BreakdownOptions(startDate: Option<nat>, endDate: Option<nat>, txType: Option<string>)

  function BreakdownFilter(userId: UserId, o: BreakdownOptions): Filter {
    Filter(userId, if Truthy(o.txType) then o.txType else None, None, DateFilter(o.startDate, o.endDate), None)
  }

  function CategoryOf(t: Transaction): string { t.category }

  /** One output document of the breakdown: `{ category, amount, count }`. */
  datatype CategoryRow = CategoryRow(category: string, amount: real, count: nat)

  function RowCategory(r: CategoryRow): string { r.category }
  function RowAmount(r: CategoryRow): real { r.amount }
  function RowCount(r: CategoryRow): int { r.count }

  function CategoryRows(ks: seq<string>, m: seq<Transaction>): (r: seq<CategoryRow>)
    ensures |r| == |ks|
    ensures forall i :: 0 <= i < |r| ==>
      r[i] == CategoryRow(ks[i], KeyTotal(m, CategoryOf, ks[i], AmountOf), KeyCount(m, CategoryOf, ks[i]))
  {
    if ks == [] then []
    else [CategoryRow(ks[0], KeyTotal(m, CategoryOf, ks[0], AmountOf), KeyCount(m, CategoryOf, ks[0]))] + CategoryRows(ks[1..], m)
  }

  lemma {:induction false} CategoryRowsSums(ks: seq<string>, m: seq<Transaction>)
    ensures Tally(CategoryRows(ks, m), RowCount) == SumKeyCounts(ks, m, CategoryOf)
    ensures Total(CategoryRows(ks, m), RowAmount) == SumKeyTotals(ks, m, CategoryOf, AmountOf)
  {
    if ks != [] {
      CategoryRowsSums(ks[1..], m);
      assert CategoryRows(ks, m)[1..] == CategoryRows(ks[1..], m);
    }
  }

  /** `getCategoryBreakdownData`: group by category, then sort by summed amount, largest first. */
  function CategoryBreakdown(s: seq<Transaction>, userId: UserId, o: BreakdownOptions): seq<CategoryRow> {
    var m := Where(s, BreakdownFilter(userId, o));
    SortBy(CategoryRows(Keys(m, CategoryOf), m), RowAmount, true)
  }

  /**
   * One row per distinct matched category, holding that category's summed
   * amount and count; rows in non-increasing amount order; the counts add up
   * to the number matched and the amounts to the matched total.
   */
  lemma BreakdownSpec(s: seq<Transaction>, userId: UserId, o: BreakdownOptions)
    ensures
      var m := Where(s, BreakdownFilter(userId, o));
      var r := CategoryBreakdown(s, userId, o);
      (forall i :: 0 <= i < |r| ==>
        r[i].amount == KeyTotal(m, CategoryOf, r[i].category, AmountOf)
        && r[i].count == KeyCount(m, CategoryOf, r[i].category)
        && r[i].count >= 1)
      && (forall c :: HasKey(r, RowCategory, c) <==> HasKey(m, CategoryOf, c))
      && DistinctBy(r, RowCategory)
      && SortedBy(r, RowAmount, true)
      && Tally(r, RowCount) == |m|
      && Total(r, RowAmount) == Total(m, AmountOf)
  {
    var m := Where(s, BreakdownFilter(userId, o));
    var ks := Keys(m, CategoryOf);
    var rows := CategoryRows(ks, m);
    var r := SortBy(rows, RowAmount, true);
    assert r == CategoryBreakdown(s, userId, o);
    BreakdownRowValues(m, ks, rows, r);
    BreakdownRowKeys(m, ks, rows, r);
    assert DistinctBy(rows, RowCategory);
    SortByDistinct(rows, RowAmount, true, RowCategory);
    BreakdownSums(m, ks, rows, r);
  }

  /** Each sorted row still carries its category's sum and a positive count. */
  lemma BreakdownRowValues(m: seq<Transaction>, ks: seq<string>, rows: seq<CategoryRow>, r: seq<CategoryRow>)
    requires ks == Keys(m, CategoryOf) && rows == CategoryRows(ks, m) && r == SortBy(rows, RowAmount, true)
    ensures forall i :: 0 <= i < |r| ==>
      r[i].amount == KeyTotal(m, CategoryOf, r[i].category, AmountOf)
      && r[i].count == KeyCount(m, CategoryOf, r[i].category) && r[i].count >= 1
  {
    forall i | 0 <= i < |r|
      ensures r[i].amount == KeyTotal(m, CategoryOf, r[i].category, AmountOf)
      ensures r[i].count == KeyCount(m, CategoryOf, r[i].category) && r[i].count >= 1
    {
      assert r[i] in multiset(rows);
      var j :| 0 <= j < |rows| && rows[j] == r[i];
      assert ks[j] in ks;
      KeyCountPositive(m, CategoryOf, ks[j]);
    }
  }

  /** The sorted rows name exactly the matched categories. */
  lemma BreakdownRowKeys(m: seq<Transaction>, ks: seq<string>, rows: seq<CategoryRow>, r: seq<CategoryRow>)
    requires ks == Keys(m, CategoryOf) && rows == CategoryRows(ks, m) && r == SortBy(rows, RowAmount, true)
    ensures forall c :: HasKey(r, RowCategory, c) <==> HasKey(m, CategoryOf, c)
  {
    forall c ensures HasKey(r, RowCategory, c) <==> HasKey(m, CategoryOf, c) {
      if HasKey(r, RowCategory, c) {
        var i :| 0 <= i < |r| && RowCategory(r[i]) == c;
        assert r[i] in multiset(rows);
        var j :| 0 <= j < |rows| && rows[j] == r[i];
        assert ks[j] in ks;
      }
      if HasKey(m, CategoryOf, c) {
        assert c in ks;
        var j :| 0 <= j < |ks| && ks[j] == c;
        assert rows[j] in multiset(r);
        var i :| 0 <= i < |r| && r[i] == rows[j];
        assert RowCategory(r[i]) == c;
      }
    }
  }

  /** The rows' counts add up to the number matched and their amounts to the matched total. */
  lemma BreakdownSums(m: seq<Transaction>, ks: seq<string>, rows: seq<CategoryRow>, r: seq<CategoryRow>)
    requires ks == Keys(m, CategoryOf) && rows == CategoryRows(ks, m) && r == SortBy(rows, RowAmount, true)
    ensures Tally(r, RowCount) == |m| && Total(r, RowAmount) == Total(m, AmountOf)
  {
    CategoryRowsSums(ks, m);
    forall i | 0 <= i < |m| ensures CategoryOf(m[i]) in ks {
      assert HasKey(m, CategoryOf, CategoryOf(m[i]));
    }
    Partition(ks, m, CategoryOf, AmountOf);
    PermutationSums(rows, r, RowAmount, RowCount);
  }

  /* ---------------- Spending trends and monthly summary ---------------- */

  /** The window `{ $gte: start, $lte: end }` the two monthly pipelines match, with the owner. */
  function WindowFilter(userId: UserId, start: nat, end: nat): Filter {
    Filter(userId, None, None, Some(DateRange(Some(start), Some(end))), None)
  }

  /** The first stage's group key: `{ year, month, type }`. */
  datatype MonthType = MonthType(period: Period, txType: TxType)

  function MonthTypeOf(t: Transaction): MonthType { MonthType(PeriodOf(t.date), t.txType) }
  function PeriodOfTx(t: Transaction): Period { PeriodOf(t.date) }

  /** An output document of the first stage: its key, `amount: { $sum: '$amount' }` and `count: { $sum: 1 }`. */
  datatype MonthTypeRow = MonthTypeRow(key: MonthType, amount: real, count: nat)

  function MonthTypeRows(ks: seq<MonthType>, m: seq<Transaction>): (r: seq<MonthTypeRow>)
    ensures |r| == |ks|
    ensures forall i :: 0 <= i < |r| ==>
      r[i] == MonthTypeRow(ks[i], KeyTotal(m, MonthTypeOf, ks[i], AmountOf), KeyCount(m, MonthTypeOf, ks[i]))
  {
    if ks == [] then []
    else [MonthTypeRow(ks[0], KeyTotal(m, MonthTypeOf, ks[0], AmountOf), KeyCount(m, MonthTypeOf, ks[0]))] + MonthTypeRows(ks[1..], m)
  }

  /** The first stage over the matched documents. */
  function FirstStage(m: seq<Transaction>): seq<MonthTypeRow> {
    MonthTypeRows(Keys(m, MonthTypeOf), m)
  }

  function RowPeriod(r: MonthTypeRow): Period { r.key.period }

  /** `$cond: [{ $eq: ['$_id.type', ty] }, '$amount', 0]` */
  function TypedAmount(ty: TxType, r: MonthTypeRow): real { if r.key.txType == ty then r.amount else 0.0 }
  /** `$cond: [{ $eq: ['$_id.type', ty] }, '$count', 0]` */
  function TypedCount(ty: TxType, r: MonthTypeRow): int { if r.key.txType == ty then r.count else 0 }

  function IncomeAmount(r: MonthTypeRow): real { TypedAmount(Income, r) }
  function ExpenseAmount(r: MonthTypeRow): real { TypedAmount(Expense, r) }
  function IncomeCount(r: MonthTypeRow): int { TypedCount(Income, r) }
  function ExpenseCount(r: MonthTypeRow): int { TypedCount(Expense, r) }

  /** Over distinct first-stage keys, the conditional sum for one month picks out the one (month, type) group. */
  lemma {:induction false} SecondStageSum(ks: seq<MonthType>, m: seq<Transaction>, p: Period, ty: TxType, w: MonthTypeRow -> real, v: MonthTypeRow -> int)
    requires Distinct(ks)
    requires forall r :: w(r) == TypedAmount(ty, r) && v(r) == TypedCount(ty, r)
    ensures KeyTotal(MonthTypeRows(ks, m), RowPeriod, p, w)
      == (if MonthType(p, ty) in ks then KeyTotal(m, MonthTypeOf, MonthType(p, ty), AmountOf) else 0.0)
    ensures KeyTally(MonthTypeRows(ks, m), RowPeriod, p, v)
      == (if MonthType(p, ty) in ks then KeyCount(m, MonthTypeOf, MonthType(p, ty)) else 0)
  {
    if ks != [] {
      var rows := MonthTypeRows(ks, m);
      assert rows[1..] == MonthTypeRows(ks[1..], m);
      forall i, j | 0 <= i < j < |ks| - 1 ensures ks[1..][i] != ks[1..][j] {
        assert ks[1..][i] == ks[i + 1] && ks[1..][j] == ks[j + 1];
      }
      SecondStageSum(ks[1..], m, p, ty, w, v);
      if ks[0] == MonthType(p, ty) {
        assert MonthType(p, ty) !in ks[1..] by {
          forall j | 0 <= j < |ks| - 1 ensures ks[1..][j] != ks[0] { assert ks[1..][j] == ks[j + 1]; }
        }
      } else {
        assert MonthType(p, ty) in ks <==> MonthType(p, ty) in ks[1..] by {
          assert ks == [ks[0]] + ks[1..];
        }
      }
    }
  }

  lemma FirstStageHasPeriod(m: seq<Transaction>, p: Period)
    requires HasKey(FirstStage(m), RowPeriod, p)
    ensures HasKey(m, PeriodOfTx, p)
  {
    var ks := Keys(m, MonthTypeOf);
    var rows := FirstStage(m);
    var i :| 0 <= i < |rows| && RowPeriod(rows[i]) == p;
    assert ks[i] in ks;
    var j :| 0 <= j < |m| && MonthTypeOf(m[j]) == ks[i];
    assert PeriodOfTx(m[j]) == p;
  }

  lemma PeriodHasFirstStage(m: seq<Transaction>, p: Period)
    requires HasKey(m, PeriodOfTx, p)
    ensures HasKey(FirstStage(m), RowPeriod, p)
  {
    var ks := Keys(m, MonthTypeOf);
    var rows := FirstStage(m);
    var j :| 0 <= j < |m| && PeriodOfTx(m[j]) == p;
    assert HasKey(m, MonthTypeOf, MonthTypeOf(m[j]));
    var i :| 0 <= i < |ks| && ks[i] == MonthTypeOf(m[j]);
    assert RowPeriod(rows[i]) == p;
  }

  /** A month has first-stage rows exactly when some matched document falls in it. */
  lemma FirstStagePeriods(m: seq<Transaction>, p: Period)
    ensures HasKey(FirstStage(m), RowPeriod, p) <==> HasKey(m, PeriodOfTx, p)
  {
    if HasKey(FirstStage(m), RowPeriod, p) {
      FirstStageHasPeriod(m, p);
    }
    if HasKey(m, PeriodOfTx, p) {
      PeriodHasFirstStage(m, p);
    }
  }

  /** The conditional sums of the second stage equal the direct per-(month, type) sums; absent types give 0. */
  lemma SecondStageMeaning(m: seq<Transaction>, p: Period)
    ensures KeyTotal(FirstStage(m), RowPeriod, p, IncomeAmount) == KeyTotal(m, MonthTypeOf, MonthType(p, Income), AmountOf)
    ensures KeyTotal(FirstStage(m), RowPeriod, p, ExpenseAmount) == KeyTotal(m, MonthTypeOf, MonthType(p, Expense), AmountOf)
    ensures KeyTally(FirstStage(m), RowPeriod, p, IncomeCount) == KeyCount(m, MonthTypeOf, MonthType(p, Income))
    ensures KeyTally(FirstStage(m), RowPeriod, p, ExpenseCount) == KeyCount(m, MonthTypeOf, MonthType(p, Expense))
  {
    var ks := Keys(m, MonthTypeOf);
    SecondStageSum(ks, m, p, Income, IncomeAmount, IncomeCount);
    SecondStageSum(ks, m, p, Expense, ExpenseAmount, ExpenseCount);
    KeyCountIff(m, MonthTypeOf, MonthType(p, Income), AmountOf);
    KeyCountIff(m, MonthTypeOf, MonthType(p, Expense), AmountOf);
  }

  /** A month's documents split into its income and its expense documents. */
  lemma {:induction false} MonthSplit(m: seq<Transaction>, p: Period)
    ensures KeyCount(m, PeriodOfTx, p) == KeyCount(m, MonthTypeOf, MonthType(p, Income)) + KeyCount(m, MonthTypeOf, MonthType(p, Expense))
    ensures KeyTotal(m, PeriodOfTx, p, AmountOf) == KeyTotal(m, MonthTypeOf, MonthType(p, Income), AmountOf) + KeyTotal(m, MonthTypeOf, MonthType(p, Expense), AmountOf)
  {
    if m != [] {
      MonthSplit(m[1..], p);
      var t := m[0];
      assert MonthTypeOf(t) == MonthType(PeriodOfTx(t), t.txType);
      assert t.txType == Income || t.txType == Expense;
      assert PeriodOfTx(t) == p <==> MonthTypeOf(t) == MonthType(p, Income) || MonthTypeOf(t) == MonthType(p, Expense);
    }
  }

  /** One output document of the trends pipeline: `{ period, income, expenses }`. */
  datatype TrendRow = TrendRow(period: Period, income: real, expenses: real)

  function TrendRows(ps: seq<Period>, rows: seq<MonthTypeRow>): (r: seq<TrendRow>)
    ensures |r| == |ps|
    ensures forall i :: 0 <= i < |r| ==>
      r[i] == TrendRow(ps[i], KeyTotal(rows, RowPeriod, ps[i], IncomeAmount), KeyTotal(rows, RowPeriod, ps[i], ExpenseAmount))
  {
    if ps == [] then []
    else
      var row := TrendRow(ps[0], KeyTotal(rows, RowPeriod, ps[0], IncomeAmount), KeyTotal(rows, RowPeriod, ps[0], ExpenseAmount));
      [row] + TrendRows(ps[1..], rows)
  }

  function TrendPeriod(r: TrendRow): Period { r.period }
  function TrendRank(r: TrendRow): real { Rank(r.period) as real }

  /** `getSpendingTrendsData` for the window [start, end]: two-stage grouping, then ascending by month. */
  function SpendingTrends(s: seq<Transaction>, userId: UserId, start: nat, end: nat): seq<TrendRow> {
    var rows := FirstStage(Where(s, WindowFilter(userId, start, end)));
    SortBy(TrendRows(Keys(rows, RowPeriod), rows), TrendRank, false)
  }

  /** The months of the matched documents, each once. */
  ghost predicate MonthsOf<R>(r: seq<R>, period: R -> Period, m: seq<Transaction>) {
    (forall p :: HasKey(r, period, p) <==> HasKey(m, PeriodOfTx, p))
    && DistinctBy(r, period)
    && (forall i, j :: 0 <= i < j < |r| ==> Rank(period(r[i])) < Rank(period(r[j])))
  }

  /** Rows whose periods are the distinct months of `m`, sorted by rank, run in strictly increasing month order. */
  lemma {:induction false} AscendingMonths<R>(rows: seq<R>, r: seq<R>, period: R -> Period, rank: R -> real, m: seq<Transaction>)
    requires forall x :: rank(x) == Rank(period(x)) as real
    requires multiset(r) == multiset(rows) && SortedBy(r, rank, false)
    requires DistinctBy(rows, period)
    requires forall p :: HasKey(rows, period, p) <==> HasKey(m, PeriodOfTx, p)
    ensures MonthsOf(r, period, m)
  {
    forall x | x in multiset(rows) ensures ValidPeriod(period(x)) {
      var i :| 0 <= i < |rows| && rows[i] == x;
      assert HasKey(rows, period, period(x));
      var j :| 0 <= j < |m| && PeriodOfTx(m[j]) == period(x);
    }
    forall p ensures HasKey(r, period, p) <==> HasKey(rows, period, p) {
      if HasKey(r, period, p) {
        var i :| 0 <= i < |r| && period(r[i]) == p;
        assert r[i] in multiset(rows);
        var j :| 0 <= j < |rows| && rows[j] == r[i];
      }
      if HasKey(rows, period, p) {
        var j :| 0 <= j < |rows| && period(rows[j]) == p;
        assert rows[j] in multiset(r);
        var i :| 0 <= i < |r| && r[i] == rows[j];
      }
    }
    DistinctByPermutation(rows, r, period);
    forall i, j | 0 <= i < j < |r| ensures Rank(period(r[i])) < Rank(period(r[j])) {
      assert r[i] in multiset(rows) && r[j] in multiset(rows);
      RankOrder(period(r[i]), period(r[j]));
    }
  }

  /** A permutation of a list whose keys are distinct has distinct keys. */
  lemma DistinctByPermutation<R, K>(a: seq<R>, b: seq<R>, key: R -> K)
    requires multiset(a) == multiset(b) && DistinctBy(a, key)
    ensures DistinctBy(b, key)
  {
    forall i, j | 0 <= i < j < |b| ensures key(b[i]) != key(b[j]) {
      if key(b[i]) == key(b[j]) {
        assert b[i] in multiset(a) && b[j] in multiset(a);
        var i' :| 0 <= i' < |a| && a[i'] == b[i];
        var j' :| 0 <= j' < |a| && a[j'] == b[j];
        if i' == j' {
          assert multiset(b)[b[i]] >= 2 by {
            var rest := b[..i] + b[i + 1..];
            assert b == b[..i] + [b[i]] + b[i + 1..];
            assert b[j] in rest by { assert rest[j - 1] == b[j]; }
            assert multiset(b) == multiset(rest) + multiset{b[i]};
          }
          DistinctCountOne(a, key, i');
          assert false;
        }
      }
    }
  }

  /** In a list with distinct keys, every element occurs once. */
  lemma DistinctCountOne<R, K>(a: seq<R>, key: R -> K, i: int)
    requires DistinctBy(a, key) && 0 <= i < |a|
    ensures multiset(a)[a[i]] == 1
  {
    var x := a[i];
    assert a == a[..i] + [x] + a[i + 1..];
    assert x !in a[..i] by {
      forall k | 0 <= k < i ensures a[..i][k] != x { assert key(a[k]) != key(a[i]); }
    }
    assert x !in a[i + 1..];
    assert multiset(a) == multiset(a[..i]) + multiset{x} + multiset(a[i + 1..]);
  }

  /**
   * Spending trends: one row per month of the window that has a matched
   * document, in ascending month order; income and expenses are that month's
   * income and expense sums, 0 for a type the month does not have.
   */
  lemma TrendsSpec(s: seq<Transaction>, userId: UserId, start: nat, end: nat)
    ensures
      var m := Where(s, WindowFilter(userId, start, end));
      var r := SpendingTrends(s, userId, start, end);
      MonthsOf(r, TrendPeriod, m)
      && (forall i :: 0 <= i < |r| ==>
        r[i].income == KeyTotal(m, MonthTypeOf, MonthType(r[i].period, Income), AmountOf)
        && r[i].expenses == KeyTotal(m, MonthTypeOf, MonthType(r[i].period, Expense), AmountOf)
        && r[i].income + r[i].expenses == KeyTotal(m, PeriodOfTx, r[i].period, AmountOf)
        && (!HasKey(m, MonthTypeOf, MonthType(r[i].period, Income)) ==> r[i].income == 0.0)
        && (!HasKey(m, MonthTypeOf, MonthType(r[i].period, Expense)) ==> r[i].expenses == 0.0))
  {
    var m := Where(s, WindowFilter(userId, start, end));
    var first := FirstStage(m);
    var ps := Keys(first, RowPeriod);
    var rows := TrendRows(ps, first);
    var r := SortBy(rows, TrendRank, false);
    TrendRowKeys(m, ps, rows);
    assert DistinctBy(rows, TrendPeriod);
    AscendingMonths(rows, r, TrendPeriod, TrendRank, m);
    TrendRowValues(m, rows, r);
  }

  lemma TrendRowKeys(m: seq<Transaction>, ps: seq<Period>, rows: seq<TrendRow>)
    requires ps == Keys(FirstStage(m), RowPeriod) && rows == TrendRows(ps, FirstStage(m))
    ensures forall p :: HasKey(rows, TrendPeriod, p) <==> HasKey(m, PeriodOfTx, p)
  {
    var first := FirstStage(m);
    forall p ensures HasKey(rows, TrendPeriod, p) <==> HasKey(m, PeriodOfTx, p) {
      FirstStagePeriods(m, p);
      if HasKey(rows, TrendPeriod, p) {
        var i :| 0 <= i < |rows| && TrendPeriod(rows[i]) == p;
        assert ps[i] in ps;
      }
      if HasKey(first, RowPeriod, p) {
        assert p in ps;
        var i :| 0 <= i < |ps| && ps[i] == p;
        assert TrendPeriod(rows[i]) == p;
      }
    }
  }

  lemma TrendRowValues(m: seq<Transaction>, rows: seq<TrendRow>, r: seq<TrendRow>)
    requires rows == TrendRows(Keys(FirstStage(m), RowPeriod), FirstStage(m)) && multiset(r) == multiset(rows)
    ensures forall i :: 0 <= i < |r| ==>
      r[i].income == KeyTotal(m, MonthTypeOf, MonthType(r[i].period, Income), AmountOf)
      && r[i].expenses == KeyTotal(m, MonthTypeOf, MonthType(r[i].period, Expense), AmountOf)
      && r[i].income + r[i].expenses == KeyTotal(m, PeriodOfTx, r[i].period, AmountOf)
      && (!HasKey(m, MonthTypeOf, MonthType(r[i].period, Income)) ==> r[i].income == 0.0)
      && (!HasKey(m, MonthTypeOf, MonthType(r[i].period, Expense)) ==> r[i].expenses == 0.0)
  {
    forall i | 0 <= i < |r|
      ensures r[i].income == KeyTotal(m, MonthTypeOf, MonthType(r[i].period, Income), AmountOf)
      ensures r[i].expenses == KeyTotal(m, MonthTypeOf, MonthType(r[i].period, Expense), AmountOf)
      ensures r[i].income + r[i].expenses == KeyTotal(m, PeriodOfTx, r[i].period, AmountOf)
      ensures !HasKey(m, MonthTypeOf, MonthType(r[i].period, Income)) ==> r[i].income == 0.0
      ensures !HasKey(m, MonthTypeOf, MonthType(r[i].period, Expense)) ==> r[i].expenses == 0.0
    {
      assert r[i] in multiset(rows);
      var j :| 0 <= j < |rows| && rows[j] == r[i];
      SecondStageMeaning(m, r[i].period);
      MonthSplit(m, r[i].period);
      KeyCountIff(m, MonthTypeOf, MonthType(r[i].period, Income), AmountOf);
      KeyCountIff(m, MonthTypeOf, MonthType(r[i].period, Expense), AmountOf);
    }
  }

  /** One output document of the monthly summary: `{ month, income, expenses, incomeCount, expenseCount, net }`. */
  datatype MonthRow = MonthRow(month: Period, income: real, expenses: real, incomeCount: int, expenseCount: int, net: real)

  function MonthRows(ps: seq<Period>, rows: seq<MonthTypeRow>): (r: seq<MonthRow>)
    ensures |r| == |ps|
    ensures forall i :: 0 <= i < |r| ==>
      r[i].month == ps[i]
      && r[i].income == KeyTotal(rows, RowPeriod, ps[i], IncomeAmount)
      && r[i].expenses == KeyTotal(rows, RowPeriod, ps[i], ExpenseAmount)
      && r[i].incomeCount == KeyTally(rows, RowPeriod, ps[i], IncomeCount)
      && r[i].expenseCount == KeyTally(rows, RowPeriod, ps[i], ExpenseCount)
      && r[i].net == r[i].income - r[i].expenses
  {
    if ps == [] then []
    else
      var income := KeyTotal(rows, RowPeriod, ps[0], IncomeAmount);
      var expenses := KeyTotal(rows, RowPeriod, ps[0], ExpenseAmount);
      [MonthRow(ps[0], income, expenses,
        KeyTally(rows, RowPeriod, ps[0], IncomeCount), KeyTally(rows, RowPeriod, ps[0], ExpenseCount),
        income - expenses)]
      + MonthRows(ps[1..], rows)
  }

  function MonthPeriod(r: MonthRow): Period { r.month }
  function MonthRank(r: MonthRow): real { Rank(r.month) as real }

  /** `getMonthlySummaryData` for the window [start, end]. */
  function MonthlySummary(s: seq<Transaction>, userId: UserId, start: nat, end: nat): seq<MonthRow> {
    var rows := FirstStage(Where(s, WindowFilter(userId, start, end)));
    SortBy(MonthRows(Keys(rows, RowPeriod), rows), MonthRank, false)
  }

  /**
   * Monthly summary: one row per month with a matched document, ascending;
   * per-type sums and counts of that month; `net` is income minus expenses;
   * the two counts add up to the month's number of documents.
   */
  lemma MonthlySpec(s: seq<Transaction>, userId: UserId, start: nat, end: nat)
    ensures
      var m := Where(s, WindowFilter(userId, start, end));
      var r := MonthlySummary(s, userId, start, end);
      MonthsOf(r, MonthPeriod, m)
      && (forall i :: 0 <= i < |r| ==>
        r[i].income == KeyTotal(m, MonthTypeOf, MonthType(r[i].month, Income), AmountOf)
        && r[i].expenses == KeyTotal(m, MonthTypeOf, MonthType(r[i].month, Expense), AmountOf)
        && r[i].incomeCount == KeyCount(m, MonthTypeOf, MonthType(r[i].month, Income))
        && r[i].expenseCount == KeyCount(m, MonthTypeOf, MonthType(r[i].month, Expense))
        && r[i].incomeCount + r[i].expenseCount == KeyCount(m, PeriodOfTx, r[i].month)
        && r[i].incomeCount + r[i].expenseCount >= 1
        && r[i].net == r[i].income - r[i].expenses)
  {
    var m := Where(s, WindowFilter(userId, start, end));
    var first := FirstStage(m);
    var ps := Keys(first, RowPeriod);
    var rows := MonthRows(ps, first);
    var r := SortBy(rows, MonthRank, false);
    MonthRowKeys(m, ps, rows);
    assert DistinctBy(rows, MonthPeriod);
    AscendingMonths(rows, r, MonthPeriod, MonthRank, m);
    MonthRowValues(m, rows, r);
  }

  lemma MonthRowKeys(m: seq<Transaction>, ps: seq<Period>, rows: seq<MonthRow>)
    requires ps == Keys(FirstStage(m), RowPeriod) && rows == MonthRows(ps, FirstStage(m))
    ensures forall p :: HasKey(rows, MonthPeriod, p) <==> HasKey(m, PeriodOfTx, p)
  {
    var first := FirstStage(m);
    forall p ensures HasKey(rows, MonthPeriod, p) <==> HasKey(m, PeriodOfTx, p) {
      FirstStagePeriods(m, p);
      if HasKey(rows, MonthPeriod, p) {
        var i :| 0 <= i < |rows| && MonthPeriod(rows[i]) == p;
        assert ps[i] in ps;
      }
      if HasKey(first, RowPeriod, p) {
        assert p in ps;
        var i :| 0 <= i < |ps| && ps[i] == p;
        assert MonthPeriod(rows[i]) == p;
      }
    }
  }

  lemma MonthRowValues(m: seq<Transaction>, rows: seq<MonthRow>, r: seq<MonthRow>)
    requires rows == MonthRows(Keys(FirstStage(m), RowPeriod), FirstStage(m)) && multiset(r) == multiset(rows)
    requires forall p :: HasKey(r, MonthPeriod, p) <==> HasKey(m, PeriodOfTx, p)
    ensures forall i :: 0 <= i < |r| ==>
      r[i].income == KeyTotal(m, MonthTypeOf, MonthType(r[i].month, Income), AmountOf)
      && r[i].expenses == KeyTotal(m, MonthTypeOf, MonthType(r[i].month, Expense), AmountOf)
      && r[i].incomeCount == KeyCount(m, MonthTypeOf, MonthType(r[i].month, Income))
      && r[i].expenseCount == KeyCount(m, MonthTypeOf, MonthType(r[i].month, Expense))
      && r[i].incomeCount + r[i].expenseCount == KeyCount(m, PeriodOfTx, r[i].month)
      && r[i].incomeCount + r[i].expenseCount >= 1
      && r[i].net == r[i].income - r[i].expenses
  {
    forall i | 0 <= i < |r|
      ensures r[i].income == KeyTotal(m, MonthTypeOf, MonthType(r[i].month, Income), AmountOf)
      ensures r[i].expenses == KeyTotal(m, MonthTypeOf, MonthType(r[i].month, Expense), AmountOf)
      ensures r[i].incomeCount == KeyCount(m, MonthTypeOf, MonthType(r[i].month, Income))
      ensures r[i].expenseCount == KeyCount(m, MonthTypeOf, MonthType(r[i].month, Expense))
      ensures r[i].incomeCount + r[i].expenseCount == KeyCount(m, PeriodOfTx, r[i].month)
      ensures r[i].incomeCount + r[i].expenseCount >= 1
      ensures r[i].net == r[i].income - r[i].expenses
    {
      assert r[i] in multiset(rows);
      var j :| 0 <= j < |rows| && rows[j] == r[i];
      SecondStageMeaning(m, r[i].month);
      MonthSplit(m, r[i].month);
      assert HasKey(r, MonthPeriod, r[i].month);
      KeyCountPositive(m, PeriodOfTx, r[i].month);
    }
  }
}
