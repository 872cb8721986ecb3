# Finance tracker core, modelled in Dafny

This project models the sequential logic of a personal finance tracker
whose backend runs on Node/Express/Mongoose and whose frontend uses
React/Redux. It states and proves properties of that model. It covers three parts.

- **Transactions (backend).** The transaction document and its schema. The
  owner-scoped listing with its AND filter, sort and pagination. Lookup,
  update and delete by owner. The create and update request checks with
  their status codes. The four analytics pipelines: financial summary,
  category breakdown, spending trends and monthly summary.
- **Users and sessions (backend).** The user document and its schema. The
  user service over a collection of users. The user endpoints, which are
  register, login, profile, password change, deactivation, refresh-token
  rotation and logout. The bearer-token middleware, and token signing with
  its secret fallback and its warn-once flag.
- **Browser logic (frontend).** The Redux session reducers and their
  local-storage mirror. The token expiry helpers. The category and route
  tables with their lookups. The query builders and response transforms of
  the transaction endpoints. The password-strength meter and the rules of
  the password form.

The database is a sequence: users in `UserService.UserStore`, whose
position is the id, and transactions in `TransactionService.TransactionStore`,
in insertion order. `find` is a filter over that sequence.
`aggregate` is the `$group`/`$sort` arithmetic in `Groups`. Password hashing and
token signing are opaque, injective functions. A signed token is the record
of its payload, its key and its issue and expiry seconds. The clock is a
millisecond parameter. JavaScript numbers for amounts are `real`.
Handlers that change state are methods on the store classes. Their
`ensures` give the whole new state and the reply. The pipelines and checks
are functions, and lemmas prove what they mean.

Modules, one per source file, plus three shared ones:

| file | models |
|---|---|
| `wrappers.dfy`, `http.dfy` | `Option`/`Result`; a reply's status and message |
| `text.dfy` | `trim`, the case-insensitive substring search, `split('.')` |
| `groups.dfy` | `$group` keys, sums and counts; a stable `$sort` |
| `calendar.dfy` | `$year`/`$month` of a timestamp (UTC) and month order |
| `transaction_model.dfy` | `backend/src/models/Transaction.js` |
| `transaction_service.dfy` | `backend/src/services/transactionService.js` |
| `transaction_controller.dfy` | `backend/src/controllers/transactionController.js` |
| `user_model.dfy` | `backend/src/models/User.js` |
| `user_service.dfy` | `backend/src/services/userService.js` |
| `user_controller.dfy` | `backend/src/controllers/userController.js` |
| `auth_middleware.dfy` | `backend/src/middleware/auth.js` |
| `jwt.dfy` | `backend/src/utils/jwt.js` |
| `auth_slice.dfy` | `frontend/src/store/slices/authSlice.js` |
| `token_utils.dfy` | `frontend/src/utils/tokenUtils.js` |
| `categories.dfy` | `frontend/src/constants/categories.js` |
| `routes.dfy` | `frontend/src/config/routes.js` |
| `transactions_api.dfy` | `frontend/src/store/api/transactionsApi.js` |
| `password_rules.dfy` | `getPasswordStrength` and the password form of `frontend/src/pages/Settings.jsx` |

Behaviour of the code that the proofs make explicit:

- `getTransactionById` and `deleteTransaction` rewrite their own
  "Transaction not found" error in their `catch` blocks. A missing or foreign
  id is therefore a 500, and the controllers' 404 branches for get and delete
  are never taken. The 404 branches at
  `backend/src/controllers/transactionController.js:185-190` and `:289-294`
  are dead code. Only update keeps the 404
  (`TransactionController.GetResponse`, `TransactionController.DeleteNever404`).
- The controller's amount check (`> 0`) admits 0.005. The schema's minimum
  of 0.01 then rejects it, and the request fails with 500
  (`TransactionController.SubCentCreateFails`).
- The handlers check an amount with `Number()` coercion but store
  `parseFloat(amount)`. A string such as `"0x10"` coerces to 16 and passes the
  check, but it is stored as 0, which the schema rejects, so create answers 500
  (`TransactionController.HexAmountCreateFails`). Update stores the same
  `parseFloat` reading (`TransactionController.PrepareUpdate`).
- The schema's `minlength: 6` on `password` is checked against the
  60-character hash. The service therefore accepts a password of any length
  on registration (`UserModel.ShortPasswordAccepted`).
- `login` checks `isActive` before the password. A deactivated account is
  reported as such whatever password is sent (`UserController.LoginOutcomes`).
- Tokens carry whole seconds. A refresh in the same second as the presented
  token's issue produces that same token again, so no rotation happens
  (`UserController.SameSecondRefresh`). A refresh token also stops verifying
  up to a second before its stored expiry (`UserController.RefreshExpiryGap`).
- The middleware accepts a refresh token as a bearer token, because
  `verifyToken` does not tell the two kinds apart
  (`AuthMiddleware.AuthenticateMeaning`).
- Email lookups go through the schema's `trim` setter, as Mongoose casts
  query filters, so `findOne({ email })` looks for the trimmed argument.
  A blank-padded variant of a stored email is answered with 409 on register,
  and it logs in like the stored one (`UserService.PaddedEmailFound`). Case is
  not folded, since the schema has no `lowercase` option.
- `updateProfile` removes only `password` and `email` from the body. A body
  can still set `isActive`, `refreshToken` and `refreshTokenExpiresAt`
  (`UserController.SafeProfileUpdate`). The invariant that every stored
  refresh token belongs to its holder is therefore kept only for bodies
  without `refreshToken`.
- With the default buffer of 60 s and threshold of 5 min, a token with one
  to sixty seconds left is both "expired" and "due for refresh"
  (`TokenUtils.DefaultsOverlap`).

## Model

| member | source | states |
|---|---|---|
| Text.TrimStart | backend/src/models/User.js:9 | the result is a suffix of the input; everything dropped is white space; the result does not start with white space |
| Text.TrimEnd | backend/src/models/User.js:9 | the result is a prefix of the input; everything dropped is white space; the result does not end with white space |
| Text.TrimSpec | backend/src/models/Transaction.js:29 | the trimmed string is a slice of the input with only white space cut at both ends, it is trimmed, and trimming again changes nothing |
| Text.TrimEmptyIffAllWhite | backend/src/models/User.js:18-30 | a string trims to "" exactly when every character is white space, so a required trimmed field rejects blank input |
| Text.TrimmedFixed | backend/src/models/User.js:9 | a string without blanks at either end is left as it is |
| Text.TrimPadded | backend/src/models/User.js:9 | blanks added around a string are all trimmed away again |
| Text.Lower | backend/src/services/transactionService.js:63-65 | ASCII lower-casing keeps the length and folds each character |
| Text.Contains | backend/src/services/transactionService.js:63-65 | the scan answers true exactly when the needle occurs at some position of the text |
| Text.OccursShift | backend/src/services/transactionService.js:63-65 | dropping the first character moves every occurrence one place left, and back |
| Text.ContainsIgnoreCaseBasics | backend/src/services/transactionService.js:63-65 | the empty search matches every description, and a description matches itself |
| Text.Split | frontend/src/utils/tokenUtils.js:14-15 | `split` yields one more part than there are separators, and no part holds the separator |
| Text.JoinSplit | frontend/src/utils/tokenUtils.js:14 | joining the parts with the separator gives the original string back |
| Groups.Keys | backend/src/services/transactionService.js:264-270 | the group keys are distinct, are exactly the keys some element has, and are no more than the elements |
| Groups.KeyCountZero | backend/src/services/transactionService.js:264-270 | a key no element has counts 0 and sums to 0 |
| Groups.KeyCountPositive | backend/src/services/transactionService.js:264-270 | a key some element has counts at least 1 |
| Groups.KeyCountIff | backend/src/services/transactionService.js:264-270 | a key occurs exactly when its `$sum: 1` count is positive, and an absent key's sum is 0 |
| Groups.SumIndicator | backend/src/services/transactionService.js:264-270 | over distinct keys, a single element is counted once if its key is among them, otherwise not at all |
| Groups.SumKeysSplit | backend/src/services/transactionService.js:264-270 | summing per-key totals splits over the first element of the data |
| Groups.Partition | backend/src/services/transactionService.js:264-270 | grouping by a distinct key list that covers every element loses and duplicates nothing: per-key totals add up to the grand total and counts to the number of elements |
| Groups.ZeroSums | backend/src/services/transactionService.js:264-270 | grouping no elements gives zero totals and counts |
| Groups.TotalConcat | backend/src/services/transactionService.js:264-270 | the total of a concatenation is the sum of the totals |
| Groups.TallyConcat | backend/src/services/transactionService.js:264-270 | the integer total of a concatenation is the sum of the totals |
| Groups.Insert | backend/src/services/transactionService.js:278 | inserting into a sorted list keeps it sorted and adds exactly that element |
| Groups.InsertHeadFirst | backend/src/services/transactionService.js:278 | a head the new element may not precede stays in front, and the list stays sorted |
| Groups.SortBy | backend/src/services/transactionService.js:278 | `$sort` on one key is sorted in the requested direction and is a permutation of its input |
| Groups.SortByMembers | backend/src/services/transactionService.js:278 | sorting keeps exactly the elements it was given |
| Groups.MultisetWithout | backend/src/services/transactionService.js:278 | removing one position removes exactly that element from the multiset |
| Groups.TotalWithout | backend/src/services/transactionService.js:278 | the total is the removed element's weight plus the total of the rest |
| Groups.TallyWithout | backend/src/services/transactionService.js:278 | the same for integer weights |
| Groups.PermutationSums | backend/src/services/transactionService.js:278 | reordering changes no sum or count |
| Groups.InsertAvoids | backend/src/services/transactionService.js:278 | inserting introduces no key that neither the element nor the list had |
| Groups.InsertDistinct | backend/src/services/transactionService.js:278 | inserting an element with a new key keeps keys distinct |
| Groups.SortByDistinct | backend/src/services/transactionService.js:278 | sorting rows with distinct keys keeps them distinct |
| Calendar.YearAndDay | backend/src/services/transactionService.js:309 | the year found holds the day: the days of the years skipped plus the day index give back the day count, and the index is below that year's length |
| Calendar.MonthOfDay | backend/src/services/transactionService.js:310 | the month found is one whose days hold the day of the year: the days of the months before it are at most the day index, and the index is before its end |
| Calendar.PeriodOf | backend/src/services/transactionService.js:307-311 | `$year`/`$month` of a timestamp is a valid month of 1970 or later whose days, counted from the epoch, contain the timestamp's day |
| Calendar.MonthsMakeYear | backend/src/services/transactionService.js:309-310 | the twelve month lengths add up to the year's length |
| Calendar.YearsSplit | backend/src/services/transactionService.js:309 | the days of a run of years split at any year in between |
| Calendar.MonthsSplit | backend/src/services/transactionService.js:310 | the days of a run of months split at any month in between |
| Calendar.MonthsInOrder | backend/src/services/transactionService.js:307-311 | every day of an earlier month lies before the first day of a later month |
| Calendar.PeriodOfIff | backend/src/services/transactionService.js:307-311 | the period of a timestamp is a month exactly when that month's days contain the timestamp's day, so each timestamp lies in one month only |
| Calendar.RankOrder | backend/src/services/transactionService.js:348 | month rank order is (year, month) order, and distinct months have distinct ranks |
| Calendar.EpochMonths | backend/src/services/transactionService.js:309-310 | the epoch is January 1970 and 31 days later is February 1970 |
| TransactionModel.ParseType | backend/src/models/Transaction.js:17-24 | the type enum accepts exactly "income" and "expense", naming the value parsed |
| TransactionModel.ParseTypeName | backend/src/models/Transaction.js:17-24 | each type's name parses back to that type |
| TransactionModel.CheckAmount | backend/src/models/Transaction.js:5-15 | an amount passes exactly when it is present, finite, positive and at least 0.01 |
| TransactionModel.CheckType | backend/src/models/Transaction.js:17-24 | a type passes exactly when it is present and in the enum |
| TransactionModel.CheckDescription | backend/src/models/Transaction.js:26-31 | a description passes exactly when, after trimming, it is non-empty and at most 200 characters |
| TransactionModel.CheckCategory | backend/src/models/Transaction.js:39-43 | a category passes exactly when it is present, non-empty and at most 50 characters |
| TransactionModel.Build | backend/src/models/Transaction.js:3-55 | a draft builds exactly when every field validator passes and the user is given; the stored document is valid, has its description trimmed, and has its date defaulting to now; a failure lists at least one error |
| TransactionModel.ApplyPatch | backend/src/services/transactionService.js:131-135 | an update succeeds exactly when the validators of its set fields pass; set fields are replaced, the others and the id kept, and validity is preserved |
| TransactionModel.FormattedAmountSign | backend/src/models/Transaction.js:64-66 | for a stored document, `formattedAmount` is negative exactly for an expense and positive exactly for an income, and its magnitude is the amount |
| TransactionModel.SubCentAmountRejected | backend/src/models/Transaction.js:8 | an amount of 0.005 is rejected for falling below the minimum |
| TransactionService.Where | backend/src/services/transactionService.js:75-79 | `find(filter)` returns exactly the stored documents that match, in store order |
| TransactionService.DateFilter | backend/src/services/transactionService.js:182-191 | the date condition is present exactly when a bound is given, and holds exactly the bounds given |
| TransactionService.Selection | backend/src/services/transactionService.js:42-66 | the listing's selection holds exactly the stored documents of the owner that pass every given filter |
| TransactionService.BuildFilter | backend/src/services/transactionService.js:42-66 | the filter built key by key is scoped to the caller and matches exactly the selected documents: the owner, and each truthy filter ANDed |
| TransactionService.WhereSelection | backend/src/services/transactionService.js:42-79 | a filter that matches exactly the selected documents finds exactly the selection |
| TransactionService.Page | backend/src/services/transactionService.js:73-80 | `skip(skip).limit(limit)` yields the consecutive documents from `skip` on, at most `|limit|` of them, and everything from `skip` on for limit 0 |
| TransactionService.CeilDiv | backend/src/services/transactionService.js:88 | `Math.ceil(a / b)` is the least multiple count covering `a`, for either sign of `b` |
| TransactionService.GetUserTransactions | backend/src/services/transactionService.js:27-95 | the method's result is the sorted selection's page, the total of the whole selection and the page count; a negative skip is a fetch failure |
| TransactionService.PageMembers | backend/src/services/transactionService.js:73-80 | a page only holds documents of the list it was taken from |
| TransactionService.ListScoped | backend/src/services/transactionService.js:42-66 | every listed document is the caller's own and passes every given filter, and the total counts the whole selection independently of the window |
| TransactionService.ListWindow | backend/src/services/transactionService.js:73-89 | for positive page and limit the listing succeeds, is the window at `(page-1)*limit` of the sorted selection, and reports `pages = ceil(total/limit)` |
| TransactionService.PageWindow | backend/src/services/transactionService.js:73-80 | a window of positive limit holds at most `limit` items, the consecutive ones from `skip`, as many as remain |
| TransactionService.PagesPrefix | backend/src/services/transactionService.js:73-80 | pages 1 to `n` concatenated are the first `n * limit` documents |
| TransactionService.PagesReassemble | backend/src/services/transactionService.js:73-89 | at a fixed positive limit, pages 1 to `pages` concatenated give the sorted selection exactly, and any later page is empty |
| TransactionService.OwnedIndex | backend/src/services/transactionService.js:106-109 | `findOne({_id, user})` finds the first position holding that id for that owner, or reports that none does |
| TransactionService.GetTransactionById | backend/src/services/transactionService.js:104-120 | the caller's document with that id when there is one; otherwise the generic fetch failure, since the catch rewrites "not found" |
| TransactionService.StoreAppend | backend/src/services/transactionService.js:11-12 | appending a valid document under the counter's id keeps ids distinct and documents valid |
| TransactionService.StoreRemove | backend/src/services/transactionService.js:156-159 | removing a document keeps the store consistent |
| TransactionService.TransactionStore.Create | backend/src/services/transactionService.js:9-19 | a draft that builds is appended under a fresh id and returned; otherwise the store is unchanged and the validation failure reported |
| TransactionService.TransactionStore.Save | backend/src/services/transactionService.js:11-12 | `save()` appends the document and moves the id counter on, keeping the store consistent |
| TransactionService.TransactionStore.Update | backend/src/services/transactionService.js:129-146 | only the caller's document with that id is replaced by the patched one; a missing or foreign id keeps "Transaction not found"; a failed validator changes nothing |
| TransactionService.TransactionStore.Delete | backend/src/services/transactionService.js:154-170 | only the caller's document with that id is removed and returned; a missing or foreign id reports the delete failure and changes nothing |
| TransactionService.UpdateScoped | backend/src/services/transactionService.js:131-135 | an update touches only the owner's document with that id, keeps its id, and keeps its owner when the patch has no `user` |
| TransactionService.TypeGroups | backend/src/services/transactionService.js:200-208 | one `{_id: type, total, count}` row per key, holding that type's sum and count |
| TransactionService.TypeGroupsCount | backend/src/services/transactionService.js:200-208 | the groups' counts are the per-key counts summed |
| TransactionService.GetUserFinancialSummary | backend/src/services/transactionService.js:178-234 | the fold over the groups yields the income and expense sums of the matched documents, their difference and the number matched |
| TransactionService.FoldedTotal | backend/src/services/transactionService.js:219-224 | the total the fold keeps for a type is that type's sum, also 0 when no group for it came back |
| TransactionService.GroupsCountMatched | backend/src/services/transactionService.js:225 | the groups' counts add up to the number of matched documents |
| TransactionService.SummaryProperties | backend/src/services/transactionService.js:212-228 | income plus expenses is the total amount; balance is income minus expenses; the count is the number matched; nothing matched gives all zeros |
| TransactionService.TypeTotals | backend/src/services/transactionService.js:219-223 | the income and expense sums add up to the whole, as every document has one of the two types |
| TransactionService.SummaryExample | backend/src/services/transactionService.js:212-228 | an income of 100 and an expense of 40 summarise to 100, 40, balance 60 and count 2 |
| TransactionService.CategoryRows | backend/src/services/transactionService.js:262-276 | one `{category, amount, count}` row per key, holding that category's sum and count |
| TransactionService.CategoryRowsSums | backend/src/services/transactionService.js:262-276 | the rows' counts and amounts are the per-key counts and totals summed |
| TransactionService.BreakdownSpec | backend/src/services/transactionService.js:240-282 | one row per distinct matched category holding its sum and a positive count; categories distinct; rows in non-increasing amount order; counts add up to the number matched and amounts to the matched total |
| TransactionService.BreakdownRowValues | backend/src/services/transactionService.js:262-278 | every sorted row holds its category's sum and a positive count |
| TransactionService.BreakdownRowKeys | backend/src/services/transactionService.js:262-278 | the sorted rows name exactly the matched categories |
| TransactionService.BreakdownSums | backend/src/services/transactionService.js:262-278 | the sorted rows' counts add up to the number matched and their amounts to the matched total |
| TransactionService.MonthTypeRows | backend/src/services/transactionService.js:307-315 | one row per (month, type) key, holding that key's sum and count |
| TransactionService.SecondStageSum | backend/src/services/transactionService.js:317-331 | over distinct first-stage keys, a month's conditional sum picks out that month's one (month, type) group |
| TransactionService.FirstStagePeriods | backend/src/services/transactionService.js:307-315 | a month has first-stage rows exactly when some matched document falls in it |
| TransactionService.SecondStageMeaning | backend/src/services/transactionService.js:317-331 | the second stage's conditional sums equal the direct per-(month, type) sums and counts, 0 for an absent type |
| TransactionService.MonthSplit | backend/src/services/transactionService.js:317-331 | a month's count and total split into its income part and its expense part |
| TransactionService.TrendRows | backend/src/services/transactionService.js:317-346 | one `{period, income, expenses}` row per month key, holding the conditional sums |
| TransactionService.AscendingMonths | backend/src/services/transactionService.js:348 | rows keyed by the distinct months of the matched documents, sorted by rank, run in strictly ascending month order |
| TransactionService.DistinctByPermutation | backend/src/services/transactionService.js:348 | a permutation of rows with distinct keys has distinct keys |
| TransactionService.DistinctCountOne | backend/src/services/transactionService.js:348 | each row of a list with distinct keys occurs once |
| TransactionService.TrendsSpec | backend/src/services/transactionService.js:287-351 | one row per month of the window that has a matched document, strictly ascending; income and expenses are that month's per-type sums, 0 for an absent type, and together the month's total |
| TransactionService.TrendRowKeys | backend/src/services/transactionService.js:317-346 | the trend rows name each month of the matched documents once |
| TransactionService.TrendRowValues | backend/src/services/transactionService.js:317-348 | every sorted trend row holds its month's per-type sums |
| TransactionService.MonthRows | backend/src/services/transactionService.js:388-430 | one `{month, income, expenses, incomeCount, expenseCount, net}` row per month key |
| TransactionService.MonthlySpec | backend/src/services/transactionService.js:357-434 | one row per month with a matched document, strictly ascending; per-type sums and counts of that month; `net = income - expenses`; the two counts add up to the month's count, at least 1 |
| TransactionService.MonthRowKeys | backend/src/services/transactionService.js:388-430 | the monthly rows name each month of the matched documents once |
| TransactionService.MonthRowValues | backend/src/services/transactionService.js:388-432 | every sorted monthly row holds its month's sums, counts and net |
| TransactionController.CreateValidation | backend/src/controllers/transactionController.js:25-49 | a falsy amount, type, description or category is 400 first; then a type outside the enum; then a NaN or non-positive amount; a body that passes has a positive amount and a known type |
| TransactionController.CreatedRecord | backend/src/controllers/transactionController.js:51-60 | a created record's owner is the caller, its date is the given one or now, its amount is the `parseFloat` reading of the body's amount, and it satisfies the schema |
| TransactionController.SubCentCreateFails | backend/src/controllers/transactionController.js:43-49 | an amount of 0.005 passes the handler's check and then fails the schema |
| TransactionController.HexAmountCreateFails | backend/src/controllers/transactionController.js:43-52 | the amount `"0x10"` passes the handler's `Number()` check, but its `parseFloat` reading 0 fails the schema's minimum, so create fails |
| TransactionController.CreateTransactionController | backend/src/controllers/transactionController.js:17-103 | 400 with the first failed check and nothing stored; otherwise, with the `parseFloat` amount, 201 when the service stores the record and 500 when the schema rejects it; never the 404 or type-mismatch branches |
| TransactionController.PrepareUpdate | backend/src/controllers/transactionController.js:209-234 | `user` is removed; a present amount must coerce to a positive number and is replaced by its `parseFloat` reading; a truthy type must be in the enum; the amount error comes first; the other fields pass through |
| TransactionController.UpdateResponse | backend/src/controllers/transactionController.js:243-270 | 200 exactly on success, and 404 exactly for the two not-found messages |
| TransactionController.UpdateTransactionController | backend/src/controllers/transactionController.js:203-271 | a rejected body answers its 400 and changes nothing; a missing or foreign id answers 404 and changes nothing; a patch the validators reject answers 500 and changes nothing; otherwise 200 and exactly the caller's document is replaced by the patched one; no id or owner ever changes |
| TransactionController.GetResponse | backend/src/controllers/transactionController.js:173-198 | never 404; 200 exactly when the caller owns a document with that id; otherwise 500 |
| TransactionController.DeleteTransactionController | backend/src/controllers/transactionController.js:276-302 | never 404; the caller's document is removed with 200; a missing or foreign id answers 500 and changes nothing |
| TransactionController.DeleteNever404 | backend/src/controllers/transactionController.js:288-301 | every failure the service reports for delete is answered with 500, never 404 |
| TransactionController.ListDefaults | backend/src/controllers/transactionController.js:111-121 | with no query parameters the listing is page 1 with limit 10, sorted by date, newest first |
| TransactionController.ListResponse | backend/src/controllers/transactionController.js:150-167 | 200 exactly when the service succeeds, otherwise 500 "Failed to fetch transactions" |
| TransactionController.AnalyticsDefaults | backend/src/controllers/transactionController.js:365 | trends and the monthly summary cover 6 months unless given; the trends period defaults to "monthly" |
| UserModel.ParseCurrency | backend/src/models/User.js:32-41 | the currency enum accepts exactly the eight codes |
| UserModel.CurrencyCodes | backend/src/models/User.js:36-40 | each currency's code is listed and parses back to it |
| UserModel.HashCompare | backend/src/services/userService.js:87-93 | a hash accepts exactly the password it was made from |
| UserModel.CheckName | backend/src/models/User.js:18-30 | a name passes exactly when its trimmed form is non-empty and at most 50 characters |
| UserModel.CheckCurrency | backend/src/models/User.js:32-41 | an absent currency passes (default INR); a given one passes exactly when it is in the enum |
| UserModel.CheckEmail | backend/src/models/User.js:5-10 | an email passes exactly when its trimmed form is non-empty |
| UserModel.BuildUser | backend/src/models/User.js:3-64 | a new user builds exactly when every validator passes; it is valid, holds the trimmed fields and the hash, has currency defaulting to INR, is active, and has an empty refresh slot |
| UserModel.ShortPasswordAccepted | backend/src/models/User.js:12-16 | a one- to five-character password is accepted, because the length rule sees the 60-character hash |
| UserService.ConsistentMember | backend/src/services/userService.js:36-38 | in a consistent collection a user sits at the position of its id |
| UserService.FindUserByEmail | backend/src/services/userService.js:31-33 | finds a user whose stored email equals the trimmed argument, or reports that none does |
| UserService.EmailExists | backend/src/services/userService.js:136-139 | true exactly when some user's stored email equals the trimmed argument |
| UserService.EmailIdentifies | backend/src/models/User.js:8 | with unique emails, two users with the same email are the same user |
| UserService.PaddedEmailFound | backend/src/services/userService.js:31-33 | a lookup with blanks around the email finds the same user as the lookup without them |
| UserService.ConsistentAppend | backend/src/services/userService.js:8-21 | appending a valid user under a fresh id and a fresh email keeps the collection consistent |
| UserService.ConsistentReplace | backend/src/services/userService.js:46 | replacing a user by a valid one with the same id and an unclaimed email keeps the collection consistent |
| UserService.ApplyUpdateMeaning | backend/src/services/userService.js:41-56 | an update never changes the id or the password and changes exactly the fields present in it, trimmed |
| UserService.ApplyUpdateValid | backend/src/services/userService.js:46-50 | an update that passes the validators keeps a valid user valid |
| UserService.GetUserProfile | backend/src/services/userService.js:121-133 | the stored document with `fullName = firstName + " " + lastName`, or "User not found" |
| UserService.FullNameSplits | backend/src/services/userService.js:130 | first and last name are read back from the full name |
| UserService.UnexpiredHolder | backend/src/controllers/userController.js:307-310 | the first user holding the token with an expiry after now, or none when no user does |
| UserService.Holder | backend/src/controllers/userController.js:367-373 | the first user holding the token, expired or not, or none |
| UserService.SignedHolder | backend/src/controllers/userController.js:335-341 | a signed refresh token sits only in its owner's slot |
| UserService.UserStore.constructor | backend/src/services/userService.js:5 | the empty collection is consistent |
| UserService.UserStore.CreateUser | backend/src/services/userService.js:5-28 | a document that builds with a fresh trimmed email is appended and returned without its password; a schema failure or a duplicate email changes nothing and reports the matching message |
| UserService.UserStore.UpdateUser | backend/src/services/userService.js:41-56 | an invalid update, an unknown id or a clashing email change nothing; otherwise only that user is replaced by the updated document, password kept |
| UserService.UserStore.UpdateUserPassword | backend/src/services/userService.js:59-84 | an unknown id or a wrong current password change nothing; otherwise only that user's hash becomes the hash of the new password |
| UserService.UserStore.UpdateLastLogin | backend/src/services/userService.js:96-98 | only `lastLogin` of that user becomes now; an unknown id changes nothing |
| UserService.UserStore.DeactivateUser | backend/src/services/userService.js:106-118 | only `isActive` changes, to false, or "User not found" with nothing changed |
| UserService.UserStore.SetSlot | backend/src/controllers/userController.js:124-126 | assigns that user's refresh token and expiry and changes nothing else |
| UserController.Register | backend/src/controllers/userController.js:16-72 | a missing field is 400, an email whose trimmed form is stored 409, a failed creation 500, all changing nothing; otherwise 201, and the stored slot holds the returned refresh token with expiry now + 24 h |
| UserController.LoginCheck | backend/src/controllers/userController.js:78-111 | success yields a stored user whose email is the trimmed argument; every failure is 400 or 401 |
| UserController.LoginOutcomes | backend/src/controllers/userController.js:88-111 | login succeeds exactly for an active user with that (trimmed) email and password; an unknown email and a wrong password get the same 401; "Account is deactivated" comes exactly for an inactive user, whatever the password |
| UserController.Login | backend/src/controllers/userController.js:75-144 | on success `lastLogin` is now and the slot holds the returned refresh token with expiry now + 24 h, and the reply's user is the document before both writes; on failure nothing changes |
| UserController.GetProfile | backend/src/controllers/userController.js:147-171 | 200 with the user's profile exactly when the id exists, otherwise 404 |
| UserController.SafeProfileUpdate | backend/src/controllers/userController.js:180-181 | the body without `password` and `email`, every other field kept |
| UserController.UpdateProfile | backend/src/controllers/userController.js:174-204 | the stored email and password never change; the user is updated by the other fields; a failed update answers with its status and changes nothing |
| UserController.UpdatePassword | backend/src/controllers/userController.js:207-259 | missing fields 400, a new password under 6 characters 400, an unknown id 404, a wrong current password 400; only on 200 does that user's hash change, to the new password's |
| UserController.DeactivateAccount | backend/src/controllers/userController.js:262-292 | the user ends inactive with an empty slot, nothing else changes; an unknown id answers 404 |
| UserController.RefreshToken | backend/src/controllers/userController.js:295-358 | no token is 401; no unexpired holder is 401; a token that does not verify empties that holder's slot with 401; otherwise the slot holds the new refresh token for that user, expiring in 24 h |
| UserController.RefreshRotates | backend/src/controllers/userController.js:335-341 | after a successful refresh, no user holds the old token, when the new token differs from it |
| UserController.SameSecondRefresh | backend/src/controllers/userController.js:335-338 | a refresh within the second of issue signs the very same token again |
| UserController.RefreshExpiryGap | backend/src/controllers/userController.js:324-326 | a refresh token verifies exactly until the start of the second of its stored expiry, which is that much earlier than the stored value |
| UserController.Logout | backend/src/controllers/userController.js:361-387 | the reply is always 200; the first holder of the given token has its slot emptied; otherwise nothing changes |
| UserController.LogoutRevokes | backend/src/controllers/userController.js:365-379 | after logout with a signed token, no user holds it, and every other slot is as it was |
| AuthMiddleware.BearerToken | backend/src/middleware/auth.js:9-10 | the token is the second space-separated word of the header, when present and non-empty |
| AuthMiddleware.Authenticate | backend/src/middleware/auth.js:7-47 | no token is 401 "Access token is required"; every failure is 401 with one of the three messages; success carries exactly the id, email and names of an existing active user |
| AuthMiddleware.AuthenticateMeaning | backend/src/middleware/auth.js:19-37 | a request is admitted exactly for a token signed with the key, unexpired, whose id names an active user; a refresh token admits just like an access token |
| AuthMiddleware.AuthenticateToken | backend/src/middleware/auth.js:7-47 | on success `req.user` is set to the identity and the handler runs; otherwise the 401 reply is sent and `req.user` is untouched |
| Jwt.Verify | backend/src/utils/jwt.js:46-52 | a token verifies exactly when it is signed with the key and unexpired; every failure has the single message "Invalid or expired token" |
| Jwt.SignVerify | backend/src/utils/jwt.js:22-52 | a signed token verifies under its key to its payload until its lifetime runs out, never under another key, and unsigned text never verifies |
| Jwt.SignInjective | backend/src/utils/jwt.js:22-27 | two signings give the same token exactly when payloads and issue seconds agree |
| Jwt.TokenService.constructor | backend/src/utils/jwt.js:3-15 | the lifetimes default to 3600 s and 86400 s and no warning has been written |
| Jwt.TokenService.GetSecret | backend/src/utils/jwt.js:3-15 | returns `JWT_SECRET` when set, the fallback constant otherwise; the warning is written at most once, only for the fallback |
| Jwt.TokenService.GenerateAuthTokens | backend/src/utils/jwt.js:59-71 | the access payload is exactly id, email and names; the refresh payload is exactly the id; both signed with the configured key and lifetime |
| Jwt.TokenService.VerifyToken | backend/src/utils/jwt.js:46-52 | verifies with the configured key |
| AuthSlice.AuthState.constructor | frontend/src/store/slices/authSlice.js:38-49 | tokens from storage, authenticated exactly when the stored access token is truthy, no user, not initialized |
| AuthSlice.AuthState.SaveTokens | frontend/src/store/slices/authSlice.js:19-26 | only truthy tokens are written; a falsy one leaves its entry as it was |
| AuthSlice.AuthState.ClearTokens | frontend/src/store/slices/authSlice.js:29-36 | both entries are removed, nothing else changes |
| AuthSlice.AuthState.SetLoading | frontend/src/store/slices/authSlice.js:56-58 | only `isLoading` changes |
| AuthSlice.AuthState.SetInitialized | frontend/src/store/slices/authSlice.js:61-63 | only `isInitialized` changes |
| AuthSlice.AuthState.LoginSuccess | frontend/src/store/slices/authSlice.js:66-77 | user and both tokens from the payload, authenticated, no error, not loading, and the truthy tokens saved |
| AuthSlice.AuthState.RegisterSuccess | frontend/src/store/slices/authSlice.js:93-104 | the same transition as login success |
| AuthSlice.AuthState.EndSession | frontend/src/store/slices/authSlice.js:120-130 | no user, no tokens, not authenticated, not loading, storage emptied, the given error |
| AuthSlice.AuthState.LoginFailure | frontend/src/store/slices/authSlice.js:80-90 | the session ends with the payload as error |
| AuthSlice.AuthState.RegisterFailure | frontend/src/store/slices/authSlice.js:107-117 | the session ends with the payload as error |
| AuthSlice.AuthState.Logout | frontend/src/store/slices/authSlice.js:120-130 | the session ends with no error |
| AuthSlice.AuthState.ClearError | frontend/src/store/slices/authSlice.js:133-135 | only `error` changes, to null |
| AuthSlice.AuthState.UpdateUserProfile | frontend/src/store/slices/authSlice.js:138-142 | with no user nothing changes; otherwise the payload's fields overlay the user's and the others are kept |
| AuthSlice.AuthState.RefreshTokenSuccess | frontend/src/store/slices/authSlice.js:145-154 | the access token is replaced; the refresh token only by a truthy one; both saved; user and `isAuthenticated` unchanged |
| AuthSlice.AuthState.RefreshTokenFailure | frontend/src/store/slices/authSlice.js:157-166 | the session ends with "Session expired. Please login again." and `isLoading` unchanged |
| TokenUtils.DecodeToken | frontend/src/utils/tokenUtils.js:10-24 | null for a falsy token or one without exactly three dot-separated parts, otherwise the decoded middle part |
| TokenUtils.DecodeShape | frontend/src/utils/tokenUtils.js:14-17 | a token that decodes has exactly two dots, and the decoded part holds none |
| TokenUtils.Exp | frontend/src/utils/tokenUtils.js:34-35 | the `exp` of a decodable payload when it is truthy |
| TokenUtils.IsTokenExpired | frontend/src/utils/tokenUtils.js:32-41 | expired when there is no `exp`, otherwise exactly when `now >= exp - buffer` |
| TokenUtils.GetTokenExpiration | frontend/src/utils/tokenUtils.js:48-53 | `exp * 1000` ms, or null without `exp` |
| TokenUtils.GetTimeUntilExpiration | frontend/src/utils/tokenUtils.js:60-68 | `max(0, exp - now)` in whole seconds, or 0 without `exp`; never negative |
| TokenUtils.ExpiredIffLittleTimeLeft | frontend/src/utils/tokenUtils.js:32-68 | for a non-negative buffer, expired exactly when at most that many seconds are left |
| TokenUtils.RefreshWindow | frontend/src/utils/tokenUtils.js:76-81 | due for refresh exactly when not expired yet but inside the threshold; an expired token is never due |
| TokenUtils.DefaultsOverlap | frontend/src/utils/tokenUtils.js:32-81 | under the defaults, a token with 1 to 60 s left is both expired and due for refresh |
| Categories.GetAllCategories | frontend/src/constants/categories.js:28-30 | income followed by expense, 19 entries |
| Categories.GetCategoriesByType | frontend/src/constants/categories.js:33-40 | the 7 income entries for "income", the 12 expense entries for "expense", and [] otherwise |
| Categories.FindById | frontend/src/constants/categories.js:43-46 | an entry with that id from the list, or none when no entry has it |
| Categories.GetCategoryById | frontend/src/constants/categories.js:43-46 | an entry of the full table with that id, or none when none has it |
| Categories.GetCategoryName | frontend/src/constants/categories.js:49-52 | the name of a known id, the id itself otherwise |
| Categories.GetCategoryColor | frontend/src/constants/categories.js:55-58 | the color of a known id, "#757575" otherwise |
| Categories.AllIdsUnique | frontend/src/constants/categories.js:2-25 | no id appears twice across both tables |
| Categories.FindEntry | frontend/src/constants/categories.js:43-46 | with unique ids, looking an entry up by its id finds that very entry |
| Categories.ByTypeFoundById | frontend/src/constants/categories.js:33-58 | every entry offered for a type is found by its id, with its own name and color |
| Routes.FindDefault | frontend/src/config/routes.js:80 | the first route flagged default, or none when none is |
| Routes.FindPath | frontend/src/config/routes.js:87 | a route with that path, or none when no route has it |
| Routes.GetDefaultRoute | frontend/src/config/routes.js:78-84 | "/dashboard" when signed in, "/login" otherwise |
| Routes.GetRouteTitle | frontend/src/config/routes.js:94-98 | the configured title of a known path, "Finance Tracker" otherwise |
| Routes.PublicPaths | frontend/src/config/routes.js:86-88 | a path is public exactly when it is one of the four sign-in pages |
| Routes.ProtectedPaths | frontend/src/config/routes.js:90-92 | a path is protected exactly when it is the dashboard, transactions, profile or settings page |
| Routes.AccessClasses | frontend/src/config/routes.js:26-92 | no path is both public and protected |
| Routes.UnlistedPaths | frontend/src/config/routes.js:7-23 | "/" and "/404" are neither public nor protected |
| Routes.Titles | frontend/src/config/routes.js:94-98 | listed pages get their own titles, and unlisted paths get "Finance Tracker" |
| TransactionsApi.Sent | frontend/src/store/api/transactionsApi.js:23-27 | a conditional parameter is sent exactly when truthy, with its value |
| TransactionsApi.GetTransactionsParamsMeaning | frontend/src/store/api/transactionsApi.js:8-30 | page, limit, sortBy and sortOrder are always sent, defaulting to 1, 10, "date", "desc"; each filter is sent exactly when truthy, with its value |
| TransactionsApi.RecentIsFirstPage | frontend/src/store/api/transactionsApi.js:107-122 | the recent list asks for page 1 with limit 5 unless given, sorted by date descending, no filters |
| TransactionsApi.GetFinancialSummaryParams | frontend/src/store/api/transactionsApi.js:91-98 | only the truthy dates, never a type |
| TransactionsApi.GetCategoryBreakdownParams | frontend/src/store/api/transactionsApi.js:154-162 | only the truthy dates and type; the dates as the summary sends them |
| TransactionsApi.GetSpendingTrendsParams | frontend/src/store/api/transactionsApi.js:171-179 | period "monthly" and months 6 unless given |
| TransactionsApi.GetMonthlySummaryParams | frontend/src/store/api/transactionsApi.js:187-194 | months 6 unless given, the same default as the trends request |
| TransactionsApi.TransformListResponse | frontend/src/store/api/transactionsApi.js:33-36 | transactions default to [] and pagination to {} |
| TransactionsApi.TransformDataList | frontend/src/store/api/transactionsApi.js:118 | the list when the reply has one, [] otherwise |
| TransactionsApi.TransformItemResponse | frontend/src/store/api/transactionsApi.js:46 | the payload when there is one, the whole reply otherwise |
| TransactionsApi.TransformErrorResponse | frontend/src/store/api/transactionsApi.js:37-39 | the server's message when non-empty, the fallback otherwise; never empty with a non-empty fallback |
| PasswordRules.Score | frontend/src/pages/Settings.jsx:92-100 | the number of checks passed is at most 5; 5 exactly when all pass, 0 exactly when none do |
| PasswordRules.GetPasswordStrength | frontend/src/pages/Settings.jsx:88-106 | an empty password scores 0 with no label; otherwise the score is the number of checks passed |
| PasswordRules.StrengthLabels | frontend/src/pages/Settings.jsx:102-105 | Weak exactly below 2, Fair exactly for 2 and 3, Good exactly for 4, Strong exactly for 5 |
| PasswordRules.StrongMeansAllChecks | frontend/src/pages/Settings.jsx:92-105 | a password is Strong exactly when it passes all five checks, and a Strong one passes the form's length rule |
| PasswordRules.ShortPasswordAtBestGood | frontend/src/pages/Settings.jsx:93 | under 8 characters the score is at most 4, never Strong |
| PasswordRules.LowercaseOnlyIsFair | frontend/src/pages/Settings.jsx:92-103 | eight or more lowercase letters score exactly 2: Fair |
| PasswordRules.CurrentPasswordError | frontend/src/pages/Settings.jsx:136-138 | an error exactly for an empty field |
| PasswordRules.NewPasswordError | frontend/src/pages/Settings.jsx:166-172 | empty is "required", 1 to 5 characters is "too short", 6 or more passes |
| PasswordRules.ConfirmPasswordError | frontend/src/pages/Settings.jsx:226-229 | passes exactly when non-empty and equal to the new password |
| PasswordRules.FormAccepts | frontend/src/pages/Settings.jsx:136-229 | a form that passes all three fields confirms a new password of six or more characters |

## Left out

- Database engine and failures: `find`, `aggregate` and the update helpers are sequence operations. Connection failures, `CastError`s for malformed ObjectIds and other database errors are not modelled, so the generic 500 replies appear only where a modelled failure leads to them.
- Secondary reads: `findUserById` and `getActiveUsers` in `backend/src/services/userService.js` are not modelled, since no handler in the core calls them.
- Search: `$regex` with option `i` is modelled as an ASCII case-insensitive substring test. A search string with regular-expression metacharacters, or non-ASCII letters, behaves differently in the source.
- Query operators in request fields: request values are modelled as plain strings and numbers. Objects such as `{ "$ne": … }` passed as filter values are not modelled.
- Sort ties: `$sort` is modelled as a stable insertion sort. MongoDB does not fix the order of equal keys, so the model's tie order is one of the orders MongoDB may return.
- Sort fields: only `date` and `amount` are modelled as sort keys. Any other `sortBy` leaves store order.
- Calendar window: the start of the trends and monthly window (`setMonth(getMonth() - months)` on the local clock) is a parameter. Only the UTC `$year`/`$month` grouping of documents inside it is modelled. The `period` option is read but never used by the source.
- Monthly transactions: `getMonthlyTransactions` in `frontend/src/store/api/transactionsApi.js` computes a date range with local-time `Date` arithmetic, which the model does not represent.
- Optional fields: `tags` and `notes` of a transaction, and `createdAt`/`updatedAt` timestamps, are dropped; the strict schema ignores the first two.
- String lengths: JavaScript's `.length` and the schema's `maxlength`/`minlength` count UTF-16 code units, while the model counts characters. A string with characters outside the Basic Multilingual Plane (emoji, say) is longer in the source: `TransactionModel.ValidDescription` and `TransactionModel.ValidCategory`, `UserModel.ValidName`, `PasswordRules.LongEnough` and the six-character check of `UserController.UpdatePassword` all admit such strings that the source rejects near the limit.
- List paging: the list handler reads `page` and `limit` with `parseInt`, which gives `NaN` for a non-numeric value. `TransactionController.ListQuery` holds integers only, so the model does not express a `NaN` page or limit or what the query does with it.
- Query casting: of the casts Mongoose applies to query filters, only the `trim` setter on `email` is modelled.
- Floating point: amounts are `real`, so sums are exact and every value is finite. The schema's `Number.isFinite` test always holds here.
- Hashing: bcrypt is an opaque injective function with a 60-character result. Its 72-byte password limit and salting cost are not modelled.
- JWT: signing and verification are opaque. Base64url and JSON decoding in the browser is a parameter (`parse`) that yields `None` where the browser would throw.
- Time: the clock is a millisecond parameter. Token times are whole seconds, as the library computes them.
- Local storage: exceptions from local storage are not modelled, so reads, writes and removals always succeed.
- JavaScript defaults: destructuring defaults apply to `undefined` only. A `null` argument is modelled like a missing one where the source tests for truthiness, and is not modelled where it would take the value `null`.
- URL encoding: the order of query parameters in a request URL and their encoding are not modelled.
- Concurrency: each handler is one atomic step. Races between concurrent refreshes or updates are not modelled.
- UserController.RefreshRotates: proves rotation only when the new token differs from the presented one; `UserController.SameSecondRefresh` shows the case where it does not.
- UserController.UpdateProfile: the invariant that every refresh slot holds its owner's token is preserved only for bodies without `refreshToken`, because the source lets the body set that field.
- UserController.Register: replies for the register and login paths carry the user as the model's `PublicUser`. The `lastLogin` and slot fields shown are those read before the handler's writes, as in the source.
- AuthSlice.AuthState.LoginSuccess: a falsy token in the payload is stored in the state but leaves the previous entry in local storage, as the save guard in the source does.
