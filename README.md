# GranaFlow web client: a verified model of its state logic

GranaFlow is a personal-finance web app. Its Vue client keeps the session in the
browser's storage, exchanges a refresh token for a new token pair before every
authenticated call, and tracks whether the user is logged in. It also loads wallets
and transactions into stores, computes a balance, groups transactions by month,
filters them by type, creates single and recurring transactions, builds toast
messages, and formats dates the Brazilian way.

This project models that logic in Dafny and proves properties of it. Each part keeps
the form of its source:

- **Stateful parts are classes.** The session storage, the HTTP client's
  `Authorization` header, the router location, the auth store, the transactions store
  and the view state of the wallets, dashboard, payments, create and reports screens
  are classes. Their methods update fields in place. Each method's `ensures` ties the
  new state to a specification function of the old state.
- **Pure transforms are functions with lemmas.** This covers the balance fold, the
  month grouping, the type filter, the toast defaults, the year list, the route guard
  and the date formatter.

Every remote request is an input to the model: a `Response` that is either `Ok(data)`
or `Err(failure)`, where the failure carries the HTTP status when there is one. The
answer to a confirmation dialog is a boolean parameter. So are the current year,
today's date, the date parsing of `new Date(...)` and the month-name table.

| module | file | source |
|---|---|---|
| `Types` | types.dfy | `Transaction`, `T \| null`, request outcomes |
| `JsBuiltins` | js_builtins.dfy | `parseInt`, `split`, `filter`, `${n}`, string `<` |
| `Session` | session.dfy | src/stores/localStoragePersistence.ts |
| `Routing` | routing.dfy | src/router/index.ts |
| `Api` | api.dfy | src/composables/useApi.ts, src/api/config.ts |
| `Auth` | auth.dfy | src/stores/auth.ts |
| `Transactions` | transactions.dfy | src/stores/transactions.ts |
| `Wallets` | wallets.dfy | src/composables/useWallets.ts |
| `Dashboard` | dashboard.dfy | src/composables/useDashboard.ts |
| `Payments` | payments.dfy | src/composables/usePayments.ts |
| `CreateTransaction` | create_transaction.dfy | src/composables/useCreateTransaction.ts |
| `FormatDate` | format_date.dfy | src/utils/formatDate.ts |
| `Toast` | toast.dfy | src/composables/useCustomToast.ts |
| `Reports` | reports.dfy | src/composables/useReports.ts |

### Behaviour modelled as the code has it

The model follows the code in the places where it departs from what the app evidently
intends:

- **`deleteAll` keeps the premium flag.** So a profile can be read back only after a
  refresh has stored that flag again.
- **`validateAuth` with a usable client but no stored profile** returns and leaves the
  auth state as it was.
- **The wallet-id guard of `fetchTransactions` tests the ref object.** That object is
  always truthy, so a fetch with no wallet selected still goes out.
- **The recurrence guard compares two `Ref` objects.** Both convert to
  `"[object Object]"`, so the guard never fires.
- **The name/amount check only raises an alert.** Creation goes on regardless.
- **The recurrent path does not refetch.** It only names `refetchTransactions` and never
  calls it.

## Model

| member | source | states |
|---|---|---|
| Session.ProfileOf | src/stores/localStoragePersistence.ts:27-43 | a profile is read exactly when id, email, name, photo and premium flag are all stored non-empty; its fields are the stored strings and `is_premium` holds iff the stored flag is exactly "true" |
| Session.PremiumOf | src/stores/localStoragePersistence.ts:86-97 | the premium flag is null iff absent or empty, and true iff it is exactly "true" |
| Session.ProfileAfterSetUserProfile | src/stores/localStoragePersistence.ts:20-43 | after `setUserProfile(p)` the profile reads back as `p` with the previously stored premium flag, and reads back at all only if `p`'s fields are non-empty and a premium flag was already stored |
| Session.NoProfileWithoutPremium | src/stores/localStoragePersistence.ts:20-43 | with no premium flag stored, `setUserProfile` then `getUserProfile` gives null whatever was written |
| Session.DeleteAllForgetsProfile | src/stores/localStoragePersistence.ts:45-56 | after `deleteAll` no profile can be read and the premium flag decodes as before |
| Session.SessionStore.SetUserProfile | src/stores/localStoragePersistence.ts:20-25 | writes the four identity keys and leaves the premium key as it was |
| Session.SessionStore.GetUserProfile | src/stores/localStoragePersistence.ts:27-43 | returns the profile the storage holds, all of its strings non-empty |
| Session.SessionStore.DeleteAll | src/stores/localStoragePersistence.ts:45-51 | removes both tokens and the four identity keys, and leaves the premium key as it was |
| Session.SessionStore.ClearTokens | src/stores/localStoragePersistence.ts:53-56 | removes exactly the access and refresh tokens |
| Session.SessionStore.SetJWT | src/stores/localStoragePersistence.ts:58-60 | stores the access token under its key and changes no other key, so `getJWT` returns it |
| Session.SessionStore.GetJWT | src/stores/localStoragePersistence.ts:62-64 | returns the stored access token, null when absent |
| Session.SessionStore.SetRefreshJWT | src/stores/localStoragePersistence.ts:66-68 | stores the refresh token under its key and changes no other key |
| Session.SessionStore.GetRefreshJWT | src/stores/localStoragePersistence.ts:70-72 | returns the stored refresh token, null when absent |
| Session.SessionStore.SetUserId | src/stores/localStoragePersistence.ts:74-76 | stores the user id under its key and changes no other key |
| Session.SessionStore.GetUserId | src/stores/localStoragePersistence.ts:78-80 | returns the stored user id, null when absent |
| Session.SessionStore.SetIsPremium | src/stores/localStoragePersistence.ts:82-84 | stores the premium string under its key and changes no other key |
| Session.SessionStore.GetIsPremium | src/stores/localStoragePersistence.ts:86-97 | null when the flag is absent or empty, true for "true", false for any other non-empty string |
| Routing.BeforeEach | src/router/index.ts:25-33 | the callback path and routes without `requiresAuth` are never redirected; a protected route redirects to "/" iff `authenticated` is not true, null included |
| Routing.NoFlagNoAuth | src/router/index.ts:6-22 | a route table in which no route sets `requiresAuth` protects no path |
| Routing.GuardPassesEveryPath | src/router/index.ts:6-33 | with the declared routes the guard lets every navigation through, whatever the auth state |
| Api.Bearer | src/api/config.ts:9-11 | the header is "Bearer " followed by exactly the token |
| Api.BoolString | src/composables/useApi.ts:20 | the stored premium string is "true" exactly for true and is never empty |
| Api.StoreAfterRefresh | src/composables/useApi.ts:6-43 | without a refresh token or on a 401 the storage loses both tokens and the identity keys; on success it holds the new token pair and premium flag and nothing else changes; on any other failure it is unchanged |
| Api.HeaderAfterRefresh | src/composables/useApi.ts:6-29 | without a refresh token the header is untouched; on success it is "Bearer " + the new token; on failure it stays "Bearer " + the refresh token |
| Api.RouteAfterRefresh | src/composables/useApi.ts:6-43 | the router goes to "/" exactly when the session is given up (no refresh token, or a 401) |
| Api.RejectedSessionIsLoggedOut | src/composables/useApi.ts:31-43 | a given-up session leaves no token and no readable profile, and keeps the premium flag |
| Api.ProfileAfterRefresh | src/composables/useApi.ts:15-24 | after a successful refresh the premium flag decodes to the server's value, and a profile is readable iff the four identity keys are stored non-empty |
| Api.ApiClient.SetTokenAuth | src/api/config.ts:9-11 | the default `Authorization` header becomes "Bearer " + token |
| Api.HandleInvalidSession | src/composables/useApi.ts:31-34 | runs `deleteAll` and navigates to "/" |
| Api.HandleRefreshError | src/composables/useApi.ts:36-43 | a 401 runs `deleteAll` and navigates to "/"; any other error changes neither storage nor route |
| Api.UseApi | src/composables/useApi.ts:6-29 | returns a client iff a non-empty refresh token is stored and the refresh succeeds; storage, header and route end as the three functions above say |
| Auth.StateAfterValidation | src/stores/auth.ts:31-53 | no usable client gives `{false, null}`; a usable client without a stored profile keeps the state; with a profile it gives `{true, profile id}` |
| Auth.PathAfterValidation | src/stores/auth.ts:31-53 | an authenticating validation ends on "/wallets", any other on the route `useAPI` left |
| Auth.ValidationKeepsConsistent | src/stores/auth.ts:31-53 | validation keeps "a non-empty user id is held iff authenticated is true", and a newly authenticated state names the stored user beside the fresh token |
| Auth.ValidationAuthenticates | src/stores/auth.ts:31-53 | from the initial state, validation authenticates iff the refresh succeeds and the four identity keys are stored non-empty, with the stored user id |
| Auth.AuthStore.constructor | src/stores/auth.ts:9-13 | starts as `{authenticated: null, user_id: null}`, not loading |
| Auth.AuthStore.OnLogin | src/stores/auth.ts:16-19 | sets the loading flag and leaves the auth state |
| Auth.AuthStore.OnLogout | src/stores/auth.ts:21-29 | a declined logout changes nothing; a confirmed one runs `deleteAll`, sets `{false, null}` and navigates to "/" |
| Auth.AuthStore.ValidateAuth | src/stores/auth.ts:31-53 | the loading flag ends false on every path; state, storage, header and route end as the specification functions say |
| Auth.AuthStore.GetUserProfile | src/stores/auth.ts:55-57 | returns the profile the storage holds |
| Transactions.FetchError | src/stores/transactions.ts:18-42 | the fetch raises the until-today failure, else the after-today failure, and raises nothing iff both succeed |
| Transactions.TransactionStore.constructor | src/stores/transactions.ts:7-10 | both lists empty, not loading, no wallet id |
| Transactions.TransactionStore.FetchTransactions | src/stores/transactions.ts:12-46 | without a client nothing changes, even with no wallet id set; otherwise loading ends false, both lists are replaced on success and both kept on any failure, which is re-raised |
| Transactions.TransactionStore.SetWalletToProvider | src/stores/transactions.ts:48-50 | sets the wallet id and nothing else |
| Transactions.TransactionStore.RefetchTransactions | src/stores/transactions.ts:52-54 | runs the same fetch with its error discarded |
| Wallets.WalletsAfterLoad | src/composables/useWallets.ts:17-30 | success replaces the list, a 404 empties it, any other failure or a missing client keeps it |
| Wallets.WalletsView.constructor | src/composables/useWallets.ts:8-9 | no wallets, not loading |
| Wallets.WalletsView.LoadWallets | src/composables/useWallets.ts:11-34 | without a stored access token nothing changes; otherwise the list ends as `WalletsAfterLoad` says and the loading flag ends false, the early return included |
| Dashboard.BalanceIsIncomeMinusOutcome | src/composables/useDashboard.ts:15-26 | the balance fold equals the INCOME total minus the OUTCOME total, other types not counting, and is 0 for no transactions |
| Dashboard.SumOfKindPermutation | src/composables/useDashboard.ts:15-26 | a type total does not depend on the order of the transactions |
| Dashboard.BalanceIsOrderIndependent | src/composables/useDashboard.ts:15-26 | the balance of a reordering of the transactions is the same balance |
| Dashboard.BalanceView.CalculateCurrentBalance | src/composables/useDashboard.ts:15-29 | stores the fold's result, the INCOME total minus the OUTCOME total |
| Dashboard.LabelSplits | src/composables/useDashboard.ts:33-36 | a label splits at its blank into the month name and the year, "undefined" and "NaN" for an Invalid Date |
| Dashboard.LabelsSeparateYears | src/composables/useDashboard.ts:33-36 | two transactions share a label only if both dates are invalid or both are valid and of the same year, whatever the month names, provided they contain no blank |
| Dashboard.GroupsOfKeys | src/composables/useDashboard.ts:31-45 | the keys are exactly the labels of the inputs, each listed once in first-seen order |
| Dashboard.GroupsOfValues | src/composables/useDashboard.ts:31-45 | each group is the order-preserving selection of the inputs carrying its label |
| Dashboard.MembersCarryLabel | src/composables/useDashboard.ts:38-42 | every member of a group carries that group's label |
| Dashboard.InExactlyOneGroup | src/composables/useDashboard.ts:31-45 | every transaction lands in the group of its own label and in no other |
| Dashboard.GroupsAreOrderedAndNonEmpty | src/composables/useDashboard.ts:38-42 | no group is empty and each keeps the input order |
| Dashboard.FlattenIsPermutation | src/composables/useDashboard.ts:31-45 | the groups, concatenated in key order, are a permutation of the input |
| Dashboard.GroupSizesAddUp | src/composables/useDashboard.ts:31-45 | the group sizes add up to the input length |
| Dashboard.GroupingIsIdempotent | src/composables/useDashboard.ts:31-45 | grouping the concatenated groups again gives the same groups |
| Dashboard.GroupTransactionsByMonth | src/composables/useDashboard.ts:31-45 | the loop builds the grouping, each label's list being the inputs with that label in order |
| Payments.MethodValue | src/composables/usePayments.ts:6-11 | only ALL is "" and only FUTURE is "FUTURE" |
| Payments.Selection | src/composables/usePayments.ts:23-34 | ALL selects the store's own list, FUTURE the future list, a type every and only the argument's transactions of that type |
| Payments.TypeSelectionIsExact | src/composables/usePayments.ts:31 | a type selection keeps the input order and holds each transaction of that type as often as the input does, and nothing else |
| Payments.IncomeAndOutcomeAreDisjoint | src/composables/usePayments.ts:31 | the INCOME and OUTCOME selections share no transaction and together are no longer than the input |
| Payments.PaymentsView.constructor | src/composables/usePayments.ts:16-17 | the method starts as ALL and the selection as the store's transactions |
| Payments.PaymentsView.HandlePaymentsMethods | src/composables/usePayments.ts:19-21 | sets the method and nothing else |
| Payments.PaymentsView.FilterTransactionsByType | src/composables/usePayments.ts:23-34 | sets the selection to `Selection` of the current method and nothing else |
| CreateTransaction.FormatDateToApi | src/composables/useCreateTransaction.ts:26-28 | the date followed by exactly "T00:00:00.000Z" |
| CreateTransaction.DatePartOfApiDate | src/composables/useCreateTransaction.ts:22-28 | splitting an API date at "T" and taking the first piece, as `formatDateToRef` does, gives back the date |
| CreateTransaction.RecurrenceGuardNeverFires | src/composables/useCreateTransaction.ts:74-77 | the guard compares two objects' string forms, and it never rejects |
| CreateTransaction.TransactionForm.constructor | src/composables/useCreateTransaction.ts:10-20 | empty name, description and amount, type INCOME, subtype FOOD, single, all three dates today, no proof URL |
| CreateTransaction.TransactionForm.SinglePayload | src/composables/useCreateTransaction.ts:49-58 | a single payload with the form's proof URL, the API form of its date, and the wallet id as `parseInt` without a radix reads it |
| CreateTransaction.TransactionForm.RecurrentPayload | src/composables/useCreateTransaction.ts:80-90 | a recurrent payload with both dates in API form, never a proof URL, and the wallet id as `parseInt` without a radix reads it |
| CreateTransaction.TransactionForm.HandleGetProofUrl | src/composables/useCreateTransaction.ts:109-111 | sets the proof URL |
| CreateTransaction.TransactionForm.CreateSingleTransaction | src/composables/useCreateTransaction.ts:46-71 | posts the single payload, refetches iff the post succeeded, and ends not creating |
| CreateTransaction.TransactionForm.CreateRecurrentTransaction | src/composables/useCreateTransaction.ts:73-107 | always posts the recurrent payload, never refetches, and ends not creating |
| CreateTransaction.TransactionForm.HandleCreateTransaction | src/composables/useCreateTransaction.ts:30-44 | warns iff the name is under 3 characters or the amount is empty, yet goes on; without a client nothing is posted and the flag is untouched; otherwise exactly one of the two paths runs, chosen by `isRecurring` |
| FormatDate.Pad2 | src/utils/formatDate.ts:18-23 | two digits that read back as the number |
| FormatDate.FormatarDataBr | src/utils/formatDate.ts:1-27 | null or "" gives ""; anything but three `-`-pieces, or a piece without leading digits, gives the input back; a calendar date gives DD/MM/YYYY |
| FormatDate.IsoDateIsShownBrazilian | src/utils/formatDate.ts:1-27 | a `YYYY-MM-DD` calendar date is shown as its DD/MM/YYYY form |
| FormatDate.BrDateReadsBack | src/utils/formatDate.ts:18-23 | the DD/MM/YYYY form splits at "/" into three pieces that parse back to day, month and year |
| FormatDate.BrDateInjective | src/utils/formatDate.ts:18-23 | different calendar dates are shown differently |
| Toast.GetDefaultTitle | src/composables/useCustomToast.ts:62-69 | success→"Sucesso", error→"Erro", warn→"Atenção", info or none→"Informação", each iff |
| Toast.ShowToast | src/composables/useCustomToast.ts:16-27 | a string gives only `{detail}`; options give the title or the default title of the severity, the duration unless 0 or absent (then 3000), and the severity or info |
| Toast.OptionsAreCompleted | src/composables/useCustomToast.ts:19-24 | a toast built from options always has a non-empty summary, a non-zero life and a severity |
| Toast.DefaultingIsIdempotent | src/composables/useCustomToast.ts:19-24 | feeding a built configuration back as options reproduces it |
| Toast.ShowSuccess | src/composables/useCustomToast.ts:29-35 | severity success, life 3000, title the given one or "Sucesso" |
| Toast.ShowError | src/composables/useCustomToast.ts:37-44 | severity error, life 5000, title the given one or "Erro" |
| Toast.ShowWarning | src/composables/useCustomToast.ts:46-52 | severity warn, life 3000, title the given one or "Atenção" |
| Toast.ShowInfo | src/composables/useCustomToast.ts:54-60 | severity info, life 3000, title the given one or "Informação" |
| Toast.HelpersAgreeWithShowToast | src/composables/useCustomToast.ts:29-69 | each helper equals `showToast` with the title left to default, because its fallback title is `getDefaultTitle` of its severity |
| Reports.AvailableYears | src/composables/useReports.ts:7 | six years descending by one from next year to four years back, this year included |
| Reports.AvailableYearsWindow | src/composables/useReports.ts:7 | a year is offered iff it lies between four years back and next year |
| Reports.ReportsView.constructor | src/composables/useReports.ts:6-9 | the selected year starts as the current year, the report empty |
| Reports.ReportsView.HandleSelectYear | src/composables/useReports.ts:25-27 | sets the selected year |
| Reports.ReportsView.GetReports | src/composables/useReports.ts:11-23 | requests the selected year iff a client is obtained; the report is replaced only on success and kept otherwise |
| JsBuiltins.ParseInt | src/utils/formatDate.ts:8-10 | NaN exactly when no digit follows the optional blanks and sign |
| JsBuiltins.ParseIntNoRadix | src/composables/useCreateTransaction.ts:57 | without a radix, a `0x`/`0X` after the sign switches to hexadecimal, NaN exactly when no hexadecimal digit follows; otherwise the same as the decimal `parseInt` |
| JsBuiltins.ParseIntNoRadixDigits | src/composables/useCreateTransaction.ts:57 | a plain decimal wallet id still reads as its decimal value without a radix |
| JsBuiltins.ParseIntNoRadixHex | src/composables/useCreateTransaction.ts:57 | "0x1f" reads as 31 without a radix but as 0 with radix 10 |
| JsBuiltins.ParseIntOfIntToString | src/composables/useDashboard.ts:36 | reading a printed integer back gives the integer |
| JsBuiltins.SplitJoin | src/utils/formatDate.ts:5 | joining the pieces restores the string, and there is one piece more than there are separators |
| JsBuiltins.Filter | src/composables/usePayments.ts:31 | the filter keeps only matching elements of the input and every matching one |
| JsBuiltins.FilterIsSubsequence | src/composables/usePayments.ts:31 | the filter keeps the order of what it keeps |
| JsBuiltins.FilterCounts | src/composables/usePayments.ts:31 | the filter keeps every copy of a matching element and none of the others |
| JsBuiltins.StringLessIrreflexive | src/composables/useCreateTransaction.ts:74 | no string is smaller than itself |

## Left out

- HTTP traffic and the axios instance are not modelled. Each request's outcome is an
  input, and only the client's default `Authorization` header is state.
- Browser side effects are left out: `alert`, `console`, `confirm` (its answer is a
  parameter) and the `window.location` redirect of `onLogin`. `router.replace` is
  recorded as `Routing.Router.path`.
- Vue reactivity and lifecycle are left out: `ref`, `watch`, `onMounted`,
  `storeToRefs` and Pinia. The initial `loadWallets()` call and the `watch` callbacks
  that re-run `filterTransactionsByType`, `calculateCurrentBalance` and `getReports`
  are therefore not modelled. Each operation is called directly.
- `refreshWallets` is only a call to `loadWallets`, so it has no member of its own.
- Overlapping asynchronous calls are not modelled. Every call runs to completion
  before the next one starts. The model does not decide which of two overlapping
  fetches wins.
- The `catch` branch of `validateAuth` is not modelled. It is reachable only through an
  exception thrown by the storage itself, and the model's storage never throws.
- The `try`/`catch` of `formatarDataBr` is not modelled. Nothing in its body throws
  for a string input.
- src/composables/useTransactionManager.ts and src/main.ts are not part of this model.
  They hold request and registration glue without state logic.
- Dashboard.BalanceView.CalculateCurrentBalance: it does not model `parseFloat`,
  floating-point rounding or NaN. Amounts are exact integers of cents.
- Dashboard.GroupTransactionsByMonth: the time-zone dependent `new Date(...)` month and
  year, and the `MONTHS` table, are parameters rather than computed. An Invalid Date is
  the parameter's `None` and gets the label "undefined NaN".
- FormatDate.FormatarDataBr: the date is computed only for calendar dates with a
  four-digit year. Out-of-range fields, which `Date.UTC` normalises, two-digit years
  and time values that are out of range go to an abstract date engine.
- CreateTransaction.TransactionForm.constructor: today's date is a parameter instead of
  `new Date().toISOString().split("T")[0]`.
- CreateTransaction.TransactionForm.HandleCreateTransaction: the create request is not
  awaited in the source, but the model finishes it before returning. The refetch it
  starts is reported as a flag rather than run.
- Transactions.TransactionStore.RefetchTransactions: the fetch is not awaited in the
  source, so its error goes unhandled. The model runs the fetch to completion and drops
  the error.
- CreateTransaction.TransactionForm.SinglePayload: `parseInt(wallet_id as string)` is
  modelled for a single route parameter. The array form of `wallet_id` is not
  modelled.
- Reports.ReportsView.constructor: the current year is a parameter instead of being
  read from the clock.
- Lengths and string order count Unicode characters, not UTF-16 code units. For text
  outside the Basic Multilingual Plane, the model's name-length check and `<` can
  therefore differ from JavaScript's.
- The error messages shown in alerts are not modelled.
