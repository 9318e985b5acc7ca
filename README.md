# Savings-and-credit dashboard: a Dafny model

This project models the client-side logic of a web dashboard for an
employees' savings-and-credit association. Five roles (admin, manager,
accountant, loan committee and customer) sign in and see their own pages.
The model covers:

- the session store and its mirror in `localStorage`;
- the route guard and the post-login redirect;
- the six data stores: transactions, customers, users, feedback, meetings
  and employees;
- the pages that read these stores: dashboards, filtered and paged lists,
  monthly charts, the report, the meeting form, the request form and the
  feedback pages.

Each store and each stateful page is a `class`. Its fields are the store's
state or the page's `useState` variables, and each handler is a `method`
whose `ensures` gives the whole new state. What a page derives from the
stores (counts, totals, filtered and sorted lists, chart series) is a
function, and lemmas prove its properties.

The network never appears directly. Every request is a parameter
`outcome: Response<T>` (the reply body, or an `HttpError` carrying the
server's status and data when there was a reply). The session token is a
parameter `Option<string>`. The clock, and the parsing of date strings
into dates, are parameters too.

Several pages share one handler. The filter, select and page handlers of
the five paged lists are modelled once in `FilterPanel`:

- the two transaction histories;
- the customer dashboard;
- the customer list;
- the employee list.

The reload effect of the three transaction lists is
`FilterPanel.RefreshTransactions`. The admin dashboard's delete dialogs
behave exactly like the user list's and are modelled once, as
`ViewUser.UserList`. The meeting card's mount effect is
`MeetingManagement.Load`. The manager's loan-duration helper is the same
function as the loan committee's, `LoanCommitteeDashboard.LoanDuration`.

Shared modules:

- `JsValues`: JavaScript values, truthiness, `trim`, the object spread.
- `Http`: responses and the `||` chains that pick an error text.
- `QueryFilters`: the stores' query cleaning.
- `RecordLists`: id-based list updates.
- `Seqs`: `filter`, counts, sums, an insertion sort.
- `Dates`: calendar arithmetic with JavaScript's month numbering from 0.
- `Ledger`: the transaction, feedback and meeting records.
- `Toasts`: the pop-up notices.

## Model

| member | source | states |
|---|---|---|
| AuthStore.LocalStorage.constructor | src/store/authStore.jsx:4-6 | the storage holds the entries it is opened on |
| AuthStore.LocalStorage.GetItem | src/store/authStore.jsx:4-6 | the stored value of a key, and nothing (`null`) exactly when the key is absent |
| AuthStore.LocalStorage.SetItem | src/store/authStore.jsx:8-10 | only that key changes, to the value |
| AuthStore.LocalStorage.RemoveItem | src/store/authStore.jsx:21-23 | only that key goes |
| AuthStore.Defined | src/store/authStore.jsx:8 | reads like the record, property for property, but holds no `undefined` value |
| AuthStore.HydratedTokenUsable | src/store/authStore.jsx:5 | the token read back counts as signed in exactly when a non-empty token is stored |
| AuthStore.Hydrate | src/store/authStore.jsx:4-6 | an empty token or role reads as `null`; a missing key reads as `null` |
| AuthStore.PersistAuth | src/store/authStore.jsx:8-10 | the user, the token and the role's text are written and every other key is kept |
| AuthStore.Forget | src/store/authStore.jsx:21-23 | the three keys are removed and every other key is kept |
| AuthStore.AuthStore.constructor | src/store/authStore.jsx:3-6 | the store starts with the session read back from storage and no balances |
| AuthStore.AuthStore.SetAuthData | src/store/authStore.jsx:7-12 | storage gets the three keys, and the store holds the user, the token and the user's role |
| AuthStore.AuthStore.SetUserProfilePicture | src/store/authStore.jsx:13-18 | the user gains the picture and keeps every other property (with no user, only the picture), and is written back to storage |
| AuthStore.AuthStore.SetBalances | src/store/authStore.jsx:19 | the balances change and the session does not |
| AuthStore.AuthStore.ClearAuthData | src/store/authStore.jsx:20-25 | the three keys are removed and the store is signed out |
| AuthStore.ReloadAfterSignIn | src/store/authStore.jsx:4-10 | after signing in, a reload finds the user without `undefined` properties, the token unless empty and the role's text unless empty |
| AuthStore.ReloadRestoresSession | src/store/authStore.jsx:4-11 | a session with a non-empty token and role and no `undefined` property survives a reload unchanged |
| AuthStore.MissingRoleReloadsAsText | src/store/authStore.jsx:10 | a user without a role reloads with the role text "undefined" |
| AuthStore.ReloadAfterSignOut | src/store/authStore.jsx:4-6 | after signing out a reload finds nobody signed in |
| AuthStore.ForgetIdempotent | src/store/authStore.jsx:20-25 | signing out twice leaves storage as signing out once |
| Routes.Guard | src/App.jsx:35-41 | no role goes to the login page, and the element is shown exactly to a role the group lists |
| Routes.GroupOf | src/App.jsx:54-101 | the one role a guarded path allows, and none for a path outside every group |
| Routes.GuardedPageShownToItsRoleOnly | src/App.jsx:54-101 | a guarded page is shown to exactly the role of its group |
| Routes.SignedOutGoesToLogin | src/App.jsx:35-41 | without a role every guarded page sends the visitor to the login page |
| Routes.PublicPagesAreOpen | src/App.jsx:48-52 | the public pages are shown to everyone |
| Login.LandingPath | src/components/reusable/Login.jsx:49-62 | every role lands on a guarded page |
| Login.LandingPageShownToItsRole | src/components/reusable/Login.jsx:49-62 | each of the five roles lands on a page it may see |
| Login.UnknownRoleTurnedAway | src/components/reusable/Login.jsx:59-61 | any other role lands on the customer home and is turned away from it |
| Login.ReloadWithoutRoleTurnedAway | src/components/reusable/Login.jsx:40 | a user signed in without a role is, after a reload, shown no guarded page |
| Login.LoginForm.constructor | src/components/reusable/Login.jsx:15-20 | empty fields, no error, not loading |
| Login.LoginForm.Submit | src/components/reusable/Login.jsx:26-66 | an empty field only sets the inline error; a success stores the session and `auth_token`, ends loading, toasts on status 200 and lands on the role's page; a failure toasts the server's message or the fallback and leaves the form busy and the session untouched |
| DashboardLoads.TokenArg | src/components/accountant/AccountantDashboard.jsx:35 | the token is passed where a filter object belongs, `null` when signed out |
| DashboardLoads.TokenBecomesFilters | src/components/accountant/AccountantDashboard.jsx:35 | the token "ab" is sent as the filters `0=a` and `1=b` rather than as no filter |
| DashboardLoads.EntriesOfAb | src/store/useTransactionStore.jsx:18-25 | the entries of the string "ab" are its two characters under their indices |
| DashboardLoads.CleanKeepsAb | src/store/useTransactionStore.jsx:18-25 | the store's rule keeps both characters |
| DashboardLoads.LoadTransactions | src/components/accountant/AccountantDashboard.jsx:34-38 | only with a token, and with the token's characters as the query; a success replaces the list |
| DashboardLoads.LoadAllTransactions | src/components/manager/ManagerDashboard.jsx:40-45 | the intended load: with a token the query is empty and a success replaces the list |
| DashboardLoads.LoadCustomers | src/components/loan-commitee/LoanCommitteeDashboard.jsx:37-42 | only with a token, and with the token's characters as the query |
| DashboardLoads.LoadTransactionsUnguarded | src/components/accountant/ViewReport.jsx:39-40 | the report loads whatever the token; signed out the `null` filters throw and the store records the error without a request |
| TransactionStore.ApplyProcessed | src/store/useTransactionStore.jsx:68-72 | the list keeps its length and ids; the transaction with the returned id is replaced by the reply and every other one stays |
| TransactionStore.ApplyProcessedIdempotent | src/store/useTransactionStore.jsx:68-72 | applying the same reply twice is the same as once |
| TransactionStore.TransactionStore.constructor | src/store/useTransactionStore.jsx:6-8 | no transactions, not loading, no error |
| TransactionStore.TransactionStore.FetchTransactions | src/store/useTransactionStore.jsx:11-44 | the query is the cleaned filters; `null` filters throw and are recorded without a request; a success replaces the list; a failure keeps it and records the server's message, the client's, or the fallback; `loading` ends false |
| TransactionStore.TransactionStore.ProcessTransaction | src/store/useTransactionStore.jsx:48-84 | a success puts the reply in place of the transaction with its id; a failure keeps the list, records the error and throws it on; `loading` ends false |
| CustomerStore.CustomerStore.constructor | src/store/useCustomerStore.jsx:6-8 | no customers, not loading, no error |
| CustomerStore.CustomerStore.FetchCustomers | src/store/useCustomerStore.jsx:11-50 | the query is the cleaned filters; a success keeps an array reply and turns anything else into an empty list; a failure keeps the list and records the error; `loading` ends false |
| CustomerStore.CustomerStore.UpdateCustomer | src/store/useCustomerStore.jsx:52-78 | without a token nothing is sent and the missing token is recorded; a success merges the data into the customers with that id; a failure keeps the list and records the error |
| CustomerStore.CustomerStore.DeleteCustomer | src/store/useCustomerStore.jsx:79-101 | sent exactly with a token; only a success removes the customers with that id; `loading` and `error` are untouched |
| UserStore.UserStore.constructor | src/store/useUserStore.jsx:6 | no users |
| UserStore.UserStore.SetUsers | src/store/useUserStore.jsx:7 | the list becomes the given one |
| UserStore.UserStore.ClearUsers | src/store/useUserStore.jsx:8 | the list becomes empty |
| UserStore.UserStore.FetchUsers | src/store/useUserStore.jsx:10-28 | sent exactly with a token; a success replaces the list and a failure keeps it |
| UserStore.UserStore.EditUser | src/store/useUserStore.jsx:30-56 | sent exactly with a token; a success merges the data into the users with that id, otherwise the list stays |
| UserStore.UserStore.DeleteUser | src/store/useUserStore.jsx:58-82 | sent exactly with a token; a success removes the users with that id, otherwise the list stays |
| FeedbackStore.FailureText | src/store/useFeedbackStore.jsx:28 | the server's message when it is truthy, otherwise the client's |
| FeedbackStore.ApplyResponse | src/store/useFeedbackStore.jsx:55-62 | the feedback with that id takes the response and every other one stays |
| FeedbackStore.ApplyResponseKeepsFeedback | src/store/useFeedbackStore.jsx:55-62 | responding changes no id, author, message or date |
| FeedbackStore.FeedbackStore.constructor | src/store/useFeedbackStore.jsx:6-8 | no feedback, not loading, no error |
| FeedbackStore.FeedbackStore.FetchFeedbacks | src/store/useFeedbackStore.jsx:11-30 | without a token nothing is sent and an error is recorded; a success replaces the list; a failure keeps it and records the error; `loading` ends false once sent |
| FeedbackStore.FeedbackStore.RespondToFeedback | src/store/useFeedbackStore.jsx:33-67 | without a token nothing is sent and an error is recorded; a success stores the response on that feedback; a failure keeps the list and records the error |
| FeedbackStore.FeedbackStore.ClearFeedbacks | src/store/useFeedbackStore.jsx:70 | the list becomes empty and nothing else changes |
| MeetingStore.MeetingStore.constructor | src/store/useMeetingStore.jsx:5 | no meetings |
| MeetingStore.MeetingStore.FetchMeetings | src/store/useMeetingStore.jsx:6-19 | a success replaces the list and a failure keeps it |
| MeetingStore.MeetingStore.AddMeeting | src/store/useMeetingStore.jsx:21-39 | a success appends the stored meeting and a failure keeps the list |
| MeetingStore.MeetingStore.ClearMeetings | src/store/useMeetingStore.jsx:41 | the list becomes empty |
| EmployeeStore.PageQuery | src/store/useEmployeeStore.jsx:17-21 | the filters, with `page` and `per_page` defaulting to 1 and 10, both then truthy |
| EmployeeStore.WriteError | src/store/useEmployeeStore.jsx:52-58 | the field errors exactly for a 422 reply, otherwise the client's message |
| EmployeeStore.EmployeeStore.constructor | src/store/useEmployeeStore.jsx:5-12 | no employees, not loading, no error, page 1 of 1 with 10 per page |
| EmployeeStore.EmployeeStore.FetchEmployees | src/store/useEmployeeStore.jsx:13-39 | a success takes the rows (none when falsy) and the paging of the reply; a failure empties the list, keeps the paging and records the body or the fallback |
| EmployeeStore.EmployeeStore.AddEmployee | src/store/useEmployeeStore.jsx:41-61 | the list is untouched; a success keeps the reply's `employee` property as the store's `employee` and returns the whole reply; a failure records the write error and throws |
| EmployeeStore.EmployeeStore.UpdateEmployee | src/store/useEmployeeStore.jsx:62-85 | a success replaces every employee with that id by the reply and leaves `loading` set; a failure keeps the list, records the write error and throws |
| EmployeeStore.EmployeeStore.DeleteEmployee | src/store/useEmployeeStore.jsx:86-97 | a success removes the employees with that id; a failure changes nothing |
| JsValues.Merge | src/store/useUserStore.jsx:48 | the object spread `{ ...a, ...b }`: every key of either side is there, and `b`'s value wins |
| JsValues.TrimEmptyIffBlank | src/store/useTransactionStore.jsx:21 | `s.trim() === ''` holds exactly when `s` is made only of white space |
| Http.OrValue | src/store/useTransactionStore.jsx:41 | the `or` of two values gives the first when it is truthy and the second otherwise |
| Http.Describe | src/store/useTransactionStore.jsx:41 | the message a failed fetch leaves is always truthy: the server's message if it sent one, else the error's own message, else the fallback text |
| Http.RethrownMessage | src/store/useTransactionStore.jsx:80 | the text of the error a failed process rethrows is never empty: a truthy server message becomes the text (a string message as it is), and without one the text is the fallback; the client's own `error.message` is never used |
| QueryFilters.StringEntries | src/store/useTransactionStore.jsx:18-19 | `Object.entries` of a string: digit keys, each value one character of the string, the last index holding the last character |
| QueryFilters.StringEntriesAt | src/store/useTransactionStore.jsx:18-19 | every index `i` of the string is a key, holding the character at `i` |
| QueryFilters.StringEntriesOnlyIndices | src/store/useTransactionStore.jsx:18-19 | the keys are exactly the decimal forms of the string's indices, and nothing else |
| QueryFilters.Entries | src/store/useTransactionStore.jsx:11-19 | the entries the cleaning sees; building them fails exactly when `filters` is `null` (the default `{}` covers a missing argument) |
| QueryFilters.KeepsIsTrimRule | src/store/useTransactionStore.jsx:19-24 | an entry is kept iff it is a string that is neither blank nor `'all'`, or a non-string that is neither `undefined` nor `null` |
| QueryFilters.Clean | src/store/useTransactionStore.jsx:18-25 | the cleaned filters hold exactly the entries the rule keeps, with their values unchanged |
| QueryFilters.CleanIdempotent | src/store/useCustomerStore.jsx:17-24 | cleaning an already clean query changes nothing |
| QueryFilters.CleanedQuery | src/store/useTransactionStore.jsx:17-32 | the query sent for `filters`: none exactly when building it throws |
| QueryFilters.CleanedQueryHasNoDefaults | src/store/useTransactionStore.jsx:19-24 | no sent query holds `'all'`, a blank string, `null` or `undefined` |
| QueryFilters.TokenQueryHasOnlyIndexKeys | src/store/useTransactionStore.jsx:18-19 | a string passed as `filters` is sent with index keys only |
| QueryFilters.TokenQueryNotEmpty | src/store/useTransactionStore.jsx:18-24 | a string whose last character is not white space is sent as a non-empty query |
| QueryFilters.NoArgumentSendsEmptyQuery | src/store/useTransactionStore.jsx:11 | a call without an argument sends the empty query |
| RecordLists.MergeWhereId | src/store/useUserStore.jsx:47-49 | same length; records with the id get the patch merged in, all others are unchanged |
| RecordLists.ReplaceWhereId | src/store/useEmployeeStore.jsx:70-72 | same length; records with the id are replaced, all others are unchanged |
| RecordLists.RemoveId | src/store/useUserStore.jsx:75 | the result holds exactly the records whose id differs, never more often than before |
| RecordLists.MergeWhereIdIdempotent | src/store/useCustomerStore.jsx:66-68 | a patch that keeps the id, applied twice, gives the same list as applied once |
| RecordLists.RemoveIdKeepsOthers | src/store/useCustomerStore.jsx:95 | each record with another id keeps its multiplicity |
| RecordLists.RemoveIdConcat | src/store/useEmployeeStore.jsx:92 | removal works piecewise, so what remains keeps its order |
| RecordLists.RemoveAbsentId | src/store/useUserStore.jsx:75 | removing an id that no record has changes nothing |
| RecordLists.FindFirst | src/components/loan-commitee/LoanCommitteeDashboard.jsx:65-68 | `find`: none iff no record matches; otherwise the first matching record |
| Seqs.Filter | src/components/accountant/AccountantDashboard.jsx:28-30 | `filter` keeps exactly the elements that satisfy the predicate, in order and never more often than before |
| Seqs.FilterConcat | src/components/manager/ManagerDashboard.jsx:117 | filtering distributes over concatenation |
| Seqs.FilterKeepsCount | src/components/customer/SendFeedback.jsx:60 | every element that satisfies the predicate keeps its multiplicity |
| Seqs.CountConcat | src/components/loan-commitee/LoanCommitteeDashboard.jsx:106-111 | the count of a concatenation is the sum of the counts |
| Seqs.SumConcat | src/components/manager/ManagerDashboard.jsx:120-122 | the sum over a concatenation is the sum of the sums |
| Seqs.SumNonNegative | src/components/manager/ManagerDashboard.jsx:120-122 | a sum of non-negative terms is non-negative |
| Seqs.UpdateWhere | src/store/useFeedbackStore.jsx:56-60 | `map` with a condition: selected elements are rewritten, the rest are unchanged |
| Seqs.Prefix | src/components/admin/AdminDashboard.jsx:246 | `slice(0, n)` is a prefix of length `min(n, length)` |
| Seqs.SortBy | src/components/accountant/ViewFeedback.jsx:24 | the sort by a numeric key gives a permutation whose keys never decrease |
| Seqs.SortedHeadIsLeast | src/components/reusable/UpcomingMeetingCard.jsx:30-32 | the head of a sorted sequence has the smallest key |
| Dates.DaysInMonth | src/components/loan-commitee/LoanCommitteeDashboard.jsx:94-95 | a month has 28 to 31 days |
| Dates.OrdinalOrdersMonths | src/components/accountant/ViewReport.jsx:54 | a date that is not later than another lies in the same month or an earlier one |
| Dates.OrdinalInjective | src/components/reusable/UpcomingMeetingCard.jsx:30-32 | equal timestamps mean the same date |
| Dates.PreviousMonth | src/components/loan-commitee/LoanCommitteeDashboard.jsx:94-95 | the month before, as a valid month: one month index less |
| Dates.NextMonth | src/components/accountant/ViewReport.jsx:45 | the month after, as a valid month: one month index more |
| Dates.SetMonth | src/components/loan-commitee/LoanCommitteeDashboard.jsx:94-95 | `setMonth` keeps the day-of-month and rolls over into later months when the day does not exist |
| Dates.MonthsBetween | src/components/loan-commitee/LoanCommitteeDashboard.jsx:53-61 | the duration in months is the difference of the month indices |
| Dates.MonthsBetweenNonNegative | src/components/loan-commitee/LoanCommitteeDashboard.jsx:53-61 | a start not later than the end gives a non-negative duration |
| Dates.MonthsBetweenAdds | src/components/loan-commitee/LoanCommitteeDashboard.jsx:53-61 | durations add up along a chain of dates |
| Dates.PreviousDay | src/components/accountant/AccountantDashboard.jsx:56-57 | `setDate(getDate() - 1)`: a valid, strictly earlier date, one day back in the same month or the last day of the month before |
| Dates.ZeroPad | src/components/accountant/AccountantDashboard.jsx:58 | a padded number is its decimal digits with '0' characters added on the left up to the requested width, and no wider than that width or its digits |
| Dates.NatToStringInjective | src/components/accountant/AccountantDashboard.jsx:58 | different numbers have different decimal forms |
| Dates.ZeroPadValue | src/components/accountant/AccountantDashboard.jsx:58 | padding loses nothing: the padded text is all digits and reads back as the number |
| Dates.ZeroPadInjective | src/components/accountant/AccountantDashboard.jsx:58 | different numbers pad to different texts |
| Dates.IsoDateLayout | src/components/accountant/AccountantDashboard.jsx:58 | `toISOString().split('T')[0]` of a date of a four-digit year is `YYYY-MM-DD`: ten characters, '-' at 4 and 7, the zero-padded year, month counted from 1 and day |
| Dates.IsoDateRoundTrip | src/components/accountant/AccountantDashboard.jsx:58 | the ISO date text reads back as the date's year, month and day, so different days give different texts whatever the time of day |
| FilterPanel.Stripped | src/components/customer/CustomerDashboard.jsx:98-105 | the stripped filters hold exactly the entries whose value is truthy and not `'all'`, unchanged |
| FilterPanel.StripDefaults | src/components/customer/CustomerDashboard.jsx:98-105 | the loop that deletes falsy and `'all'` entries from a copy produces exactly the stripped filters |
| FilterPanel.RulesDiffer | src/components/customer/CustomerDashboard.jsx:102 | the views' rule drops `0` and `false`, which the store would send, and keeps a blank string, which the store drops |
| FilterPanel.QueryOfStripped | src/components/customer/CustomerDashboard.jsx:98-107 | a view's request is sent, and holds exactly the entries both rules keep, with the view's values |
| FilterPanel.WithFilter | src/components/customer/CustomerDashboard.jsx:123-128 | a select change sets that filter and page 1 and keeps every other filter |
| FilterPanel.WithPinnedFilter | src/components/customer/CustomerDashboard.jsx:112-120 | a text change sets that filter, page 1 and the user's id, and keeps every other filter |
| FilterPanel.StepPage | src/components/customer/CustomerDashboard.jsx:132-137 | a page change moves the page by the direction and keeps every other filter |
| FilterPanel.FilterChangeResetsPage | src/components/customer/CustomerDashboard.jsx:112-128 | after any filter change the page is a valid first page |
| FilterPanel.PageStaysPositive | src/components/customer/CustomerDashboard.jsx:286-296 | stepping back while Previous is enabled, or forward, keeps the page at 1 or more |
| FilterPanel.PreviousDisabledOnFirstPageOnly | src/components/customer/CustomerDashboard.jsx:289 | Previous is disabled exactly on page 1 |
| CustomerDashboard.InitialFilters | src/components/customer/CustomerDashboard.jsx:19-28 | the initial filters are on a valid page and pinned to `user.id`, or to `''` when the id is falsy |
| CustomerDashboard.UnpinnedWithoutUserId | src/components/customer/CustomerDashboard.jsx:19-28 | with a falsy user id the first request carries only `page` 1 and `perPage` 5, so it is not limited to the user |
| CustomerDashboard.PendingCount | src/components/customer/CustomerDashboard.jsx:140-142 | the pending count is zero exactly when nothing is pending, and the whole list exactly when everything is |
| CustomerDashboard.PendingCountConcat | src/components/customer/CustomerDashboard.jsx:140-142 | the count of a list is the sum of the counts of its parts |
| FilterPanel.NextDisabledOnShortPageOnly | src/components/accountant/TransactionHistory.jsx:190 | Next is disabled exactly when fewer rows than `perPage` came back, and no filter change or page step alters that rule |
| FilterPanel.RefreshTransactions | src/components/accountant/TransactionHistory.jsx:24-37 | without a token nothing is requested and the store is unchanged; with one the stripped and cleaned filters are sent, `loading` ends false and the list becomes the reply, or stays on failure |
| AccountantTransactionHistory.InitialRequest | src/components/accountant/TransactionHistory.jsx:14-37 | the first request asks for page 1 of five rows and nothing else, and Previous starts disabled |
| CustomerTransactionHistory.InitialFilters | src/components/customer/TransactionHistory.jsx:24-33 | the initial filters are on a valid page and pinned to the user's id |
| CustomerTransactionHistory.StrippedInitialFilters | src/components/customer/TransactionHistory.jsx:35-44 | stripping the initial filters leaves the page, the page size and the user's id, unless the id is falsy |
| CustomerTransactionHistory.CleanPinnedRequest | src/store/useTransactionStore.jsx:18-25 | the store keeps the page and the page size, and the user's id exactly when its own rule keeps it |
| CustomerTransactionHistory.InitialRequest | src/components/customer/TransactionHistory.jsx:24-46 | the first request asks for page 1 of five rows, pinned to the user exactly when the id passes both stripping rules |
| CustomerTransactionHistory.ProcessedAction | src/components/customer/TransactionHistory.jsx:94 | the dialog's action is "approve" exactly for an approved transaction and "reject" otherwise |
| CustomerTransactionHistory.ReceiptsShowApproval | src/components/customer/TransactionHistory.jsx:215 | every receipt the page offers (approved transactions only) shows "approve" |
| CustomerTransactionHistory.AmountCell | src/components/customer/TransactionHistory.jsx:197-205 | the cell is red exactly for a negative amount and shows the absolute value |
| CustomerTransactionHistory.AmountSignOnlyInColour | src/components/customer/TransactionHistory.jsx:197-205 | an amount and its negation show the same number, in different colours unless zero |
| CustomerTransactionHistory.ReceiptNameLookup | src/components/customer/TransactionHistory.jsx:79-90 | with no customers loaded all customers are fetched; otherwise the name of a customer with the receipt's user id is shown, or the old name is kept when none has it |
| ViewCustomer.InitialRequest | src/components/accountant/ViewCustomer.jsx:53-74 | the first request asks for page 1 of five rows and nothing else |
| ViewCustomer.PagerKeepsPageValid | src/components/accountant/ViewCustomer.jsx:104-109 | with Previous disabled on page 1 and both buttons disabled while loading, paging keeps the page at 1 or more |
| ViewCustomer.CustomerListView.constructor | src/components/accountant/ViewCustomer.jsx:42-44 | all three busy flags start false |
| ViewCustomer.CustomerListView.Refresh | src/components/accountant/ViewCustomer.jsx:63-85 | without a token nothing changes; with one the stripped and cleaned filters are sent, the busy flag ends false and the list becomes the reply (an empty list when the reply is not an array) or stays on failure |
| ViewCustomer.CustomerListView.Delete | src/components/accountant/ViewCustomer.jsx:111-121 | the success notice always shows, since the store never throws; the customer is removed only with a token and a successful reply; the delete flag ends false |
| ViewCustomer.CustomerListView.SaveChanges | src/components/accountant/ViewCustomer.jsx:126-151 | the success notice always shows, since the store records failures instead of throwing; the data is merged in only with a token and a successful reply; the edit flag ends false |
| EmployeeManagement.InitialRequest | src/components/manager/EmplyeeManagement.jsx:27-45 | the first request asks for page 1 with `perPage` 5, which also becomes the store's `per_page` |
| EmployeeManagement.Refresh | src/components/manager/EmplyeeManagement.jsx:35-54 | without a token nothing is requested; with one the stripped filters and the page parameters are sent, `loading` ends false, a success shows the reply's rows and a failure empties the list |
| EmployeeManagement.ConfirmDelete | src/components/manager/EmplyeeManagement.jsx:90-95 | nothing is deleted without confirmation; after confirmation the success notice always shows and the employee is removed only on a successful reply |
| AccountantDashboard.PendingTransactions | src/components/accountant/AccountantDashboard.jsx:28-30 | the pending list holds exactly the pending transactions that are not loans, never more often than the store does |
| AccountantDashboard.PendingKeepsOrder | src/components/accountant/AccountantDashboard.jsx:28-30 | the pending list keeps the store's order (it distributes over a split list) |
| AccountantDashboard.Displayed | src/components/accountant/AccountantDashboard.jsx:31 | the list shown is a prefix of the pending list: all of it with `showAll`, otherwise the first five |
| AccountantDashboard.ApprovedTotalConcat | src/components/accountant/AccountantDashboard.jsx:41-53 | a total card adds up over a split list |
| AccountantDashboard.ApprovedTotalIgnores | src/components/accountant/AccountantDashboard.jsx:41-53 | a transaction that is not approved, or of another type, does not change a total |
| AccountantDashboard.ApprovedTotalCounts | src/components/accountant/AccountantDashboard.jsx:41-53 | an approved transaction adds its amount to the total of its type |
| AccountantDashboard.YesterdayCount | src/components/accountant/AccountantDashboard.jsx:60-63 | yesterday's pending count is at most the number of transactions |
| AccountantDashboard.YesterdayCountStep | src/components/accountant/AccountantDashboard.jsx:60-63 | yesterday's count is zero for no transactions and a transaction adds one exactly when it is pending and its `date` is yesterday's text, so the count is exactly the pending transactions dated yesterday |
| AccountantDashboard.YesterdayIsPreviousDay | src/components/accountant/AccountantDashboard.jsx:56-62 | a transaction counted for yesterday carries the ISO date of the calendar day before now |
| AccountantDashboard.YesterdayCountsLoans | src/components/accountant/AccountantDashboard.jsx:28-62 | a pending loan dated yesterday raises yesterday's count but is not in today's pending list: the comparison counts different things |
| AccountantDashboard.ComparisonText | src/components/accountant/AccountantDashboard.jsx:67-70 | "N more than yesterday" when today's count is larger, otherwise "N fewer than yesterday", with N the gap |
| AccountantDashboard.EqualCountsReadZeroFewer | src/components/accountant/AccountantDashboard.jsx:67-70 | equal counts read as "0 fewer than yesterday" |
| AccountantDashboard.ApprovedTotalStep | src/components/accountant/AccountantDashboard.jsx:41-53 | a transaction adds its amount to a total exactly when it is approved and of that type |
| AccountantDashboard.SummaryStep | src/components/accountant/AccountantDashboard.jsx:39-63 | the four figures start at zero and each transaction adds its own share: its amount to the total of its type when approved, and one to yesterday's count when pending and dated yesterday |
| AccountantDashboard.Dashboard.constructor | src/components/accountant/AccountantDashboard.jsx:16-21 | every figure starts at zero and `showAll` starts false |
| AccountantDashboard.Dashboard.Shown | src/components/accountant/AccountantDashboard.jsx:31 | while `showAll` is false (it is never set) at most five requests are shown |
| AccountantDashboard.Dashboard.OnTransactions | src/components/accountant/AccountantDashboard.jsx:39-65 | a non-empty list sets the three totals to the approved deposit, withdrawal and loan-repayment totals and yesterday's count to the pending transactions dated yesterday; an empty list leaves the old (stale) figures |
| AccountantDashboard.Dashboard.SetFigures | src/components/accountant/AccountantDashboard.jsx:44-63 | the four setters set exactly the four figures |
| LoanCommitteeDashboard.LoanTransactions | src/components/loan-commitee/LoanCommitteeDashboard.jsx:50 | the loan list holds exactly the store's transactions of type `loan`, never more often |
| LoanCommitteeDashboard.StatusCountsPartition | src/components/loan-commitee/LoanCommitteeDashboard.jsx:88-111 | the approved, rejected and undecided counts add up to the number of loans |
| LoanCommitteeDashboard.ReviewableAreUndecided | src/components/loan-commitee/LoanCommitteeDashboard.jsx:235 | a loan can be reviewed exactly when it is among the undecided (`pendingLoanRequests`) ones |
| LoanCommitteeDashboard.TotalLoanAmount | src/components/loan-commitee/LoanCommitteeDashboard.jsx:113-115 | the amount lent is never negative |
| LoanCommitteeDashboard.TotalLoanAmountStep | src/components/loan-commitee/LoanCommitteeDashboard.jsx:113-115 | an approved loan with a negative amount raises the total by the amount negated; any other loan leaves it |
| LoanCommitteeDashboard.LoanDuration | src/components/loan-commitee/LoanCommitteeDashboard.jsx:53-61 | the duration in months is never negative for a start that is not in the future |
| LoanCommitteeDashboard.CustomerName | src/components/loan-commitee/LoanCommitteeDashboard.jsx:65-68 | "Unknown Customer" when no customer has the user id; otherwise the full name of the first one that does |
| LoanCommitteeDashboard.SetMonthOverflowCountsThisMonth | src/components/loan-commitee/LoanCommitteeDashboard.jsx:92-103 | as written, on 31 March 2025 a March loan counts as last month's, and the corrected amount does not count it |
| LoanCommitteeDashboard.PrevMonthAmountCountsPreviousMonth | src/components/loan-commitee/LoanCommitteeDashboard.jsx:92-103 | the corrected amount counts a loan exactly when it was made in the calendar month before this one |
| LoanCommitteeDashboard.AsWrittenAgreesEarlyInMonth | src/components/loan-commitee/LoanCommitteeDashboard.jsx:94-95 | up to the 28th of a month the code as written and the corrected one agree |
| ManagerDashboard.ActiveLoans | src/components/manager/ManagerDashboard.jsx:98-100 | the "Active Loans" card counts at most the loans there are |
| ManagerDashboard.ActiveLoansStep | src/components/manager/ManagerDashboard.jsx:98-100 | the card is zero for no transactions and a transaction adds one exactly when it is an approved loan, so it counts exactly the approved loans |
| ManagerDashboard.PendingWithdrawalCount | src/components/manager/ManagerDashboard.jsx:117 | the number of pending withdrawals is at most the number of transactions |
| ManagerDashboard.PendingWithdrawalsStep | src/components/manager/ManagerDashboard.jsx:117-122 | the count and the total of the card range over the same transactions: a pending withdrawal adds one and its amount, anything else adds nothing |
| ManagerDashboard.PendingWithdrawalTotalNotPositive | src/components/manager/ManagerDashboard.jsx:120-122 | withdrawals are recorded negative: when no pending withdrawal has a positive amount the card's total is zero or less |
| ManagerDashboard.History | src/components/manager/ManagerDashboard.jsx:272-273 | the history dialog holds exactly the selected customer's transactions, never more often than the store does |
| ManagerDashboard.HistoryKeepsOrder | src/components/manager/ManagerDashboard.jsx:272-273 | the history keeps the store's order |
| ManagerDashboard.HistoryIsComplete | src/components/manager/ManagerDashboard.jsx:272-273 | each of the customer's transactions appears as often as in the store |
| ViewReport.LoanCountsBounded | src/components/accountant/ViewReport.jsx:59-64 | the loan-application and loan-repayment bars together count at most every transaction once |
| ViewReport.RangeSumStep | src/components/accountant/ViewReport.jsx:53-74 | an amount bar grows by a transaction's share exactly when it has the bar's type and lies in the range |
| ViewReport.RangeCountStep | src/components/accountant/ViewReport.jsx:59-85 | a count bar grows by one exactly for a transaction of its type in the range |
| ViewReport.ReportStep | src/components/accountant/ViewReport.jsx:52-91 | the report of a list is the field-wise sum of what each transaction contributes |
| ViewReport.StatusIgnored | src/components/accountant/ViewReport.jsx:52-64 | changing a transaction's status does not change the report: pending and rejected transactions count like approved ones |
| ViewReport.LastDayDroppedAsWritten | src/components/accountant/ViewReport.jsx:44-45 | as written, a deposit made on the morning of 31 March 2025 falls outside March's default range |
| ViewReport.MonthEnd | src/components/accountant/ViewReport.jsx:45 | the corrected end of the range is a valid date in the month itself |
| ViewReport.MonthRangeIsMonth | src/components/accountant/ViewReport.jsx:44-45 | with the corrected end, a date is in the default range exactly when it lies in the month |
| ViewReport.ReportPage.constructor | src/components/accountant/ViewReport.jsx:26-33 | no dates, no charts, and the dialog closed |
| ViewReport.ReportPage.SetCurrentMonth | src/components/accountant/ViewReport.jsx:42-48 | the range becomes the current month as written: from its first midnight to the midnight starting its last day (see the findings); nothing else changes |
| ViewReport.ReportPage.SetStartDate | src/components/accountant/ViewReport.jsx:164-169 | the start date picker sets the start date, or clears it; nothing else changes |
| ViewReport.ReportPage.SetEndDate | src/components/accountant/ViewReport.jsx:173-178 | the end date picker sets the end date, or clears it; nothing else changes |
| ViewReport.ReportPage.OnTransactions | src/components/accountant/ViewReport.jsx:94-100 | with transactions and both dates the chart becomes the report of the range; otherwise it stays; the dates and the generated report stay |
| ViewReport.ReportPage.SetChart | src/components/accountant/ViewReport.jsx:97 | only the chart changes |
| ViewReport.ReportPage.GenerateReport | src/components/accountant/ViewReport.jsx:103-114 | without both dates only the error message; otherwise the generated report is the range's report, the success message is given and the dialog closes |
| MonthlySeries.Series | src/components/manager/LoanGraph.jsx:38-42 | the chart has twelve points labelled January to December in order |
| MonthlySeries.MonthTotalStep | src/components/manager/LoanGraph.jsx:23-35 | one more transaction moves only the total of its own type and month, by its amount |
| MonthlySeries.Process | src/components/manager/LoanGraph.jsx:20-43 | the month-by-month loop over the transactions produces exactly the chart of month totals, with a zero point for each month nothing fell in |
| MonthlySeries.MonthsUpToStep | src/components/manager/LoanGraph.jsx:23-35 | one more transaction adds its amount to exactly one of the months below `n`, the one it was made in |
| MonthlySeries.MonthsAddUp | src/components/manager/LoanGraph.jsx:23-35 | the twelve month totals of a kind add up to the total of that kind |
| MonthlySeries.NothingUpTo | src/components/manager/LoanGraph.jsx:42 | with no transactions every month total is zero |
| MonthlySeries.ChartPrefixSums | src/components/manager/LoanGraph.jsx:38-42 | the first `n` points of each line add up to the month totals below `n` |
| MonthlySeries.ChartAddsUp | src/components/accountant/DepositeWithdrawLIne.jsx:21-44 | the points of each line add up to all the amounts of its kind: no amount is lost or counted twice |
| MonthlySeries.EmptyMonthIsZero | src/components/accountant/DepositeWithdrawLIne.jsx:43 | a month in which no transaction of the kind was made is a zero point |
| LoanGraph.ValidTransactions | src/components/manager/LoanGraph.jsx:47-51 | the chart uses exactly the approved loans and the approved loan repayments |
| LoanGraph.FinancialData | src/components/manager/LoanGraph.jsx:52 | the chart is the monthly series of the valid transactions, loans first and repayments second |
| LoanGraph.NotChartedLeavesChart | src/components/manager/LoanGraph.jsx:47-52 | a transaction that is not an approved loan or repayment leaves the chart as it was |
| LoanGraph.LinesAddUp | src/components/manager/LoanGraph.jsx:47-52 | each line adds up to the approved amounts of its kind |
| DepositWithdrawLine.ValidTransactions | src/components/accountant/DepositeWithdrawLIne.jsx:46-48 | the chart uses exactly the approved deposits and the approved withdrawals |
| DepositWithdrawLine.FinancialData | src/components/accountant/DepositeWithdrawLIne.jsx:49 | the chart is the monthly series of the valid transactions, deposits first and withdrawals second |
| DepositWithdrawLine.NotChartedLeavesChart | src/components/accountant/DepositeWithdrawLIne.jsx:46-49 | a transaction that is not an approved deposit or withdrawal leaves the chart as it was |
| DepositWithdrawLine.LinesAddUp | src/components/accountant/DepositeWithdrawLIne.jsx:46-49 | each line adds up to the approved amounts of its kind |
| MeetingManagement.Split | src/components/manager/MeetingManagement.jsx:47 | `split` gives at least one piece, and no piece holds the separator |
| MeetingManagement.JoinSplit | src/components/manager/MeetingManagement.jsx:47-60 | joining the pieces of a split gives the string back |
| MeetingManagement.SplitAfterPiece | src/components/manager/MeetingManagement.jsx:47 | a piece without the separator, then the separator, splits off as the first piece |
| MeetingManagement.SplitWithoutSeparator | src/components/manager/MeetingManagement.jsx:47 | a string without the separator splits into itself alone |
| MeetingManagement.SplitJoin | src/components/manager/MeetingManagement.jsx:47-60 | splitting the join of separator-free pieces gives the pieces back |
| MeetingManagement.AttendeeList | src/components/manager/MeetingManagement.jsx:47 | an empty attendees string reads as no attendees and only then; no attendee holds a comma |
| MeetingManagement.AttendeesRoundTrip | src/components/manager/MeetingManagement.jsx:47-60 | a comma-free attendee list other than one empty name is read back as stored |
| MeetingManagement.RemoveFirst | src/components/manager/MeetingManagement.jsx:54-55 | removing an absent role leaves the list; removing a present one shortens it by one |
| MeetingManagement.RemoveFirstRemovesOne | src/components/manager/MeetingManagement.jsx:54-55 | exactly one occurrence of the role goes |
| MeetingManagement.RemoveFirstAt | src/components/manager/MeetingManagement.jsx:54-55 | the occurrence removed is the first one |
| MeetingManagement.UncheckUndoesCheck | src/components/manager/MeetingManagement.jsx:49-56 | checking a role not listed and unchecking it gives the list back |
| MeetingManagement.IndexOf | src/components/manager/MeetingManagement.jsx:54 | the first index holding the value, and -1 exactly when it is absent |
| MeetingManagement.SortedMeetings | src/components/manager/MeetingManagement.jsx:88-94 | the meetings in ascending order of date and time, as a permutation of the store's list |
| MeetingManagement.EarliestFirst | src/components/manager/MeetingManagement.jsx:88-94 | no meeting comes before the first one listed |
| MeetingManagement.MeetingPage.constructor | src/components/manager/MeetingManagement.jsx:22-29 | the form starts with every field empty |
| MeetingManagement.MeetingPage.CheckboxChange | src/components/manager/MeetingManagement.jsx:43-63 | checking appends the role to the attendees, unchecking removes its first occurrence, and no other field changes |
| MeetingManagement.MeetingPage.SetAttendees | src/components/manager/MeetingManagement.jsx:58-61 | only the attendees field changes |
| MeetingManagement.MeetingPage.AddMeeting | src/components/manager/MeetingManagement.jsx:66-85 | an incomplete form only raises an error; a complete one is reset and announced whatever the server answers, and the store gains the meeting only on success |
| MeetingManagement.FirstCheckIsTheRole | src/components/manager/MeetingManagement.jsx:47-60 | the first role checked is the whole attendees string |
| MeetingManagement.CheckAppends | src/components/manager/MeetingManagement.jsx:43-63 | after checking a new role the attendees read back as the old list with the role at the end |
| MeetingManagement.UncheckRemoves | src/components/manager/MeetingManagement.jsx:43-63 | after unchecking a role the attendees read back as the old list without its first occurrence |
| MeetingManagement.Load | src/components/manager/MeetingManagement.jsx:32-37 | without a token the list is untouched; with one it is cleared and becomes the reply, or stays empty on failure |
| SendRequest.BuildForm | src/components/customer/SendRequest.jsx:43-50 | the fields are the ones the append rules give, in append order |
| SendRequest.AmountAlwaysSent | src/components/customer/SendRequest.jsx:44 | the amount is the first field, holds the typed text, and appears once |
| SendRequest.ReasonSentIff | src/components/customer/SendRequest.jsx:45-47 | a reason is sent exactly for the type the rule names and for a withdrawal, and it is the typed text |
| SendRequest.ReceiptSentIff | src/components/customer/SendRequest.jsx:48-50 | a receipt is sent exactly for a repayment or a deposit with a file picked, and it is that file |
| SendRequest.LoanReasonDroppedAsWritten | src/components/customer/SendRequest.jsx:45-47 | as written, a loan request shows a reason box but never sends the reason, because the rule checks for a type the list does not offer |
| SendRequest.ShownReasonIsSent | src/components/customer/SendRequest.jsx:136-148 | testing for the list's own value, a reason is sent exactly when its box is shown |
| SendRequest.Endpoint | src/components/customer/SendRequest.jsx:52-70 | there is an endpoint exactly for the four types in the list |
| SendRequest.EndpointsDistinct | src/components/customer/SendRequest.jsx:52-70 | different types post to different endpoints |
| SendRequest.RequestForm.constructor | src/components/customer/SendRequest.jsx:15-26 | not loading and no success dialog at first |
| SendRequest.RequestForm.Submit | src/components/customer/SendRequest.jsx:34-89 | an empty amount or type, or an unknown type, only raises its error; otherwise the form, built with the reason rule as written (a loan request goes without its reason), goes to the type's endpoint, success opens the dialog, failure shows the server's message or the fallback, and `loading` ends false |
| ViewFeedback.SortedIsNewestFirst | src/components/accountant/ViewFeedback.jsx:24 | sorting by the page's key puts later feedback first |
| ViewFeedback.OnlyAccountantResponds | src/components/accountant/ViewFeedback.jsx:118 | of the four roles the page is routed for, Respond is enabled exactly for the accountant |
| ViewFeedback.FeedbackPage.constructor | src/components/accountant/ViewFeedback.jsx:10-11 | no typed responses and no errors at first |
| ViewFeedback.FeedbackPage.InputChange | src/components/accountant/ViewFeedback.jsx:62-67 | only that feedback's text changes |
| ViewFeedback.FeedbackPage.Respond | src/components/accountant/ViewFeedback.jsx:26-59 | a missing or blank response only raises that feedback's error; otherwise it is sent when there is a token, the store applies the reply on success, and the text and error are cleared whatever the outcome |
| ViewFeedback.SortStoreNewestFirst | src/components/accountant/ViewFeedback.jsx:24 | the store's own list is reordered newest first, as a permutation, and nothing else in the store changes |
| SendFeedback.OwnFeedback | src/components/customer/SendFeedback.jsx:60-62 | exactly the signed-in customer's feedback, newest first, drawn from the store's list |
| SendFeedback.OwnFeedbackComplete | src/components/customer/SendFeedback.jsx:60-62 | each of the customer's feedbacks is listed as often as the store holds it |
| SendFeedback.FeedbackForm.constructor | src/components/customer/SendFeedback.jsx:13-16 | empty text, not loading, no messages |
| SendFeedback.FeedbackForm.Submit | src/components/customer/SendFeedback.jsx:27-57 | the typed text is posted; success clears it and shows the success message, failure keeps it and shows the error, and `loading` ends false |
| AdminDashboard.NewCustomersBounded | src/components/admin/AdminDashboard.jsx:60-82 | the customers new this month are at most the users new this month and at most all customers |
| AdminDashboard.NewUsersOfTwoMonths | src/components/admin/AdminDashboard.jsx:60-67 | no user counts as new in two different months |
| AdminDashboard.StatsOf | src/components/admin/AdminDashboard.jsx:53-84 | the three cards are bounded by each other and by the number of users; their values are fixed by `StatsStep` |
| AdminDashboard.StatsStep | src/components/admin/AdminDashboard.jsx:60-82 | the cards start at zero; each user adds one to the new users exactly when created in the current month, one to the new customers exactly when it is also a customer, and one to the customers exactly when its role is `customer` |
| AdminDashboard.SortedUsers | src/components/admin/AdminDashboard.jsx:121-123 | a newest-first permutation of the users |
| AdminDashboard.Dashboard.constructor | src/components/admin/AdminDashboard.jsx:32-40 | the cards start at zero, five rows shown, "Show More" off |
| AdminDashboard.Dashboard.Table | src/components/admin/AdminDashboard.jsx:246 | the table is the first `visibleUsers` rows of the sorted users |
| AdminDashboard.Dashboard.OnUsers | src/components/admin/AdminDashboard.jsx:53-84 | a non-empty list sets the cards for this month; an empty one leaves them |
| AdminDashboard.Dashboard.SetStats | src/components/admin/AdminDashboard.jsx:67-82 | the cards take the given numbers and nothing else changes |
| AdminDashboard.Dashboard.ToggleShowMore | src/components/admin/AdminDashboard.jsx:126-133 | "Show More" shows every user, "Show Less" goes back to five, and the toggle flips |
| AdminDashboard.ShowMoreShowsAll | src/components/admin/AdminDashboard.jsx:126-133 | after "Show More" the table holds every user |
| ViewUser.Displayed | src/components/admin/ViewUser.jsx:30-33 | a prefix of the newest-first users: all of them with "Show More", otherwise the first five |
| ViewUser.HiddenAreOlder | src/components/admin/ViewUser.jsx:30-33 | a user left off the short list joined no later than any user on it |
| ViewUser.UserList.constructor | src/components/admin/ViewUser.jsx:12-19 | every dialog closed, nothing selected, nothing displayed |
| ViewUser.UserList.OnUsers | src/components/admin/ViewUser.jsx:30-33 | the displayed users follow the users and the toggle, and nothing else changes |
| ViewUser.UserList.ToggleShowMore | src/components/admin/ViewUser.jsx:35-37 | only the toggle flips |
| ViewUser.UserList.OpenConfirm | src/components/admin/ViewUser.jsx:43-46 | the user is selected and the confirm dialog opens |
| ViewUser.UserList.ConfirmDelete | src/components/admin/ViewUser.jsx:48-60 | the user is removed only with a token and a successful reply; the success dialog opens anyway, the error dialog never does, and the confirm dialog closes |
| ViewUser.UserList.CancelDelete | src/components/admin/ViewUser.jsx:62-64 | only the confirm dialog closes |
| UpcomingMeetingCard.FutureMeetings | src/components/reusable/UpcomingMeetingCard.jsx:24 | exactly the meetings later than now |
| UpcomingMeetingCard.MeetingCount | src/components/reusable/UpcomingMeetingCard.jsx:27 | at most the number of meetings, and zero exactly when none lies ahead; its value is fixed by `MeetingCountStep` |
| UpcomingMeetingCard.MeetingCountStep | src/components/reusable/UpcomingMeetingCard.jsx:23-27 | the count is zero for no meetings and grows by one exactly for each meeting dated after now: it is the number of future meetings |
| UpcomingMeetingCard.NextMeeting | src/components/reusable/UpcomingMeetingCard.jsx:30-32 | none exactly when no meeting lies ahead; otherwise a future meeting no later than any other |
| UpcomingMeetingCard.NextMeetingIffCount | src/components/reusable/UpcomingMeetingCard.jsx:27-32 | a next meeting is shown exactly when the count is not zero |
| UpcomingMeetingCard.CountShrinksOverTime | src/components/reusable/UpcomingMeetingCard.jsx:21-27 | a later clock never raises the count |

## Left out

- HTTP requests, their URLs (apart from the endpoint choice in `SendRequest.Endpoint`), headers and bodies: each reply is a parameter, and the server's own rules for balances and loans are not part of this model.
- `localStorage` is a map from strings to strings; `JSON.stringify`/`JSON.parse` are an abstract codec, assumed only to round-trip records (less their `undefined` properties) where a lemma says so.
- Date parsing, time zones and locale formatting (`new Date(string)`, `toLocaleString`, `toLocaleDateString`): dates are year, month 0..11, day and milliseconds into the day, and each parse is a parameter function.
- Floating point: amounts are integers; `parseFloat`, `Number`, `toFixed` and the loan committee's percentage change (src/components/loan-commitee/LoanCommitteeDashboard.jsx:185-189) are not modelled.
- Timers: the delayed redirect after sign-in (src/components/reusable/Login.jsx:49) is the `landing` result; the delayed close of the feedback dialog (src/components/customer/SendFeedback.jsx:47) is not modelled.
- Concurrency: fetches that overlap or finish out of order on a store's shared `loading` flag; each store call here completes before the next one starts.
- Rendering: JSX, dialogs opened only for display, `navigate` calls from cards, `scrollIntoView`, `window.print`, loading and error placeholders.
- Property keys are compared as given: JavaScript's coercion of numeric ids to string keys in `responses[id]` and `errors[id]` is not modelled.
- Sort stability is not claimed: the sorts are specified by order and permutation only.
- The one-field setters the model does not need: `handleInputChange` of the meeting form (src/components/manager/MeetingManagement.jsx:39-42), `handleFileChange` of the request form (src/components/customer/SendRequest.jsx:28-32), the dialog-closing handlers of the user list (src/components/admin/ViewUser.jsx:39-41 and 66-72) and of the accountant dashboard (src/components/accountant/AccountantDashboard.jsx:72-85), and `handleViewTransactions` of the two loan dashboards.
- The mount effects that only call a store's fetch (src/components/accountant/ViewFeedback.jsx:13-15, src/components/customer/SendFeedback.jsx:22-24, src/components/admin/ViewUser.jsx:26-28, src/components/admin/AdminDashboard.jsx:49-51): the store's fetch is modelled.
- The manager dashboard's "this month" customer count (src/components/manager/ManagerDashboard.jsx:82) reads an `isNew` property the server may send; its recommend buttons (src/components/manager/ManagerDashboard.jsx:221-232) only post a decision.
- The loan committee's "new this week" count (src/components/loan-commitee/LoanCommitteeDashboard.jsx:130-136), the applicant names added to loan requests (70-86), the pending total card (321), the history dialog's filter (342-343) and the approve and reject buttons (282, 295).
- The customer dashboard's balance fetch (src/components/customer/CustomerDashboard.jsx:30-59): a direct request whose reply is only displayed.
- QueryFilters.StringEntries: `Object.entries` of a string indexes its UTF-16 code units, while a Dafny string holds Unicode scalar values; the two agree for the ASCII tokens the back end issues and differ for characters outside the Basic Multilingual Plane.
- Dates.IsoDateRoundTrip: the signed six-digit years `toISOString` prints outside 0..9999 are produced by `Dates.IsoDate` but not read back.
- EmployeeManagement.Refresh: the paging fields of the reply are stated by `EmployeeStore.EmployeeStore.FetchEmployees`, not again here.

## Findings

| source | as written | input that shows it | evidently intended | confidence | as-written member | corrected member |
|---|---|---|---|---|---|---|
| src/components/customer/SendRequest.jsx:45-47 | the reason is appended for the type `apply-loan`, a value the type list does not offer | a "Loan Request" (`applyloan`) with a reason typed into its box: the form is posted without the reason | the reason is sent for `applyloan`, whose box the form shows | high, not executed | SendRequest.LoanReasonDroppedAsWritten | SendRequest.ShownReasonIsSent |
| src/components/manager/ManagerDashboard.jsx:42-43 | the dashboards call `fetchTransactions(token)`, so the token becomes the filter object | a signed-in token "ab": the query is `0=a&1=b` instead of no filter | the whole list is fetched with no filter | high, not executed | DashboardLoads.TokenBecomesFilters | DashboardLoads.LoadAllTransactions |
| src/components/loan-commitee/LoanCommitteeDashboard.jsx:94-95 | the previous month is today's date with `setMonth(getMonth() - 1)`, which rolls over when that day does not exist | on 31 March 2025 the "previous month" is 3 March, so a March loan counts as last month's | the calendar month before the current one | high, not executed | LoanCommitteeDashboard.SetMonthOverflowCountsThisMonth | LoanCommitteeDashboard.PrevMonthAmountCountsPreviousMonth |
| src/components/accountant/ViewReport.jsx:45 | the default end date is midnight at the start of the month's last day | a deposit at 10:00 on 31 March 2025 falls outside March's report | the range ends at the end of the month's last day | medium, not executed | ViewReport.LastDayDroppedAsWritten | ViewReport.MonthEnd |
