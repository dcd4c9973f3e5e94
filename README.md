# Expense tracker core, modelled in Dafny

This project models the core of a personal expense tracker:

- **The backend expense controller.** It creates, lists, updates and deletes a user's expense records. The store is a map from record id to record. A listing applies the query's optional date, category and amount constraints and returns the caller's records newest first. Updates and deletes first check that the record exists, then that the caller owns it.
- **The summary panel.** It shows the total, the count, the top category, the per-transaction average, and daily, weekly and monthly averages over the span of days the records cover.
- **The chart component.** It folds the records into per-category totals, in first-occurrence order. From these it builds index-aligned labels, data and colours.
- **The authentication context.** It holds the logged-in user and maps failed logins, registrations, profile updates and password changes to the messages shown to the user.

Files:

- `Domain.dfy`: the categories, the expense record, and the left-fold total.
- `Chart.dfy`: the category fold, its reference definitions, and the chart data.
- `Summary.dfy`: the summary panel.
- `ExpenseStore.dfy`: the controller, as a `Store` class over `map<ExpenseId, Expense>`.
- `Session.dfy`: the authentication context, as a `Session` class whose only field is the user.

Conventions:

- Dates are integer day numbers.
- Amounts are exact reals.
- Every network call is replaced by its outcome, which is passed in as a parameter (`Outcome`).

## Model

| member | source | states |
|---|---|---|
| Domain.TotalIsSumOfAmounts | frontend/src/components/Summary.jsx:18-21 | the left-to-right `reduce` of the amounts equals the plain sum of the amounts |
| Domain.CategoryByParse | backend/controllers/expenseController.js:31-33 | comparing a record's category with the query string by name holds exactly when the string reads back as that category |
| Chart.KeysAreFirstOccurrences | frontend/src/components/Chart.jsx:23-29 | the keys of the category fold are the input's categories, each once, in the order they first occur |
| Chart.LookupIsSumFor | frontend/src/components/Chart.jsx:23-27 | the folded total for each category is the sum of the amounts of that category's records, and 0 for a category that does not occur |
| Chart.TotalsSumToTotal | frontend/src/components/Chart.jsx:23-30 | the per-category totals add up to the grand total |
| Chart.FirstOccurrencesDistinct | frontend/src/components/Chart.jsx:29 | no category appears twice among the keys |
| Chart.CategoryTotalsAt | frontend/src/components/Chart.jsx:23-30 | entry i of the fold pairs the i-th first-seen category with the sum of its amounts |
| Chart.BuildChart | frontend/src/components/Chart.jsx:20-58 | there is no chart exactly when the record list is missing or empty |
| Chart.ChartIsBreakdown | frontend/src/components/Chart.jsx:23-54 | the labels are the distinct category names of the input in first-occurrence order, and exactly those names; the data is index-aligned with the labels and holds each category's total; the data sums to the grand total; there are min(7, labels) colours, a prefix of the palette |
| Chart.Slice | frontend/src/components/Chart.jsx:49 | `slice(0, n)` keeps the first min(n, length) elements |
| Summary.TallyCategories | frontend/src/components/Summary.jsx:24-28 | the `forEach` that fills the dictionary in place computes the same totals as the chart's fold |
| Summary.TopCategory | frontend/src/components/Summary.jsx:30-38 | the result is the largest total when one is positive, the first entry holding it wins, and it is "" with 0 when no total is positive |
| Summary.IsTopUnique | frontend/src/components/Summary.jsx:30-38 | the top category and amount are determined by the totals alone |
| Summary.TopIsLargestCategoryTotal | frontend/src/components/Summary.jsx:24-38 | no category's sum exceeds the reported highest amount, and a positive highest amount is the sum of the category it names |
| Summary.MinDay | frontend/src/components/Summary.jsx:44-45 | `Math.min` of the dates: no date is earlier, and some record has it |
| Summary.MaxDay | frontend/src/components/Summary.jsx:44-46 | `Math.max` of the dates: no date is later, and some record has it |
| Summary.CeilDiv | frontend/src/components/Summary.jsx:52 | `Math.ceil(a / b)` is the least r with a <= r * b |
| Summary.TotalDays | frontend/src/components/Summary.jsx:49-53 | the day count is at least 1 |
| Summary.TotalDaysIsInclusiveSpan | frontend/src/components/Summary.jsx:44-53 | for day-aligned dates, the day count is latest - earliest + 1 |
| Summary.Average | frontend/src/components/Summary.jsx:41-56 | the average times n is the total, both per transaction (n is the count, line 41) and per day (n is the day count, line 56) |
| Summary.PerPeriod | frontend/src/components/Summary.jsx:57-58 | `total / (days / period)` is `period` daily averages |
| Summary.Summarize | frontend/src/components/Summary.jsx:15-82 | a missing or empty list gives the all-zero summary; otherwise the summary holds the total, the count, the top category of the totals, and the four averages |
| Summary.SummaryAverages | frontend/src/components/Summary.jsx:41-58 | average × count = total; daily × (latest - earliest + 1) = total; weekly = 7 × daily; monthly = 30 × daily |
| Summary.SummaryPartition | frontend/src/components/Summary.jsx:18-28 | the summary's category totals add up to its total |
| Summary.TwoRecordExample | frontend/src/components/Summary.jsx:15-69 | Food 100 on day 0 and Travel 50 on day 9 give total 150, Food on top with 100, 75 per transaction, and 15 a day, 105 a week, 450 a month |
| ExpenseStore.BuildFilter | backend/controllers/expenseController.js:18-40 | the filter is owned by the caller, and it matches a record exactly when the record satisfies every constraint the query gives (inclusive bounds, each independent; a category other than absent, empty or "all" compared by name) |
| ExpenseStore.AllIsNoCategory | backend/controllers/expenseController.js:31-33 | category "all" admits the same records as no category |
| ExpenseStore.EqualAmountBounds | backend/controllers/expenseController.js:36-40 | equal minimum and maximum amounts admit exactly the records of that amount |
| ExpenseStore.InsertionPoint | backend/controllers/expenseController.js:42 | the insertion point follows every strictly newer record and precedes the rest |
| ExpenseStore.InsertByDate | backend/controllers/expenseController.js:42 | inserting into a newest-first list keeps it newest first and adds exactly the one record |
| ExpenseStore.InsertKeepsListing | backend/controllers/expenseController.js:42 | inserting a record with a new id keeps the listing ordered and free of repeated ids, and its members are the old ones plus the new record |
| ExpenseStore.Store.GetExpenses | backend/controllers/expenseController.js:16-43 | the listing holds exactly the caller's stored records that the query admits, each once, sorted by date newest first |
| ExpenseStore.Store.AddExpense | backend/controllers/expenseController.js:3-10 | the saved record has a new id, takes its fields from the body, and is owned by the caller whatever the body says; the store gains exactly that record |
| ExpenseStore.Guard | backend/controllers/expenseController.js:51-60 | not found exactly when the id is absent; not authorized exactly when the record belongs to someone else; passes exactly when the caller owns it |
| ExpenseStore.Patched | backend/controllers/expenseController.js:62-64 | an update never changes the id; each of owner, title, amount, category, date and note takes the body's value when the body gives one and keeps the stored value otherwise, so an empty body changes nothing |
| ExpenseStore.Store.UpdateExpense | backend/controllers/expenseController.js:49-66 | 404 "Expense not found" for a missing record and 401 "User not authorized" for someone else's, both leaving the store unchanged; otherwise the record is replaced by the patched record, which is returned |
| ExpenseStore.Store.DeleteExpense | backend/controllers/expenseController.js:72-86 | 404 "Expense not found" for a missing record and 401 "User not authorized" for someone else's, both leaving the store unchanged; otherwise exactly that id is removed and reported |
| Session.IncludesIffOccurs | frontend/src/context/AuthContext.js:35 | `includes` holds exactly when the pattern occurs at some offset |
| Session.AbsentFirstCharacter | frontend/src/context/AuthContext.js:35-37 | a pattern whose first character is missing from the text does not occur in it |
| Session.ServerText | frontend/src/context/AuthContext.js:33 | the server's message when present and non-empty, otherwise the fallback |
| Session.LoginFailureMessage | frontend/src/context/AuthContext.js:32-41 | "Invalid credentials" in the text wins; otherwise "User not found" in the text; otherwise the text itself |
| Session.RegisterFailureMessage | frontend/src/context/AuthContext.js:52-59 | "User already exists" in the text gives "User already exists."; otherwise the text itself |
| Session.LoginFailureDefault | frontend/src/context/AuthContext.js:33-40 | a login failure without a server message reports "Login failed" |
| Session.RegisterFailureDefault | frontend/src/context/AuthContext.js:53-58 | a registration failure without a server message reports "Registration failed" |
| Session.InvalidCredentialsFirst | frontend/src/context/AuthContext.js:33-38 | for every server message, a text containing both "Invalid credentials" and "User not found" maps to "Invalid email or password." |
| Session.Session.Login | frontend/src/context/AuthContext.js:25-42 | on success the returned user becomes the session user; on failure the user is unchanged and the mapped message is returned |
| Session.Session.Register | frontend/src/context/AuthContext.js:44-60 | on success the new user is logged in; on failure the user is unchanged and the mapped message is returned |
| Session.Session.Logout | frontend/src/context/AuthContext.js:62-66 | no user afterwards |
| Session.Session.UpdateProfile | frontend/src/context/AuthContext.js:68-94 | without a user the update fails with "Failed to update profile"; on success only the name and email change, and the id and token are kept; on failure nothing changes and the server's message or the default is returned |
| Session.Session.ChangePassword | frontend/src/context/AuthContext.js:96-117 | the user never changes; success, or the server's message or "Failed to change password" |

## Left out

- Network, storage and navigation are left out: axios, `localStorage`, `navigate`, and loading the stored user at start-up (AuthContext.js:16-23). Each call's outcome is a parameter instead.
- Persisting the session user is not modelled, because `localStorage` writes are I/O.
- The record schema's validation is not modelled. Nor are the 400 it causes on create and the 500 catch-all replies: they depend on the store and the schema, which are not part of this model.
- The store's own checks that ids are valid ids are not modelled.
- Dates are day numbers, not millisecond timestamps or date strings. Parsing date strings is not modelled. The day count is written with the millisecond division, but only for whole days.
- Amounts are exact reals. `parseFloat`/`Number` parsing, `NaN`, and floating-point rounding are not modelled. Query amounts arrive already parsed, and an absent or empty query parameter is `None`. "0" is a truthy string in JavaScript, so a bound of 0 is `Some(0.0)`.
- ExpenseStore.Store.AddExpense: ids come from a counter rather than the store's object-id generator. The contract only promises a fresh id.
- ExpenseStore.Store.AddExpense: an `_id` in the request body is not modelled. The source spreads the body and overrides only `user`, so a client-chosen id would be kept; the model always assigns a fresh id.
- ExpenseStore.Store.UpdateExpense: the guard and the write are one atomic step. The source looks the record up and then updates it in a second store call, so a record deleted between the two calls yields a 200 reply with `null`; that interleaving is not modelled.
- ExpenseStore.Store.DeleteExpense: the guard and the removal are one atomic step. The source's separate lookup and delete calls, and any concurrent change between them, are not modelled.
- Malformed date or amount parameters are not modelled: the controller hands the parsed values to the store unchecked, and what the store then does (a failure reaching the 500 catch-all) is not part of this model.
- ExpenseStore.Store.GetExpenses: the relative order of records with the same date is not specified, matching a sort on date alone.
- ExpenseStore.Patched: the body cannot carry a new `_id`. Schema casting of body fields is not modelled.
- The JSX rendering and the chart's bar/pie switch are not modelled. They only display the computed values.

Behaviour the model takes from the code as written:

- An update body that carries `user` reassigns the record's owner, because the body is applied as given.
- Absent or empty listing constraints are dropped.
- The weekly and monthly averages are computed as `total / (days / 7)` and `total / (days / 30)`, which equal 7 and 30 daily averages.
