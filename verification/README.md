# Finance tracker: a verified model

This project models the logic of a personal finance tracker: an Express/Prisma
back end and a React web client. Users record incomes and expenses, set monthly
spending limits per category (budgets), define recurring series, save towards
goals, and read analytics and model-generated advice.

The model covers three layers.

- **The daily recurring-transaction job.** It materialises due series, switches
  off expired ones and advances each series' marker.
- **The REST controllers.** These cover transactions, recurring series, budgets,
  goals, analytics, the two AI endpoints (the current one and the older one kept
  in the client tree), and the Google sign-in callback.
- **The web client's computations.** These are the category-name normalisation,
  money formatting, the preference store, the budget dialog, and the display
  decisions of the budgets, dashboard, recurring, transactions and goal views.

Modelling conventions:

- The database is a sequence of records in insertion order. Ids come from a
  counter (`Records.FreshId`). A write returns the new table, or an error that
  maps to the HTTP status the controller answers with (`Common.Status`).
- The authenticated caller is a parameter, and so is anything read from the
  clock: "today", "now", the start of the one- and three-month windows, and the
  days to a deadline.
- Replies of the generative-model services are parameters. Their prompts are not
  modelled.
- Amounts are real numbers.
- Dates are proleptic Gregorian calendar dates without time of day.
  `Calendar.ToDays` gives each date an ordinal; `Before` and `IsAfter` compare
  ordinals.
- JavaScript truthiness of request fields is written out: `undefined`, `null`,
  `0` and `""` are falsy (`Common.TruthyNumber`, `Common.TruthyString`).
- Dividing by zero is modelled explicitly where the result decides what is shown.
  A budget with limit 0 has no percentage, and a goal with target 0 has an
  infinite or NaN progress.

Details of the code that the model keeps as they are:

- The type and frequency of a series are free strings, not enumerations. A series
  whose type is neither "income" nor "expense" is processed like any other.
- The amount of a series is not required to be positive.
- The pass returns `processedCount`; the code only logs it.
- The three client pages that keep a `CATEGORY_NAME_TO_KEY` table do not share
  one. The recurring page's table is a copy of the dashboard's, so one function
  serves both, and `CategoryKeys.RecurringAgreesWithDashboard` states that they
  agree. The budgets page's table is a smaller one.
- The transactions page keeps an older, case-sensitive table. It maps
  "Образование" to `other`, where the other tables give `education`.

## Model

| member | source | states |
|---|---|---|
| RecurringProcessor.GetNextDate | backend/src/utils/processRecurringTransactions.ts:62-77 | The next due date is strictly after the marker. It is one day later for "daily" and seven for "weekly". For "yearly" it is the marker a calendar year on (365 or 366 days). For "monthly" and every unknown tag it is the marker a calendar month on (28 to 31 days). |
| RecurringProcessor.UnknownFrequencyIsMonthly | backend/src/utils/processRecurringTransactions.ts:74-75 | An unknown frequency tag schedules exactly like "monthly". |
| RecurringProcessor.Generated | backend/src/utils/processRecurringTransactions.ts:35-44 | A due series produces a transaction with its owner, amount, type and category, dated today. Its description is the series' own, or "[AUTO] " followed by the category when the series has none. |
| RecurringProcessor.Advance | backend/src/utils/processRecurringTransactions.ts:16-53 | One pass changes a series only in its active flag and marker. An inactive series is untouched, an expired active one is switched off, and a moved marker always equals today. |
| RecurringProcessor.Emitted | backend/src/utils/processRecurringTransactions.ts:9-33 | A series fires exactly when it is active, not past its end date, and its next due date is not after today. |
| RecurringProcessor.ProcessOne | backend/src/utils/processRecurringTransactions.ts:16-53 | The loop body for one series yields that series' advanced state and its emission. |
| RecurringProcessor.ProcessRecurringTransactions | backend/src/utils/processRecurringTransactions.ts:9-56 | The pass advances every series and creates exactly the emissions of the table in order. `processedCount` equals the number of created transactions. |
| RecurringProcessor.EmissionsAtMostOnePerSeries | backend/src/utils/processRecurringTransactions.ts:33-53 | A pass creates at most one transaction per series, all dated today. A gap of several periods is caught up by one transaction. |
| RecurringProcessor.ExpiredNeverFires | backend/src/utils/processRecurringTransactions.ts:18-24 | A series past its end date never fires, keeps its marker and is switched off. A series whose end date is today is not expired. |
| RecurringProcessor.SeriesIdempotentSameDay | backend/src/utils/processRecurringTransactions.ts:28-50 | A series that fired today is not due again today. |
| RecurringProcessor.SecondRunSameDayCreatesNothing | backend/src/utils/processRecurringTransactions.ts:9-56 | Running the pass a second time on the same day creates nothing. |
| RecurringProcessor.MarkerMonotone | backend/src/utils/processRecurringTransactions.ts:28-50 | The marker never moves backwards. When a series with a marker fires, the old marker is strictly before today. |
| RecurringProcessor.MonthlyScenario | backend/src/utils/processRecurringTransactions.ts:28-50 | A monthly series started 2025-01-01 fires on that day and sets its marker to it. Its next due date is 2025-02-01, so it does not fire on 2025-01-15. |
| Calendar.AddOneMonth | backend/src/utils/processRecurringTransactions.ts:70-71 | The result is in the following month, wrapping December to January of the next year. It keeps the day of the month, clamped to that month's last day, and lies 28 to 31 days ahead. |
| Calendar.AddOneYear | backend/src/utils/processRecurringTransactions.ts:72-73 | The result keeps the month, is in the next year, keeps the day clamped to the month's last day (29 February becomes 28 February), and lies 365 or 366 days ahead. |
| Calendar.AddDays | backend/src/utils/processRecurringTransactions.ts:66-69 | Adding n days moves the ordinal by exactly n. |
| Calendar.OrdinalIsCalendarOrder | backend/src/utils/processRecurringTransactions.ts:18 | Comparing day ordinals is comparing dates by year, month and day, and equal ordinals mean equal dates. |
| Records.Authorize | backend/src/controllers/budgetController.ts:121-131 | 404 exactly when no record holds the id. 403 only when the record holding it belongs to another user. Otherwise the result is the caller's record with that id. |
| Records.AuthorizeUnique | backend/src/controllers/recurringTransactionController.ts:75-81 | With unique ids, the caller gets the record holding the id when they own it, and 403 otherwise. |
| Records.AuthorizeAfterUpdate | backend/src/controllers/recurringTransactionController.ts:146-159 | A write that keeps ids and owners keeps every authorization decision, now applied to the updated record. |
| Records.FindOwned | backend/src/controllers/goalController.ts:64-70 | 404 exactly when the caller owns no record with the id, so another user's record looks missing. Otherwise the result is the caller's record with that id. |
| Records.DeleteWhere | backend/src/controllers/budgetController.ts:169-171 | Deleting by id keeps exactly the records with other ids, in their order. |
| Records.DeleteOneRecord | backend/src/controllers/recurringTransactionController.ts:113-123 | With unique ids, deleting a present id removes exactly one record. |
| TransactionController.List | backend/src/controllers/transactionController.ts:11-26 | The list holds exactly the caller's transactions matching the type, date range and category filters, latest date first, each as often as stored. |
| TransactionController.ListIgnoresNonMatching | backend/src/controllers/transactionController.ts:11-26 | Adding a transaction the query does not match leaves the list unchanged. |
| TransactionController.EmptyQueryListsAll | backend/src/controllers/transactionController.ts:11-26 | With no query parameters the list holds every transaction of the caller. |
| TransactionController.NarrowingQueryShrinksList | backend/src/controllers/transactionController.ts:11-26 | Adding a type filter never adds a transaction to the list. |
| TransactionController.GetById | backend/src/controllers/transactionController.ts:44-53 | 404 exactly when the caller has no transaction with that id. Otherwise the result is that transaction. |
| TransactionController.Create | backend/src/controllers/transactionController.ts:72-93 | 400 when amount, type or category is falsy, and 400 when the type is neither income nor expense. Otherwise one transaction of the caller with a fresh id and the given fields is appended; it is dated now when no date is given, and an empty description is stored as null. |
| TransactionController.ApplyUpdate | backend/src/controllers/transactionController.ts:133-143 | Amount, type, category and date are replaced only by truthy values. The description is replaced whenever it is present, even by an empty one. Id and owner never change. |
| TransactionController.Update | backend/src/controllers/transactionController.ts:116-148 | 404 unless the caller owns the id, then 400 for a non-empty invalid type. Otherwise only that row changes, by the conditional spread of the given fields, and the answer is that updated row as stored. |
| TransactionController.Delete | backend/src/controllers/transactionController.ts:165-178 | 404 exactly as for reading by id. Otherwise the rows with that id are removed and the others keep their order. |
| TransactionController.WritesKeepKindsValid | backend/src/controllers/transactionController.ts:78-82 | Create, update and delete keep every stored type "income" or "expense". |
| TransactionController.OthersTransactionsAreNotFound | backend/src/controllers/transactionController.ts:116-125 | Reading, updating or deleting another user's transaction answers 404. |
| RecurringController.List | backend/src/controllers/recurringTransactionController.ts:11-14 | The list holds exactly the caller's series, most recently created first. |
| RecurringController.Create | backend/src/controllers/recurringTransactionController.ts:33-51 | 400 unless amount, type, category, frequency and start date are given. Otherwise an active, never-processed series of the caller with a fresh id and the given fields is appended. |
| RecurringController.ApplyUpdate | backend/src/controllers/recurringTransactionController.ts:83-90 | An update writes only amount, description and active flag, and each only when given. |
| RecurringController.Update | backend/src/controllers/recurringTransactionController.ts:75-92 | 404 or 403 exactly as authorization decides. Otherwise only the series with that id changes, and the answer is that updated series as stored. |
| RecurringController.EmptyUpdateIsIdentity | backend/src/controllers/recurringTransactionController.ts:83-90 | An update naming no field leaves the table as it was. |
| RecurringController.Delete | backend/src/controllers/recurringTransactionController.ts:113-123 | 404 or 403 exactly as authorization decides. Otherwise the series is removed and the others keep their order. |
| RecurringController.DeleteRemovesOne | backend/src/controllers/recurringTransactionController.ts:113-123 | With unique ids, deleting one's own series removes exactly one row, and deleting another user's answers 403. |
| RecurringController.Toggle | backend/src/controllers/recurringTransactionController.ts:146-159 | 404 or 403 exactly as authorization decides. Otherwise only the active flag of that series is negated. |
| RecurringController.ToggleTwiceRestores | backend/src/controllers/recurringTransactionController.ts:146-159 | Toggling the same series twice succeeds and restores the table. |
| BudgetController.FirstDay | backend/src/controllers/budgetController.ts:32 | The first day of a budget month lies in that month and is day 1. |
| BudgetController.MonthWindowIsCalendarMonth | backend/src/controllers/budgetController.ts:31-37 | The corrected spending window holds exactly the dates of the budget's calendar month. |
| BudgetController.AsWrittenWindowEastOfUtc | backend/src/controllers/budgetController.ts:31-37 | On a server at or east of UTC, the window as written holds exactly the month's dates. |
| BudgetController.AsWrittenWindowWestOfUtc | backend/src/controllers/budgetController.ts:31-37 | On a server west of UTC, the window as written holds only the first day of the month. |
| BudgetController.AsWrittenWindowMissesMidMonth | backend/src/controllers/budgetController.ts:31-37 | At UTC−5 a March expense dated 2025-03-15 falls outside the window as written for "2025-03". |
| BudgetController.SpentIsCalendarMonthTotal | backend/src/controllers/budgetController.ts:26-47 | The spent amount is the total of the caller's expenses of that category dated in that calendar month. |
| BudgetController.UnrelatedTransactionNotSpent | backend/src/controllers/budgetController.ts:26-43 | Incomes, other users' transactions and other categories do not change the spent amount. |
| BudgetController.View | backend/src/controllers/budgetController.ts:45-50 | Spent plus remaining is the limit. The percentage exists exactly when the limit is non-zero, and it is spent as a percentage of the limit. |
| BudgetController.Listed | backend/src/controllers/budgetController.ts:13-21 | The listed budgets are exactly the caller's, restricted to the month when one is given. Read backwards they are a subsequence of the table, so the newest-created comes first. |
| BudgetController.GetBudgets | backend/src/controllers/budgetController.ts:11-58 | 500 exactly when a listed budget's month is not a "YYYY-MM" key. Otherwise each listed budget is shown with its calendar-month spending. |
| BudgetController.Create | backend/src/controllers/budgetController.ts:68-103 | 400 when category, limit or month is falsy, and 400 when the caller already has that category and month. Otherwise the budget is appended with a fresh id. |
| BudgetController.Update | backend/src/controllers/budgetController.ts:117-140 | 404 or 403 exactly as authorization decides. Otherwise only that budget's limit changes, and only when a truthy limit is given; the answer is the updated budget as stored. |
| BudgetController.Delete | backend/src/controllers/budgetController.ts:154-173 | 404 or 403 exactly as authorization decides. Otherwise the budget is removed and the others keep their order. |
| BudgetController.WritesKeepWellFormed | backend/src/controllers/budgetController.ts:77-92 | Create, update and delete keep (user, category, month) unique and every limit non-zero. |
| BudgetController.WellFormedHasPercentages | backend/src/controllers/budgetController.ts:49 | In such a table every listed budget has a finite percentage. |
| GoalController.List | backend/src/controllers/goalController.ts:11-14 | The list holds exactly the caller's goals, most recently created first. |
| GoalController.Create | backend/src/controllers/goalController.ts:32-44 | 400 unless title and target are truthy. Otherwise a goal with a fresh id is appended, with saved amount 0 unless a truthy one is given, and the given deadline. |
| GoalController.Merge | backend/src/controllers/goalController.ts:72-80 | Truthy title and target replace the stored ones. A present saved amount and a present deadline replace theirs, and an empty deadline clears it. |
| GoalController.EmptyMergeIsIdentity | backend/src/controllers/goalController.ts:72-80 | An update naming no field rewrites the goal unchanged. |
| GoalController.Update | backend/src/controllers/goalController.ts:64-82 | 404 unless the caller owns the goal. Otherwise only that goal changes, by the merge, and the answer is the merged goal as stored. |
| GoalController.Delete | backend/src/controllers/goalController.ts:99-109 | 404 unless the caller owns the goal. Otherwise exactly the goals with other ids remain, in their original order. |
| GoalController.AddProgress | backend/src/controllers/goalController.ts:128-148 | 400 for a missing or non-positive amount, checked before the lookup. Then 404 unless owned. Otherwise only the saved amount grows, by the amount. |
| GoalController.ProgressAccumulates | backend/src/controllers/goalController.ts:141-148 | Two contributions in a row raise the saved amount by their sum. |
| GoalController.FindOwnedAfterUpdate | backend/src/controllers/goalController.ts:133-139 | A write that keeps ids and owners keeps the owned lookup, applied to the updated goal. |
| GoalController.WritesKeepTargetsNonZero | backend/src/controllers/goalController.ts:32-34 | Create, update, delete and add-progress keep every target non-zero. |
| Ledger.OfKind | backend/src/controllers/analyticsController.ts:19-25 | The filtered list holds exactly the transactions of that exact type. |
| Ledger.OfKindTotal | backend/src/controllers/analyticsController.ts:19-25 | Summing the transactions of a type equals that type's bucket. |
| Ledger.IncomeExpenseBuckets | backend/src/controllers/analyticsController.ts:19-27 | When every type is income or expense, the two buckets account for every amount. |
| Ledger.PartsAddUp | backend/src/controllers/analyticsController.ts:61-65 | The monthly income side and the non-income side together account for every amount. |
| Ledger.ShareOf | backend/src/controllers/aiController.ts:78-83 | A category's entry holds its expense total. Its percentage exists exactly when total expense is non-zero, and it is the category's share of it. |
| Ledger.CategoryShares | backend/src/controllers/aiController.ts:71-84 | The entries are one per expense category, a permutation of the first-occurrence list, sorted by descending amount. |
| Ledger.CategorySharesAreExpenseTotals | backend/src/controllers/aiController.ts:71-84 | Every entry belongs to a category the caller has an expense in, and carries that category's total and share. |
| Ledger.CategorySharesCoverExpenses | backend/src/controllers/aiController.ts:71-84 | Every category of an expense has its entry in the list. |
| Grouping.BucketsCoverAll | backend/src/controllers/analyticsController.ts:30-35 | Summing into per-key buckets loses nothing: the buckets add up to the total. |
| AnalyticsController.Summarize | backend/src/controllers/analyticsController.ts:19-27 | Totals of exactly "income" and exactly "expense", the balance as their difference, and the transaction count. |
| AnalyticsController.SummaryCoversValidKinds | backend/src/controllers/analyticsController.ts:19-27 | With valid types, income plus expense is the total of all amounts. |
| AnalyticsController.CategoryData | backend/src/controllers/analyticsController.ts:30-40 | One slice per distinct expense category, in order of first occurrence, holding that category's total. |
| AnalyticsController.CategoryDataNames | backend/src/controllers/analyticsController.ts:30-40 | A category has a slice exactly when the caller has an expense in it. |
| AnalyticsController.CategoryDataAddsUp | backend/src/controllers/analyticsController.ts:30-40 | The slices add up to the summary's total expense. |
| AnalyticsController.SortedMonths | backend/src/controllers/analyticsController.ts:53-69 | The months that have transactions, each once, earliest first. |
| AnalyticsController.SortedMonthsFollowKeyOrder | backend/src/controllers/analyticsController.ts:55-69 | For four-digit years the order agrees with the string sort of the "YYYY-MM" keys. |
| AnalyticsController.MonthlyData | backend/src/controllers/analyticsController.ts:69-78 | Never more than six points. |
| AnalyticsController.MonthlyDataIsLastSix | backend/src/controllers/analyticsController.ts:69-78 | The points are the last six months with transactions, in calendar order, each with its income and non-income totals. |
| AnalyticsController.MonthBucketsCoverAll | backend/src/controllers/analyticsController.ts:53-66 | Every transaction lands in exactly one month bucket, on exactly one side. |
| AnalyticsController.TopExpenses | backend/src/controllers/analyticsController.ts:81-91 | At most five of the caller's expenses, largest first, and fewer only when there are fewer expenses. No expense appears more often than it does among the caller's expenses. |
| AnalyticsController.TopExpensesAreLargest | backend/src/controllers/analyticsController.ts:81-84 | An expense left out of the top five is no larger than any shown. |
| AnalyticsController.ChangePercent | backend/src/controllers/analyticsController.ts:102-104 | The relative change of this month's spending over last month's, or 0 when last month's is not positive. It is positive exactly when spending grew from a positive base. |
| AnalyticsController.Compare | backend/src/controllers/analyticsController.ts:94-104 | This month's and last month's non-income totals, and their change. |
| AnalyticsController.EmptyMonthIsZero | backend/src/controllers/analyticsController.ts:99-100 | A month without transactions compares as 0. |
| AnalyticsController.GetAnalytics | backend/src/controllers/analyticsController.ts:13-121 | Every part is computed from the caller's transactions only. The top expenses are the caller's, and the count is the number of the caller's transactions. |
| MonthKeys.NextMonth | backend/src/controllers/budgetController.ts:33-37 | The month after `m`, wrapping December into January. |
| MonthKeys.PrevMonth | backend/src/controllers/analyticsController.ts:96-97 | The month before `m`, wrapping January into December. |
| MonthKeys.MonthKeyRoundTrip | backend/src/controllers/budgetController.ts:32 | A "YYYY-MM" key of a four-digit year reads back to its month. |
| MonthKeys.MonthKeyInjective | backend/src/controllers/analyticsController.ts:55 | Different months of four-digit years have different keys. |
| MonthKeys.MonthKeyOrder | backend/src/controllers/analyticsController.ts:69 | For four-digit years, the string order of keys is the order of months. |
| AiController.GetCurrencyName | backend/src/controllers/aiController.ts:6-13 | The code itself comes back exactly for English, other languages and other currencies. Hryvnia is "грн." in both Russian and Ukrainian. |
| AiController.MessageLanguage | backend/src/controllers/aiController.ts:51-59 | Russian and Ukrainian get their own message, and every other language gets English. |
| AiController.Recent | backend/src/controllers/aiController.ts:37-49 | The window holds exactly the caller's transactions dated on or after its start, each as often as it is stored, latest date first. |
| AiController.RecentIgnoresOthers | backend/src/controllers/aiController.ts:41-49 | Another user's transaction never changes the caller's window. |
| AiController.Summarize | backend/src/controllers/aiController.ts:63-84 | Totals of the exact types, the balance, and the first three entries of the sorted category list. |
| AiController.SummaryAccountsForAll | backend/src/controllers/aiController.ts:63-69 | With valid types, income plus expense is the window's total. |
| AiController.TopCategoriesAreLargest | backend/src/controllers/aiController.ts:134-141 | The top categories are expense categories of the window with their totals, and none left out spent more than one shown. |
| AiController.ReplyText | backend/src/controllers/aiController.ts:132 | A non-empty model reply is passed on as the model's text; an empty one is replaced by the fallback message. |
| AiController.AnalyzeFinances | backend/src/controllers/aiController.ts:15-151 | 503 exactly when the key is missing or the placeholder. An empty window answers the fixed message without a summary. A failed model call answers 500. Otherwise the advice is the model's non-empty reply, or the fallback when the reply is empty, and it comes with the window's summary. |
| AiController.AnalysisIgnoresOthers | backend/src/controllers/aiController.ts:41-49 | The caller's analysis does not depend on other users' data. |
| AiController.AnalysisLanguageFallback | backend/src/controllers/aiController.ts:21 | Without data, an unknown language gets the English message and a missing language gets the Russian one. |
| AiController.Months | backend/src/controllers/aiController.ts:199-216 | A month is listed exactly when some transaction falls in it. The months are distinct, non-empty when there is data, and no more than the transactions. |
| AiController.MonthlyAverage | backend/src/controllers/aiController.ts:199-218 | The average of the monthly buckets is the window's total over the number of distinct months in it. |
| AiController.PredictionsOf | backend/src/controllers/aiController.ts:311-314 | Each prediction is its category's non-income total over the number of months. |
| AiController.SpendingCategories | backend/src/controllers/aiController.ts:207-212 | The distinct categories of non-income transactions, each exactly once. |
| AiController.AverageByCategory | backend/src/controllers/aiController.ts:221-226 | One average per spending category: its total over the number of months. |
| AiController.RecurringTotalSnoc | backend/src/controllers/aiController.ts:229-242 | A series adds its amount to the recurring total exactly when it is an active series of the caller with that type. |
| AiController.Predict | backend/src/controllers/aiController.ts:302-317 | Expected income and expense are the monthly averages plus the recurring totals. The balance is their difference. |
| AiController.PredictExpenses | backend/src/controllers/aiController.ts:155-325 | 503 exactly when the key is missing. Fewer than ten transactions give the fixed message and no numbers. A failed call gives 500. Otherwise the forecast text is the model's non-empty reply, or the fallback when it is empty, and it comes with the predictions. |
| AiController.ShortHistoryNeedsNoModel | backend/src/controllers/aiController.ts:186-196 | With too little history the answer does not depend on the model. |
| AiController.ForecastAccountsForAll | backend/src/controllers/aiController.ts:216-218 | The averaged income and expense account for every transaction of the window exactly once. |
| LegacyAiController.FailureOf | frontend/aiController.ts:100-112 | 402 exactly for a spent quota, 500 for every other failure. |
| LegacyAiController.AdviceOf | frontend/aiController.ts:89 | A present, non-empty completion is passed on as the model's text. A missing or empty one is replaced by the fallback advice. |
| LegacyAiController.AnalyzeFinances | frontend/aiController.ts:9-113 | The empty window gets the Russian message. Errors come only from a failed call over a non-empty window. Otherwise the advice is the model's non-empty completion (or the fallback) and comes with the same summary as the back end's. |
| LegacyAiController.AgreesWithBackend | frontend/aiController.ts:36-98 | With a configured key and a non-empty reply, the older endpoint answers exactly as the newer one does for Russian. |
| Passport.NewUser | backend/src/config/passport.ts:36-44 | A new user gets a fresh id, the profile's first e-mail and its Google id. The name is set exactly when the display name is non-empty. |
| Passport.Authenticate | backend/src/config/passport.ts:12-50 | Sign-in fails exactly when no user has the Google id and the profile has no e-mail. A user found by Google id is returned as stored and the table is unchanged. Otherwise the first user with the first e-mail gets the Google id, in the table and in the result. Otherwise a new user built from the profile is appended and returned. |
| Passport.ExistingUsersKeepIdentity | backend/src/config/passport.ts:20-33 | Sign-in never changes an existing user's id, e-mail or name. |
| Passport.SignInIsIdempotent | backend/src/config/passport.ts:12-50 | Signing in twice with the same profile yields the same user and table as once. |
| CurrencyFormat.GetCurrencySymbol | frontend/src/utils/currency.ts:3-13 | Every currency has a symbol of one or two characters with no space in it, so the space `formatCurrency` adds is the only one beside it. |
| CurrencyFormat.SymbolsDistinct | frontend/src/utils/currency.ts:3-13 | Two currencies share a symbol only when they are the same. |
| CurrencyFormat.FormatCurrency | frontend/src/utils/currency.ts:15-30 | Hryvnia and rouble put symbol and space in front, zloty puts space and symbol behind, and the rest put the symbol directly in front. |
| CurrencyFormat.FormatRoundTrip | frontend/src/utils/currency.ts:15-30 | Stripping the symbol and its space from the formatted text gives back the rendered number. |
| CurrencyFormat.GetCurrencyName | frontend/src/utils/currency.ts:32-42 | Every currency has a Ukrainian name starting with a capital Cyrillic letter. |
| CurrencyFormat.NamesDistinct | frontend/src/utils/currency.ts:32-42 | Two currencies share a name only when they are the same. |
| CurrencyFormat.UseCurrency | frontend/src/utils/currency.ts:45-49 | The hook formats every amount in the currency the preferences hold. |
| CurrencyFormat.FormatFollowsCurrencyOnly | frontend/src/utils/currency.ts:45-49 | Switching the theme or the language never changes how money is shown. |
| ThemeStore.ToggleTheme | frontend/src/store/themeStore.ts:21-22 | Toggling always changes the mode and nothing else. |
| ThemeStore.SetLanguage | frontend/src/store/themeStore.ts:23 | Setting the language changes only the language. |
| ThemeStore.SetCurrency | frontend/src/store/themeStore.ts:24 | Setting the currency changes only the currency. |
| ThemeStore.ToggleInvolutive | frontend/src/store/themeStore.ts:21-22 | Toggling twice restores the state. |
| ThemeStore.ActionsCommute | frontend/src/store/themeStore.ts:21-24 | The actions touch different fields, so their order does not matter, and setting twice is setting once. |
| ThemeStore.EveryStateReachable | frontend/src/store/themeStore.ts:18-24 | Every state is reachable from the first visit's state (dark, Ukrainian, hryvnia). |
| BudgetForm.OptionAt | frontend/src/components/BudgetFormDialog.tsx:57-66 | Option i names the month i months after January of last year. |
| BudgetForm.GenerateMonthOptions | frontend/src/components/BudgetFormDialog.tsx:51-67 | The nested loop yields 36 options, option i being `OptionAt(i)`. |
| BudgetForm.OptionsAscend | frontend/src/components/BudgetFormDialog.tsx:57-63 | For four-digit years the options ascend both as months and as strings, and no two are equal. |
| BudgetForm.CurrentMonthOffered | frontend/src/components/BudgetFormDialog.tsx:57-63 | Every month of the current year is offered, with the key budgets store. |
| BudgetForm.ResetForm | frontend/src/components/BudgetFormDialog.tsx:71-85 | Editing loads the budget's category, limit and month. Adding starts empty in the selected month. |
| BudgetForm.Submit | frontend/src/components/BudgetFormDialog.tsx:87-111 | Editing sends only the limit to the budget's id. Adding sends category, limit and month. |
| BudgetForm.EditKeepsKey | frontend/src/components/BudgetFormDialog.tsx:93-96 | Saving an edit never changes any budget's category, month or owner. |
| BudgetForm.UntouchedEditChangesNothing | frontend/src/components/BudgetFormDialog.tsx:71-96 | Opening one's own budget and saving it untouched leaves the table as it was. |
| BudgetForm.EmptyFormRefused | frontend/src/components/BudgetFormDialog.tsx:79-101 | Saving the freshly opened empty form is refused for missing fields. |
| CategoryKeys.BudgetsName | frontend/src/pages/BudgetsPage.tsx:38-64 | The budgets table answers only with spending keys, only for non-empty names without `_`. A name it renames does not start with a Latin lower-case letter. |
| CategoryKeys.DashboardName | frontend/src/pages/DashboardPage.tsx:42-79 | The dashboard table answers only with English keys, only for non-empty names without `_`. A name it renames does not start with a Latin lower-case letter. |
| CategoryKeys.KeysNameThemselves | frontend/src/pages/DashboardPage.tsx:42-79 | Each table reads every key it can answer with as that key itself. |
| CategoryKeys.EnglishNamesSelf | frontend/src/pages/BudgetsPage.tsx:38-64 | An English word a table knows is mapped to itself. |
| CategoryKeys.RecurringAgreesWithDashboard | frontend/src/pages/RecurringTransactionsPage.tsx:43-85 | The recurring page's normalisation agrees with the dashboard's on every name. |
| CategoryKeys.GetCategoryKey | frontend/src/pages/BudgetsPage.tsx:66-69 | A name the table knows after lower-casing and trimming gets its English key. Any other gets its words joined by `_`. The result never contains white space. |
| Text.Trim | frontend/src/pages/BudgetsPage.tsx:67 | The result is the stretch of the input that starts right after its leading white space and is followed only by white space. It neither starts nor ends with white space. An input with no white space at either end is returned unchanged. |
| Text.UnderscoreWhitespace | frontend/src/pages/BudgetsPage.tsx:68 | The result holds no white space. It equals the input exactly when the input holds none, and otherwise contains `_`. Every other character comes from the input. |
| Text.UnderscoreRun | frontend/src/pages/BudgetsPage.tsx:68 | Text without white space is kept, the maximal white-space run after it becomes one `_`, and the rest is replaced the same way. |
| CategoryKeys.GetCategoryKeyIdempotent | frontend/src/pages/DashboardPage.tsx:81-84 | Normalising a key a second time gives the same key. |
| CategoryKeys.RussianCapitalized | frontend/src/pages/BudgetsPage.tsx:66-69 | A capitalised Russian name reaches its key: "Еда" gives `food`. |
| CategoryKeys.UkrainianName | frontend/src/pages/BudgetsPage.tsx:66-69 | A Ukrainian name reaches the same key: "їжа" gives `food`. |
| CategoryKeys.RussianCapitals | frontend/src/pages/DashboardPage.tsx:81-84 | Letter case does not matter: "ЗАРПЛАТА" gives `salary`. |
| CategoryKeys.UnknownNameUnderscored | frontend/src/pages/BudgetsPage.tsx:66-69 | An unknown name keeps its words, lower-cased and joined by `_`: "Pet Care" gives `pet_care`. |
| CategoryKeys.LegacyName | frontend/src/pages/TransactionsPage.tsx:52-66 | The older table maps each of its exact-case Russian names to an English key different from the name. |
| CategoryKeys.LegacyCategoryKey | frontend/src/pages/TransactionsPage.tsx:68-70 | A name in the older table gets its key, and any other name is shown unchanged. |
| CategoryKeys.LegacyEducationDisagrees | frontend/src/pages/TransactionsPage.tsx:59 | The transactions list shows "Образование" as `other`, while the dashboard gives `education`. |
| CategoryKeys.LegacyIsCaseSensitive | frontend/src/pages/TransactionsPage.tsx:68-70 | The older table is case-sensitive: "еда" stays "еда" there, while the dashboard gives `food`. |
| Display.Cap | frontend/src/pages/BudgetsPage.tsx:211 | The bar value is at most 100 and at most the input, and equals the input exactly when the input is at most 100. |
| Display.CapMonotone | frontend/src/components/GoalCard.tsx:112 | A larger input never gives a smaller bar, and a full bar stays full. |
| Display.FullAtWhole | frontend/src/components/GoalCard.tsx:38 | A part of a positive whole is at least 100 percent exactly when it reaches the whole. |
| Display.LocaleOrEnglish | frontend/src/pages/RecurringTransactionsPage.tsx:87-96 | Russian and Ukrainian get their locales, and every other language gets US English. |
| Display.LocaleOrUkrainian | frontend/src/pages/TransactionsPage.tsx:72-83 | Russian and English get their locales, and every other language gets Ukrainian. |
| Display.LocalesAgreeOnOfferedLanguages | frontend/src/components/GoalCard.tsx:41-48 | The two locale choices agree exactly on ru, uk and en. For other languages one falls back to English, the other to Ukrainian. |
| BudgetsPage.Percent | frontend/src/pages/BudgetsPage.tsx:135-139 | A missing percentage compares as 0. |
| BudgetsPage.ProgressColor | frontend/src/pages/BudgetsPage.tsx:135-139 | Red from 90 percent, amber from 75, green below. |
| BudgetsPage.StatusIcon | frontend/src/pages/BudgetsPage.tsx:141-149 | Red icon from 100 percent, amber from 90, green below. |
| BudgetsPage.BorderColor | frontend/src/pages/BudgetsPage.tsx:183 | The border follows the same thresholds as the bar. |
| BudgetsPage.AlertOf | frontend/src/pages/BudgetsPage.tsx:251-257 | "Exceeded" from 100 percent, "approaching" from 90, and no alert below. |
| BudgetsPage.RemainingColor | frontend/src/pages/BudgetsPage.tsx:245 | The remainder is red exactly when it is negative. |
| BudgetsPage.CardOf | frontend/src/pages/BudgetsPage.tsx:183-257 | The card's title key, border, icon, bar, alert and remainder colour follow the budget's percentage and remainder. |
| BudgetsPage.CardSignalsAgree | frontend/src/pages/BudgetsPage.tsx:183-257 | The icon, border, bar colour and alert never contradict each other. |
| BudgetsPage.SignalsMonotone | frontend/src/pages/BudgetsPage.tsx:135-149 | A higher percentage never gives a calmer colour, icon or alert. |
| BudgetsPage.CardReadsSpending | frontend/src/pages/BudgetsPage.tsx:183-257 | For a positive limit: "exceeded" and a full bar exactly when spending reaches the limit; an alert exactly when spending reaches nine tenths of it; a red remainder exactly when spending passes it. |
| DashboardPage.BalanceColor | frontend/src/pages/DashboardPage.tsx:275 | The balance is green exactly when it is not negative, and a missing response reads as 0. |
| DashboardPage.ChangeViewOf | frontend/src/pages/DashboardPage.tsx:440-443 | The change is red with a `+` exactly when it is positive, and green and unsigned otherwise. |
| DashboardPage.LoadingLooksCalm | frontend/src/pages/DashboardPage.tsx:275-443 | Before the response arrives, the balance and the change both look calm. |
| DashboardPage.DashboardReadsTransactions | frontend/src/pages/DashboardPage.tsx:275-443 | The balance is green exactly when income covers expense. The change is red with `+` exactly when last month had spending and this month's is larger. |
| RecurringPage.CardOf | frontend/src/pages/RecurringTransactionsPage.tsx:205-274 | `+` and green exactly for income. The card is dimmed exactly when paused. The description is shown exactly when non-empty. End date and last run are shown when set. The switch shows the active flag. |
| RecurringPage.ToggleChangesOnlyActivity | frontend/src/pages/RecurringTransactionsPage.tsx:205-274 | Toggling through the endpoint changes only the dimming and the switch of that card. |
| RecurringPage.CardAfterPass | frontend/src/pages/RecurringTransactionsPage.tsx:259-274 | After a pass, a fired series shows today as its last run, an expired one is dimmed and off, and every other card is unchanged. |
| TransactionsPage.SearchedText | frontend/src/pages/TransactionsPage.tsx:113 | A missing description searches as the empty string. |
| TransactionsPage.Search | frontend/src/pages/TransactionsPage.tsx:109-115 | The result keeps the loaded order and holds exactly the transactions whose lower-cased description contains the lower-cased query; an empty query keeps all. |
| TransactionsPage.EmptyQueryKeepsAll | frontend/src/pages/TransactionsPage.tsx:111 | An empty query keeps the whole list as it is. |
| TransactionsPage.SearchIgnoresQueryCase | frontend/src/pages/TransactionsPage.tsx:114 | The letter case of the query does not matter. |
| TransactionsPage.LongerQueryNarrows | frontend/src/pages/TransactionsPage.tsx:109-115 | A query that contains another, ignoring case, finds only transactions the shorter one finds. |
| TransactionsPage.Body | frontend/src/pages/TransactionsPage.tsx:237-244 | Rows when something matches. "Add your first" exactly when nothing is loaded, and "no matches" exactly when something is loaded but nothing matches. |
| TransactionsPage.NoQueryNoMismatch | frontend/src/pages/TransactionsPage.tsx:237-244 | Without a query the table never reports that nothing matched. |
| GoalCard.Progress | frontend/src/components/GoalCard.tsx:38 | Progress is saved over target in percent for a non-zero target. It is plus or minus infinity for a zero target and a non-zero saved amount, and NaN when both are zero. |
| GoalCard.BarOf | frontend/src/components/GoalCard.tsx:112 | The bar is the capped progress, full for infinite progress. |
| GoalCard.MonthlyNeeded | frontend/src/components/GoalCard.tsx:50-56 | With a deadline ahead, the remainder spread over the 30-day months left, and 0 otherwise. It is positive exactly when the goal is not reached. |
| GoalCard.CardOf | frontend/src/components/GoalCard.tsx:134-188 | The remainder is shown exactly when the goal is not reached. Days left are shown exactly when the deadline is ahead. The deadline chip warns under 30 days. The monthly need is shown exactly when the deadline is ahead and the goal is not reached. |
| GoalCard.ExactlyOneAction | frontend/src/components/GoalCard.tsx:165-188 | Never both the "completed" chip and the add button. One of them is shown unless target and saved amount are both 0. |
| GoalCard.CompletedMeansTargetReached | frontend/src/components/GoalCard.tsx:119-188 | For a positive target the card is complete exactly when the target is reached. A complete card has a full bar and shows no remainder or monthly need. |
| GoalCard.AddingRemainderCompletes | frontend/src/components/GoalCard.tsx:165-188 | Adding the remaining amount through the add-progress endpoint completes a goal with a positive target. |

## Left out

- `AnalyticsController.Compare` and `AnalyticsController.GetAnalytics` require that today is later than January of year 1, so that the previous month exists. The source would build a date in year 0 there.
- Rounding is not modelled. `Math.round` in the analytics, advice and forecast answers is left out, and so are `toFixed` and `parseFloat` of request fields. Amounts are exact reals, so the model's totals are the unrounded ones.
- NaN and non-numeric request fields are not modelled: a numeric field is absent, zero or a number.
- The `401` branches (`!req.user`) are not modelled. The authentication middleware is not part of this model, and the caller is a parameter.
- Thrown store errors and the `500` answers they cause are not modelled. The exceptions are the model-call failures of the AI endpoints and the date query of the budget list.
- The clock is not modelled. `today`, `now`, the one- and three-month window starts and `differenceInDays` are parameters. Time of day and the server's time zone are dropped, except in the budget-window finding below.
- In `predictExpenses` the month keys come from `toISOString`, so they are UTC months. The model uses the calendar month of the date.
- The prompt texts, the generative-model and chat-completion calls, and logging are not modelled. The replies are parameters.
- The order of `Object.entries` / `Object.keys` is taken to be first-insertion order. The special order JavaScript gives integer-like keys is not modelled, and neither are keys inherited from `Object.prototype` (such as "constructor").
- `incomeByCategory` of the analytics endpoint is computed but never sent, so it is left out.
- `AnalyticsController.MonthlyData`: the label of a point is its month, and the `split('-')` to two digits is left to `Text.Pad2`.
- `BudgetController.GetBudgets`: a month that is not a "YYYY-MM" key with a four-digit year is modelled as the date query failing (500). What the database would do with such a date is not modelled.
- `Calendar.AddOneMonth`: date-fns `addMonths`/`addYears` are modelled as clamping the day to the last day of the target month.
- `Text.ToLower`: lower-casing covers ASCII A–Z and the Cyrillic capitals U+0400–U+042F and U+0490 only. Other capitals that `toLowerCase` lowers, such as the Latin-1 letters À–Þ, are kept unchanged, so full Unicode case mapping is not modelled.
- `Text.IsWhitespace` is a fixed set: tab, line feed, vertical tab, form feed, carriage return, space, U+00A0, U+1680, U+2000 to U+200A, U+2028, U+2029, U+202F, U+205F, U+3000 and U+FEFF. ECMAScript takes its space separators from the Unicode version the engine implements, and the model does not follow changes to that category.
- `AnalyticsController.SortedMonths`: months are ordered by calendar order. The source sorts "year-month" strings built from the unpadded `getFullYear()` (analyticsController.ts:55, :69). The two orders agree for years 1000 to 9999 and differ outside them: "999-12" sorts after "1000-01" as a string.
- The React rendering, translations (`t`), date formatting, `toLocaleString` and chart components are not modelled. Number rendering is the parameter `render` of `CurrencyFormat.FormatCurrency`.
- The search debounce delay (300 ms) is not modelled. The query is the debounced one.
- The persistence of the preference store in local storage is not modelled.
- `BudgetsPage.Percent`: a budget whose limit is 0 has a `null` percentage in JSON. `budget.percentage.toFixed` on it would throw in the page, which is not modelled; comparisons with it read as 0.
- The scheduler that triggers the recurring job, and concurrency between the job and owner edits, are not modelled.
- Registration, password login and the JWT routes (`authController.ts`, `auth.ts`) are not modelled. They are plumbing around a hashing library and token signing.

## Findings

| source | as written | input that shows it | evidently intended | confidence | as-written member | corrected member |
|---|---|---|---|---|---|---|
| backend/src/controllers/budgetController.ts:31-37 | The lower bound parses "YYYY-MM-01" as UTC midnight. The upper bound reads that instant's local year and month and builds local midnight of the following month. West of UTC that instant is still in the previous month locally, so the window ends at local midnight of day 1, only a few hours after it starts. | Server at UTC−5, budget month "2025-03", expense dated 2025-03-15: the expense is not counted as spent. | The window is the whole calendar month of the budget. | not executed | BudgetController.AsWrittenWindowMissesMidMonth | BudgetController.MonthWindowIsCalendarMonth |
