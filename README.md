# Spending tracker: verified model of its core

This project models the core logic of a personal spending tracker for Android, written in Kotlin with
Room and Jetpack Compose. It has five parts:

- **The `transactions` table and its DAO.** Rows are held as an in-memory sequence.
  - The `@Query` reads are functions over that sequence: filters by category and by an inclusive date range, `ORDER BY date DESC`, `SELECT DISTINCT category … ORDER BY category`, and `SUM` that is NULL on no rows.
  - `@Insert`, `@Update`, `@Delete` and `DELETE FROM` are methods of the class `TransactionTable`, which changes its rows in place.
- **The dashboard.** The `combine` lambda of `loadSpendingData` builds a per-category breakdown. It starts from the category list, the (optionally date-scoped) total, and per-category sums, any of which may fail. It keeps the categories with a positive sum, computes each one's share of the total, and stably sorts the result by amount, largest first. Around it, `DashboardViewModel` manages the loading, error and date-range state.
- **The new-transaction form.** `NewTransactionViewModel` keeps an amount in cents taken from typed digits (at most eight), a category chosen from case-insensitive suggestions or typed fresh, a location, and a date and time. Saving validates the amount and category, inserts one row and resets the form.
- **The transaction detail screen.** `TransactionDetailViewModel`:
  - looks a transaction up by id and fills in the edit fields;
  - lets each editor clear its own error flag;
  - checks four validation flags on save, then replaces the row and reloads;
  - restores the loaded row on cancel;
  - deletes the row, calling the completion callback only on success.
- **The currency keypad.** In `NewTransactionFragment`, the buttons C, ⌫ and 0-9 edit a display text. The text is reformatted each time by `formatCurrency`, which reads a `Long` through `toLongOrNull` and renders it with `"%d.%02d"` using Kotlin's truncating `/` and `%`.

Amounts are integer cents throughout. Dates are integer epoch milliseconds. Date formatting is passed in as functions. A failing store call or coroutine is an explicit `Option<string>` (the exception message) or a `bool`. Each asynchronous load is one synchronous step: a method the caller invokes after the state change that starts it.

Modules, one per file: `Wrappers` (`Option`), `Text` (the ASCII string operations of the Kotlin library the app uses, and the decimal text of an amount), `Sorting` (a stable descending sort), `TransactionDao`, `Dashboard`, `FormFields` (what both forms share), `NewTransaction`, `TransactionDetail`, `CurrencyKeypad`.

## Model

All source paths below are under `app/src/main/java/com/arthur/spending/`, written out in full.

| member | source | states |
|---|---|---|
| TransactionDao.Where | app/src/main/java/com/arthur/spending/data/TransactionDao.kt:11-18 | the WHERE clause keeps a row exactly when it matches the category and/or inclusive range, each row as often as it occurs |
| TransactionDao.Select | app/src/main/java/com/arthur/spending/data/TransactionDao.kt:8-18 | a query returns exactly the matching rows (as a multiset) ordered by date non-increasing |
| TransactionDao.GetAllTransactions | app/src/main/java/com/arthur/spending/data/TransactionDao.kt:8-9 | the result is a permutation of the table's rows, latest date first |
| TransactionDao.GetTransactionsByCategory | app/src/main/java/com/arthur/spending/data/TransactionDao.kt:11-12 | exactly the rows whose category equals the argument (exact match), latest first |
| TransactionDao.GetTransactionsByDateRange | app/src/main/java/com/arthur/spending/data/TransactionDao.kt:14-15 | exactly the rows with `startDate <= date <= endDate`, both ends inclusive, latest first |
| TransactionDao.GetTransactionsByCategoryAndDateRange | app/src/main/java/com/arthur/spending/data/TransactionDao.kt:17-18 | exactly the rows of the category within the inclusive range, latest first |
| TransactionDao.CategoryAndRangeIsIntersection | app/src/main/java/com/arthur/spending/data/TransactionDao.kt:14-18 | a row is in the category+range result iff it is in both the category result and the range result |
| TransactionDao.StrLessTotal | app/src/main/java/com/arthur/spending/data/TransactionDao.kt:20 | the text collation used by ORDER BY category orders any two distinct strings (with StrLessIrreflexive and StrLessTransitive: a strict total order) |
| TransactionDao.InsertCategory | app/src/main/java/com/arthur/spending/data/TransactionDao.kt:20-21 | adding a category to a strictly ascending list keeps it strictly ascending and adds exactly that category |
| TransactionDao.GetAllCategories | app/src/main/java/com/arthur/spending/data/TransactionDao.kt:20-21 | strictly ascending, no duplicates, and contains exactly the categories that occur in the rows |
| TransactionDao.Total | app/src/main/java/com/arthur/spending/data/TransactionDao.kt:23-27 | SUM is NULL iff no row matches, otherwise the sum of the matching values |
| TransactionDao.GetTotalSpending | app/src/main/java/com/arthur/spending/data/TransactionDao.kt:23-24 | NULL iff the table is empty, otherwise the sum of every row's value |
| TransactionDao.GetTotalSpendingByCategory | app/src/main/java/com/arthur/spending/data/TransactionDao.kt:26-27 | NULL iff no row has the category, otherwise the sum of that category's values |
| TransactionDao.GetTotalSpendingByDateRange | app/src/main/java/com/arthur/spending/ui/dashboard/DashboardViewModel.kt:61-64 | (assumed query) NULL iff no row is in the inclusive range, otherwise the sum over those rows |
| TransactionDao.GetTotalSpendingByCategoryAndDateRange | app/src/main/java/com/arthur/spending/ui/dashboard/DashboardViewModel.kt:84-88 | (assumed query) NULL iff no row of the category is in the range, otherwise the sum over those rows |
| TransactionDao.CategoryTotalsAddUp | app/src/main/java/com/arthur/spending/data/TransactionDao.kt:20-27 | over any duplicate-free category list covering the matching rows, per-category sums (NULL as 0) add up to the overall sum, with or without a date range |
| TransactionDao.CategoryTotalsMakeTotalSpending | app/src/main/java/com/arthur/spending/data/TransactionDao.kt:20-27 | summing getTotalSpendingByCategory over getAllCategories (NULL as 0) equals getTotalSpending (NULL as 0) |
| TransactionDao.ReplaceById | app/src/main/java/com/arthur/spending/data/TransactionDao.kt:32-33 | update by primary key: same length; each row carrying the key becomes the new row, each other row stays as it was |
| TransactionDao.RemoveById | app/src/main/java/com/arthur/spending/data/TransactionDao.kt:35-36 | delete by primary key: exactly the rows with other keys remain, each as often as before; an absent key leaves the rows unchanged |
| TransactionDao.ReplaceByIdKeepsKeys | app/src/main/java/com/arthur/spending/data/TransactionDao.kt:32-33 | update keeps keys unique, is a no-op for an absent key, and puts the new row in the table when the key is present |
| TransactionDao.RemoveByIdKeepsKeys | app/src/main/java/com/arthur/spending/data/TransactionDao.kt:35-36 | delete keeps keys unique |
| TransactionDao.RemoveByIdIdempotent | app/src/main/java/com/arthur/spending/data/TransactionDao.kt:35-36 | deleting the same key twice is the same as deleting it once |
| TransactionDao.TransactionTable.constructor | app/src/main/java/com/arthur/spending/data/Transaction.kt:7-10 | a new table is empty, and no key has been issued yet |
| TransactionDao.TransactionTable.Insert | app/src/main/java/com/arthur/spending/data/TransactionDao.kt:29-30 | id 0 appends exactly one row under the fresh key lastId+1; an explicit new id appends the row as given; an explicit id already present inserts nothing and reports failure; keys stay unique |
| TransactionDao.TransactionTable.Update | app/src/main/java/com/arthur/spending/data/TransactionDao.kt:32-33 | the rows become ReplaceById of the old rows (only the row with the key changes); an absent key changes nothing; keys stay unique |
| TransactionDao.TransactionTable.Delete | app/src/main/java/com/arthur/spending/data/TransactionDao.kt:35-36 | the rows become RemoveById of the old rows by the argument's key only; keys stay unique |
| TransactionDao.TransactionTable.DeleteAll | app/src/main/java/com/arthur/spending/data/TransactionDao.kt:38-39 | the table is empty: every list query returns nothing and every total is NULL, for every category and range |
| Sorting.SortDesc | app/src/main/java/com/arthur/spending/ui/dashboard/DashboardViewModel.kt:110 | sortedByDescending: the result is a permutation of the input, non-increasing by the key |
| Sorting.SortDescIsStable | app/src/main/java/com/arthur/spending/ui/dashboard/DashboardViewModel.kt:110 | the elements sharing a key appear in the output in their input order |
| Sorting.SortDescKeepsSum | app/src/main/java/com/arthur/spending/ui/dashboard/DashboardViewModel.kt:110 | sorting leaves every sum over the elements unchanged |
| Dashboard.EntryFor | app/src/main/java/com/arthur/spending/ui/dashboard/DashboardViewModel.kt:82-106 | a category adds one slice iff its lookup succeeds with a positive sum; the slice carries that sum and sum/total*100; a failing lookup adds nothing |
| Dashboard.CollectedSlices | app/src/main/java/com/arthur/spending/ui/dashboard/DashboardViewModel.kt:81-107 | every collected slice comes from a listed category whose lookup gave exactly its positive amount, with percentage amount/total*100 |
| Dashboard.CollectedNames | app/src/main/java/com/arthur/spending/ui/dashboard/DashboardViewModel.kt:81-107 | a category is collected iff it is listed and its lookup succeeded with a positive sum, so a failing lookup drops only that category |
| Dashboard.CollectedDistinct | app/src/main/java/com/arthur/spending/ui/dashboard/DashboardViewModel.kt:81-107 | distinct input categories give slices with distinct categories |
| Dashboard.CollectedEntries | app/src/main/java/com/arthur/spending/ui/dashboard/DashboardViewModel.kt:79-107 | the three facts above together about the list the forEach loop builds |
| Dashboard.CollectedAppend | app/src/main/java/com/arthur/spending/ui/dashboard/DashboardViewModel.kt:81-107 | processing one more category appends exactly that category's slice, if any |
| Dashboard.Collected | app/src/main/java/com/arthur/spending/ui/dashboard/DashboardViewModel.kt:79-107 | the list the forEach loop builds; no contract of its own: CollectedEntries, CollectedSlices, CollectedNames, CollectedDistinct and CollectedAppend state what it holds |
| Dashboard.CollectedLength | app/src/main/java/com/arthur/spending/ui/dashboard/DashboardViewModel.kt:81-107 | the loop adds at most one slice per category |
| Dashboard.Breakdown | app/src/main/java/com/arthur/spending/ui/dashboard/DashboardViewModel.kt:68-110 | the combine result carries the total with NULL read as 0, and at most one slice per listed category; BreakdownEntries, BreakdownCategories and BreakdownOrder state the rest |
| Dashboard.Combine | app/src/main/java/com/arthur/spending/ui/dashboard/DashboardViewModel.kt:68-110 | the loop with mutableListOf/add followed by sortedByDescending computes exactly the reference Breakdown |
| Dashboard.BreakdownEntries | app/src/main/java/com/arthur/spending/ui/dashboard/DashboardViewModel.kt:69-103 | a NULL total reads as 0; no categories or total <= 0 gives an empty list with that total; every slice is positive, from the input list, its lookup succeeded, with a positive percentage amount/total*100 |
| Dashboard.BreakdownCategories | app/src/main/java/com/arthur/spending/ui/dashboard/DashboardViewModel.kt:81-110 | a category is in the breakdown iff it is listed and counted (lookup succeeded, positive); with distinct inputs, each category appears at most once |
| Dashboard.SortKeepsDistinctNames | app/src/main/java/com/arthur/spending/ui/dashboard/DashboardViewModel.kt:110 | sorting slices keeps their categories distinct |
| Dashboard.BreakdownOrder | app/src/main/java/com/arthur/spending/ui/dashboard/DashboardViewModel.kt:110 | slices are ordered by amount non-increasing, and slices with equal amounts keep the input category order |
| Dashboard.DateScope | app/src/main/java/com/arthur/spending/ui/dashboard/DashboardViewModel.kt:55 | hasDateFilter: a range is used iff both the start and the end date are set, and it is exactly those two dates |
| Dashboard.StoreLookup | app/src/main/java/com/arthur/spending/ui/dashboard/DashboardViewModel.kt:83-106 | the per-category sum read inside the loop (scoped or not), with the categories that throw; no contract of its own: HalfRangeIsUnscoped and BreakdownAccountsForTotal state it |
| Dashboard.StoreBreakdown | app/src/main/java/com/arthur/spending/ui/dashboard/DashboardViewModel.kt:52-110 | the dashboard result for a table and state; no contract of its own: HalfRangeIsUnscoped, BreakdownAccountsForTotal and LoadSpendingData state it |
| Dashboard.HalfRangeIsUnscoped | app/src/main/java/com/arthur/spending/ui/dashboard/DashboardViewModel.kt:55-91 | with only one end of the range set, the breakdown is the one over the unscoped total and the unscoped per-category lookups |
| Dashboard.PercentagesScale | app/src/main/java/com/arthur/spending/ui/dashboard/DashboardViewModel.kt:95 | the percentages of slices sum to their amounts' sum / total * 100 |
| Dashboard.CollectedAddsUp | app/src/main/java/com/arthur/spending/ui/dashboard/DashboardViewModel.kt:81-91 | with positive rows and no failing lookups, the collected amounts add up to the per-category totals |
| Dashboard.SortedSharesAddUp | app/src/main/java/com/arthur/spending/ui/dashboard/DashboardViewModel.kt:110 | after sorting, slices whose amounts make up the total still sum to it, and their shares sum to 100 |
| Dashboard.BreakdownAccountsForTotal | app/src/main/java/com/arthur/spending/ui/dashboard/DashboardViewModel.kt:58-110 | over a table of positive amounts with no failing lookups, the slices' amounts add up to the scoped total and their percentages to 100 |
| Dashboard.DashboardViewModel.constructor | app/src/main/java/com/arthur/spending/ui/dashboard/DashboardViewModel.kt:35-45 | the initial state is the default with the range set from the start of the current month to the end of today |
| Dashboard.DashboardViewModel.LoadSpendingData | app/src/main/java/com/arthur/spending/ui/dashboard/DashboardViewModel.kt:52-126 | success sets the list and total from the table's breakdown, isLoading false and error null, leaving the dates; a failure sets isLoading false and "Failed to load spending data: …" |
| Dashboard.DashboardViewModel.RefreshSpendingData | app/src/main/java/com/arthur/spending/ui/dashboard/DashboardViewModel.kt:130-134 | sets isLoading true and error null; nothing else changes |
| Dashboard.DashboardViewModel.SetDateRange | app/src/main/java/com/arthur/spending/ui/dashboard/DashboardViewModel.kt:136-144 | sets both dates and isLoading true; an earlier error stays |
| Dashboard.DashboardViewModel.ClearDateFilter | app/src/main/java/com/arthur/spending/ui/dashboard/DashboardViewModel.kt:146-154 | sets both dates to null and isLoading true; nothing else changes |
| Text.RemoveChar | app/src/main/java/com/arthur/spending/ui/newtransaction/NewTransactionViewModel.kt:86 | the character is gone, every other character is kept, and a text without it is unchanged |
| Text.FilterDigits | app/src/main/java/com/arthur/spending/ui/newtransaction/NewTransactionViewModel.kt:87 | the result is all digits, no longer than the input, and an all-digit input is kept as is |
| Text.NatToDigits | app/src/main/java/com/arthur/spending/ui/newtransaction/NewTransactionFragment.kt:210 | the `%d` text of a non-negative number is a non-empty digit string with that value and no leading zero |
| Text.NatToDigitsLength | app/src/main/java/com/arthur/spending/ui/newtransaction/NewTransactionViewModel.kt:88 | a number has at most k digits iff it is below 10^k |
| Text.CentsText | app/src/main/java/com/arthur/spending/ui/newtransaction/NewTransactionViewModel.kt:25-30 | the text of n cents is the digits of n/100, one '.', then exactly two digits |
| Text.CentsTextWithoutPoint | app/src/main/java/com/arthur/spending/ui/newtransaction/NewTransactionFragment.kt:171 | removing the point from the text of n cents leaves digits whose value is n |
| Text.Trim | app/src/main/java/com/arthur/spending/ui/newtransaction/NewTransactionViewModel.kt:196-197 | trim gives an empty text iff the input is blank, and otherwise neither starts nor ends with whitespace |
| Text.TrimStartDrops | app/src/main/java/com/arthur/spending/ui/newtransaction/NewTransactionViewModel.kt:196-197 | trimStart removes exactly the leading whitespace |
| Text.TrimEndDrops | app/src/main/java/com/arthur/spending/ui/newtransaction/NewTransactionViewModel.kt:196-197 | trimEnd removes exactly the trailing whitespace |
| Text.EqualsImpliesContains | app/src/main/java/com/arthur/spending/ui/newtransaction/NewTransactionViewModel.kt:39-40 | a text equal to the query ignoring case contains it ignoring case |
| FormFields.CategoriesOrDefault | app/src/main/java/com/arthur/spending/ui/newtransaction/NewTransactionViewModel.kt:71-79 | an empty category list is replaced by the defaults; a non-empty one is kept |
| FormFields.FormattedValue | app/src/main/java/com/arthur/spending/ui/newtransaction/NewTransactionViewModel.kt:25-30 | the displayed amount always ends in '.' and two digits; before the point it is all digits exactly when the amount is non-negative, and a negative amount shows '-' then digits |
| FormFields.NewFormDigits | app/src/main/java/com/arthur/spending/ui/newtransaction/NewTransactionViewModel.kt:86-87 | removing '.' and ',' and then keeping the digits keeps exactly the digits of the input |
| FormFields.DetailFormDigits | app/src/main/java/com/arthur/spending/ui/transactions/TransactionDetailViewModel.kt:153-154 | removing '.', ',' and '€', trimming and then keeping the digits keeps exactly the digits of the input |
| FormFields.CentsFromDigits | app/src/main/java/com/arthur/spending/ui/newtransaction/NewTransactionViewModel.kt:88-94 | one to eight kept digits give their value, which is below 10^8; no digits give 0; more than eight keep the previous amount; so [0, 10^8) is kept |
| FormFields.UpdatedCents | app/src/main/java/com/arthur/spending/ui/newtransaction/NewTransactionViewModel.kt:85-96 | updateValue over the digits of the input: one to eight give their value, none give 0, more keep the previous amount; the amount stays within [0, 10^8) |
| FormFields.DetailUpdatedCents | app/src/main/java/com/arthur/spending/ui/transactions/TransactionDetailViewModel.kt:152-161 | the edit form's updateValue follows the same three cases over the digits of the input; the amount stays within [0, 10^8) |
| FormFields.TrimKeepsDigits | app/src/main/java/com/arthur/spending/ui/transactions/TransactionDetailViewModel.kt:153-154 | trimming does not change which digits are kept |
| FormFields.DetailFormAgrees | app/src/main/java/com/arthur/spending/ui/transactions/TransactionDetailViewModel.kt:152-161 | both forms keep the same digits from any input (removing '€' and trimming change none), so they give the same amount over any previous amount |
| FormFields.FormattedValueRoundTrip | app/src/main/java/com/arthur/spending/ui/newtransaction/NewTransactionViewModel.kt:85-96 | typing the displayed formattedValue of v (0 <= v < 10^8) into updateValue gives back v |
| FormFields.AppendDigitToDisplay | app/src/main/java/com/arthur/spending/ui/newtransaction/NewTransactionViewModel.kt:85-96 | one more digit d typed after formattedValue of v gives 10v+d when v < 10^7, and v otherwise |
| FormFields.Containing | app/src/main/java/com/arthur/spending/ui/newtransaction/NewTransactionViewModel.kt:36 | filter keeps exactly the categories containing the query ignoring case, each as often as listed, in list order |
| FormFields.FilteredCategories | app/src/main/java/com/arthur/spending/ui/newtransaction/NewTransactionViewModel.kt:32-37 | a blank query gives the whole list; otherwise exactly the categories containing the query ignoring case, each as often as listed, as an order-preserving sub-list |
| FormFields.CreateNewOverWholeList | app/src/main/java/com/arthur/spending/ui/newtransaction/NewTransactionViewModel.kt:39-40 | showCreateNewOption holds iff the query is non-blank and no category in the whole list equals it ignoring case |
| FormFields.ShowCreateNewOption | app/src/main/java/com/arthur/spending/ui/newtransaction/NewTransactionViewModel.kt:39-40 | showCreateNewOption over the filtered list; no contract of its own: CreateNewOverWholeList states when it holds |
| NewTransaction.SavedCategoryIsClean | app/src/main/java/com/arthur/spending/ui/newtransaction/NewTransactionViewModel.kt:169-198 | a form that passes validation saves a positive amount and a non-empty category with no surrounding whitespace |
| NewTransaction.CanSave | app/src/main/java/com/arthur/spending/ui/newtransaction/NewTransactionViewModel.kt:169-172 | the validation of saveTransaction; no contract of its own: SavedCategoryIsClean and SaveTransaction state its effect |
| NewTransaction.NewRecord | app/src/main/java/com/arthur/spending/ui/newtransaction/NewTransactionViewModel.kt:192-198 | the inserted row asks for a fresh key (id 0), carries the amount and the date, has no description, and its category or location is empty iff the form's was blank |
| NewTransaction.NewTransactionViewModel.constructor | app/src/main/java/com/arthur/spending/ui/newtransaction/NewTransactionViewModel.kt:51 | the form starts in the default state |
| NewTransaction.NewTransactionViewModel.OnCategoriesLoaded | app/src/main/java/com/arthur/spending/ui/newtransaction/NewTransactionViewModel.kt:67-79 | only allCategories changes: the store's list, or the six defaults when it is empty |
| NewTransaction.NewTransactionViewModel.UpdateValue | app/src/main/java/com/arthur/spending/ui/newtransaction/NewTransactionViewModel.kt:85-97 | only valueInCents changes, to the amount of the kept digits; the amount stays in [0, 10^8) |
| NewTransaction.NewTransactionViewModel.UpdateCategoryQuery | app/src/main/java/com/arthur/spending/ui/newtransaction/NewTransactionViewModel.kt:99-101 | only the query changes |
| NewTransaction.NewTransactionViewModel.SetDropdownExpanded | app/src/main/java/com/arthur/spending/ui/newtransaction/NewTransactionViewModel.kt:103-105 | only the dropdown flag changes |
| NewTransaction.NewTransactionViewModel.SelectCategory | app/src/main/java/com/arthur/spending/ui/newtransaction/NewTransactionViewModel.kt:107-113 | sets the query and closes the dropdown; nothing else changes |
| NewTransaction.NewTransactionViewModel.UpdateLocation | app/src/main/java/com/arthur/spending/ui/newtransaction/NewTransactionViewModel.kt:115-117 | only the location changes |
| NewTransaction.NewTransactionViewModel.SetCurrentDateTime | app/src/main/java/com/arthur/spending/ui/newtransaction/NewTransactionViewModel.kt:119-127 | only the date and time texts change, to the given clock texts |
| NewTransaction.NewTransactionViewModel.ShowConfirmationDialog | app/src/main/java/com/arthur/spending/ui/newtransaction/NewTransactionViewModel.kt:129-132 | only the confirmation flag changes, to true |
| NewTransaction.NewTransactionViewModel.HideConfirmationDialog | app/src/main/java/com/arthur/spending/ui/newtransaction/NewTransactionViewModel.kt:134-136 | only the confirmation flag changes, to false |
| NewTransaction.NewTransactionViewModel.ShowDatePicker | app/src/main/java/com/arthur/spending/ui/newtransaction/NewTransactionViewModel.kt:138-140 | only the date-picker flag changes, to true |
| NewTransaction.NewTransactionViewModel.HideDatePicker | app/src/main/java/com/arthur/spending/ui/newtransaction/NewTransactionViewModel.kt:142-144 | only the date-picker flag changes, to false |
| NewTransaction.NewTransactionViewModel.UpdateDate | app/src/main/java/com/arthur/spending/ui/newtransaction/NewTransactionViewModel.kt:146-148 | sets the date and closes the date picker |
| NewTransaction.NewTransactionViewModel.ShowTimePicker | app/src/main/java/com/arthur/spending/ui/newtransaction/NewTransactionViewModel.kt:150-152 | only the time-picker flag changes, to true |
| NewTransaction.NewTransactionViewModel.HideTimePicker | app/src/main/java/com/arthur/spending/ui/newtransaction/NewTransactionViewModel.kt:154-156 | only the time-picker flag changes, to false |
| NewTransaction.NewTransactionViewModel.UpdateTime | app/src/main/java/com/arthur/spending/ui/newtransaction/NewTransactionViewModel.kt:158-160 | sets the time and closes the time picker |
| NewTransaction.NewTransactionViewModel.SaveTransaction | app/src/main/java/com/arthur/spending/ui/newtransaction/NewTransactionViewModel.kt:162-222 | amount <= 0 or a blank category changes nothing, and so does a failed insert; otherwise exactly one row is appended (fresh id, the amount, trimmed category and location, empty description) and the form returns to the default state |
| TransactionDetail.FindById | app/src/main/java/com/arthur/spending/ui/transactions/TransactionDetailViewModel.kt:97 | a found transaction is a listed row carrying the id, and no earlier row carries it: `find` returns the first match |
| TransactionDetail.FindByIdFails | app/src/main/java/com/arthur/spending/ui/transactions/TransactionDetailViewModel.kt:97 | find fails iff no listed row carries the id |
| TransactionDetail.FindsTheRow | app/src/main/java/com/arthur/spending/ui/transactions/TransactionDetailViewModel.kt:96-97 | with unique keys, the lookup over the listed rows finds exactly the row with the id |
| TransactionDetail.FindsNothing | app/src/main/java/com/arthur/spending/ui/transactions/TransactionDetailViewModel.kt:96-97 | over the listed rows, the lookup fails iff no row of the table carries the id |
| TransactionDetail.AfterLoadShowsId | app/src/main/java/com/arthur/spending/ui/transactions/TransactionDetailViewModel.kt:96-135 | a load shows either no transaction or the one carrying the screen's id |
| TransactionDetail.AfterFindOverwritesStatus | app/src/main/java/com/arthur/spending/ui/transactions/TransactionDetailViewModel.kt:93-135 | the status set before the lookup does not show afterwards: both outcomes overwrite isLoading and error |
| TransactionDetail.LoadShowsTheRow | app/src/main/java/com/arthur/spending/ui/transactions/TransactionDetailViewModel.kt:93-135 | if the table holds the id: that row is shown, its fields fill the edit fields, and there is no error; if not: no row, isLoading false, "Transaction not found", nothing else changed |
| TransactionDetail.Populated | app/src/main/java/com/arthur/spending/ui/transactions/TransactionDetailViewModel.kt:100-127 | the edit fields taken from a loaded row; no contract of its own: LoadShowsTheRow states them |
| TransactionDetail.AfterFind | app/src/main/java/com/arthur/spending/ui/transactions/TransactionDetailViewModel.kt:99-135 | the two outcomes of the lookup; no contract of its own: AfterFindOverwritesStatus and LoadShowsTheRow state them |
| TransactionDetail.AfterLoad | app/src/main/java/com/arthur/spending/ui/transactions/TransactionDetailViewModel.kt:96-135 | one emission of the listed rows; no contract of its own: AfterLoadShowsId and LoadShowsTheRow state it |
| TransactionDetail.PassingFormSavesCleanRow | app/src/main/java/com/arthur/spending/ui/transactions/TransactionDetailViewModel.kt:257-288 | a form that passes the four checks saves the screen's id, a positive amount, and a non-empty trimmed category and location |
| TransactionDetail.FlagsMatchFields | app/src/main/java/com/arthur/spending/ui/transactions/TransactionDetailViewModel.kt:257-269 | no flag is raised iff amount > 0 and category, location, date and time are all non-blank; only the four flags change |
| TransactionDetail.Flagged | app/src/main/java/com/arthur/spending/ui/transactions/TransactionDetailViewModel.kt:257-267 | the four validation flags; no contract of its own: FlagsMatchFields states when each is raised |
| TransactionDetail.EditedRecord | app/src/main/java/com/arthur/spending/ui/transactions/TransactionDetailViewModel.kt:281-288 | the saved row keeps the screen's id, the amount and the date, and its category, location or description is empty iff the field was blank |
| TransactionDetail.SaveThenReloadShowsEdit | app/src/main/java/com/arthur/spending/ui/transactions/TransactionDetailViewModel.kt:281-293 | saving over a table holding the id keeps keys unique, and the reload shows the edited row with trimmed texts and the saved date |
| TransactionDetail.DeleteThenReloadFindsNothing | app/src/main/java/com/arthur/spending/ui/transactions/TransactionDetailViewModel.kt:318-327 | after the row's key is deleted, a reload shows no row and "Transaction not found" |
| TransactionDetail.TransactionDetailViewModel.constructor | app/src/main/java/com/arthur/spending/ui/transactions/TransactionDetailViewModel.kt:52-61 | the screen starts in the default state for its id |
| TransactionDetail.TransactionDetailViewModel.LoadCategories | app/src/main/java/com/arthur/spending/ui/transactions/TransactionDetailViewModel.kt:70-87 | only allCategories changes: the store's list, the defaults when that is empty, and the defaults when the store throws |
| TransactionDetail.TransactionDetailViewModel.LoadTransaction | app/src/main/java/com/arthur/spending/ui/transactions/TransactionDetailViewModel.kt:89-145 | a failure sets isLoading false and "Failed to load transaction: …"; otherwise the state is the reference AfterLoad of the table; a shown row always carries the screen's id |
| TransactionDetail.TransactionDetailViewModel.OnTransactions | app/src/main/java/com/arthur/spending/ui/transactions/TransactionDetailViewModel.kt:96-135 | one emission of the listed rows gives the state AfterLoad, which LoadShowsTheRow characterises |
| TransactionDetail.TransactionDetailViewModel.SetEditMode | app/src/main/java/com/arthur/spending/ui/transactions/TransactionDetailViewModel.kt:148-150 | only isEditMode changes; no field is restored |
| TransactionDetail.TransactionDetailViewModel.UpdateValue | app/src/main/java/com/arthur/spending/ui/transactions/TransactionDetailViewModel.kt:152-167 | sets the amount as the new-transaction form would and clears hasValueError only |
| TransactionDetail.TransactionDetailViewModel.UpdateCategoryQuery | app/src/main/java/com/arthur/spending/ui/transactions/TransactionDetailViewModel.kt:169-174 | sets the query and clears hasCategoryError only |
| TransactionDetail.TransactionDetailViewModel.SelectCategory | app/src/main/java/com/arthur/spending/ui/transactions/TransactionDetailViewModel.kt:176-182 | sets the query, closes the dropdown and clears hasCategoryError |
| TransactionDetail.TransactionDetailViewModel.SetDropdownExpanded | app/src/main/java/com/arthur/spending/ui/transactions/TransactionDetailViewModel.kt:184-186 | only the dropdown flag changes |
| TransactionDetail.TransactionDetailViewModel.UpdateLocation | app/src/main/java/com/arthur/spending/ui/transactions/TransactionDetailViewModel.kt:188-193 | sets the location and clears hasLocationError only |
| TransactionDetail.TransactionDetailViewModel.UpdateDescription | app/src/main/java/com/arthur/spending/ui/transactions/TransactionDetailViewModel.kt:195-197 | sets the description and clears no flag |
| TransactionDetail.TransactionDetailViewModel.UpdateDate | app/src/main/java/com/arthur/spending/ui/transactions/TransactionDetailViewModel.kt:199-204 | sets the date and clears hasDateTimeError |
| TransactionDetail.TransactionDetailViewModel.UpdateTime | app/src/main/java/com/arthur/spending/ui/transactions/TransactionDetailViewModel.kt:206-211 | sets the time and clears hasDateTimeError |
| TransactionDetail.TransactionDetailViewModel.SetShowDatePicker | app/src/main/java/com/arthur/spending/ui/transactions/TransactionDetailViewModel.kt:213-215 | only the date-picker flag changes |
| TransactionDetail.TransactionDetailViewModel.SetShowTimePicker | app/src/main/java/com/arthur/spending/ui/transactions/TransactionDetailViewModel.kt:217-219 | only the time-picker flag changes |
| TransactionDetail.TransactionDetailViewModel.SetShowDeleteConfirmation | app/src/main/java/com/arthur/spending/ui/transactions/TransactionDetailViewModel.kt:221-223 | only the delete-confirmation flag changes |
| TransactionDetail.TransactionDetailViewModel.CancelEdit | app/src/main/java/com/arthur/spending/ui/transactions/TransactionDetailViewModel.kt:225-250 | with a loaded row: the amount, texts, date and time return to it, all four flags clear, the dropdown and pickers close, and edit mode ends, while the delete confirmation is untouched; with no row: nothing changes |
| TransactionDetail.TransactionDetailViewModel.SaveTransaction | app/src/main/java/com/arthur/spending/ui/transactions/TransactionDetailViewModel.kt:252-305 | always sets the four flags; with any flag raised, or on a failure, the table is untouched (a failure also reports "Failed to save transaction: …"); otherwise the row with the screen's id is replaced by the edited row, reloaded, and edit mode ends |
| TransactionDetail.TransactionDetailViewModel.DeleteTransaction | app/src/main/java/com/arthur/spending/ui/transactions/TransactionDetailViewModel.kt:307-343 | with no row: nothing happens and the callback does not run; on failure: the confirmation closes, an error is shown and the callback does not run; on success: the row's key is deleted, the confirmation closes and the callback runs exactly once |
| CurrencyKeypad.ParseLong | app/src/main/java/com/arthur/spending/ui/newtransaction/NewTransactionFragment.kt:206 | toLongOrNull accepts only an optional sign followed by digits, and only values within the Long range |
| CurrencyKeypad.ParseFormatRoundTrip | app/src/main/java/com/arthur/spending/ui/newtransaction/NewTransactionFragment.kt:206-210 | every Long is read back from its `%d` text |
| CurrencyKeypad.ParseDigits | app/src/main/java/com/arthur/spending/ui/newtransaction/NewTransactionFragment.kt:206 | a digit string parses to its value if that fits a Long, and fails otherwise |
| CurrencyKeypad.ParseRejectsNonDigits | app/src/main/java/com/arthur/spending/ui/newtransaction/NewTransactionFragment.kt:206 | a text that parses has only digits after its first character, and no '.' |
| CurrencyKeypad.FormatD | app/src/main/java/com/arthur/spending/ui/newtransaction/NewTransactionFragment.kt:210 | `%d` is a non-empty text without '.' |
| CurrencyKeypad.TruncDiv | app/src/main/java/com/arthur/spending/ui/newtransaction/NewTransactionFragment.kt:207 | Kotlin's `/` on a positive divisor rounds toward zero: b*q lies between 0 and a, less than b away from a |
| CurrencyKeypad.EuclidOnNatural | app/src/main/java/com/arthur/spending/ui/newtransaction/NewTransactionFragment.kt:207-208 | on a natural dividend the quotient and remainder satisfy a == b*q + m with 0 <= m < b |
| CurrencyKeypad.TruncMod | app/src/main/java/com/arthur/spending/ui/newtransaction/NewTransactionFragment.kt:207-208 | Kotlin's `/` and `%` on a positive divisor: a == b*q + m, and the remainder takes the dividend's sign |
| CurrencyKeypad.Format02 | app/src/main/java/com/arthur/spending/ui/newtransaction/NewTransactionFragment.kt:210 | `%02d` is at least two characters without '.', and for a non-negative number it is digits of its value |
| CurrencyKeypad.Rendered | app/src/main/java/com/arthur/spending/ui/newtransaction/NewTransactionFragment.kt:207-210 | `"%d.%02d"` of n/100 and n%100; no contract of its own: RenderedNonNegative and NegativeBreaksShape state what it gives |
| CurrencyKeypad.FormatCurrency | app/src/main/java/com/arthur/spending/ui/newtransaction/NewTransactionFragment.kt:203-211 | formatCurrency; no contract of its own: FormatCurrencyRejects, FormatCurrencyDigits, OnePoint, NonNegativeShape and FormatCurrencyShape state what it gives |
| CurrencyKeypad.ZeroText | app/src/main/java/com/arthur/spending/ui/newtransaction/NewTransactionFragment.kt:204 | "0.00" is the text of 0 cents |
| CurrencyKeypad.RenderedNonNegative | app/src/main/java/com/arthur/spending/ui/newtransaction/NewTransactionFragment.kt:207-210 | for n >= 0, `"%d.%02d"` of n/100 and n%100 is the amount text of n cents |
| CurrencyKeypad.FormatCurrencyRejects | app/src/main/java/com/arthur/spending/ui/newtransaction/NewTransactionFragment.kt:204-206 | the empty text, a non-numeric text and an overflowing one all give "0.00" |
| CurrencyKeypad.FormatCurrencyDigits | app/src/main/java/com/arthur/spending/ui/newtransaction/NewTransactionFragment.kt:206-210 | a digit string of value n gives the amount text of n cents (n/100, '.', n%100 as two digits) when n fits a Long, and "0.00" otherwise |
| CurrencyKeypad.CentsTextIsAmountText | app/src/main/java/com/arthur/spending/ui/newtransaction/NewTransactionFragment.kt:210 | the amount text of any n is digits, one '.', then exactly two digits |
| CurrencyKeypad.OnePoint | app/src/main/java/com/arthur/spending/ui/newtransaction/NewTransactionFragment.kt:210 | every result of formatCurrency holds exactly one '.' |
| CurrencyKeypad.NonNegativeShape | app/src/main/java/com/arthur/spending/ui/newtransaction/NewTransactionFragment.kt:204-210 | when the text does not read as a negative number, the result is the amount text of the number read |
| CurrencyKeypad.FormatCurrencyShape | app/src/main/java/com/arthur/spending/ui/newtransaction/NewTransactionFragment.kt:203-211 | exactly one '.' always, and when the text does not read as a negative number, digits, '.', two digits |
| CurrencyKeypad.ReformatCentsText | app/src/main/java/com/arthur/spending/ui/newtransaction/NewTransactionFragment.kt:171-182 | removing the point from an amount text and formatting it again gives the same text |
| CurrencyKeypad.ReformatIdempotent | app/src/main/java/com/arthur/spending/ui/newtransaction/NewTransactionFragment.kt:203-211 | stripping the point from formatCurrency(s) and formatting again gives formatCurrency(s), for every s that does not read as negative |
| CurrencyKeypad.NegativeBreaksShape | app/src/main/java/com/arthur/spending/ui/newtransaction/NewTransactionFragment.kt:206-210 | why the two above need that condition: "-5" gives "0.-5", which is not an amount text and reformats to "0.00" |
| CurrencyKeypad.LabelsAre | app/src/main/java/com/arthur/spending/ui/newtransaction/NewTransactionFragment.kt:150-155 | the buttons are exactly C, ⌫ and the ten single digits |
| CurrencyKeypad.OnClick | app/src/main/java/com/arthur/spending/ui/newtransaction/NewTransactionFragment.kt:167-184 | the click listener; no contract of its own: ResetsToZero, BackspaceClick and DigitClick state each branch |
| CurrencyKeypad.ResetsToZero | app/src/main/java/com/arthur/spending/ui/newtransaction/NewTransactionFragment.kt:169-177 | C always gives "0.00"; ⌫ gives "0.00" when at most one character is left after removing the point |
| CurrencyKeypad.BackspaceClick | app/src/main/java/com/arthur/spending/ui/newtransaction/NewTransactionFragment.kt:170-178 | with more than one character left after removing the point, ⌫ drops the last one and formats the rest |
| CurrencyKeypad.DropLastDigit | app/src/main/java/com/arthur/spending/ui/newtransaction/NewTransactionFragment.kt:173 | dropping the last digit of n's digits leaves the digits of n/10 |
| CurrencyKeypad.BackspaceOnDisplay | app/src/main/java/com/arthur/spending/ui/newtransaction/NewTransactionFragment.kt:170-178 | on the display of v cents, ⌫ shows v/10 cents |
| CurrencyKeypad.DigitClick | app/src/main/java/com/arthur/spending/ui/newtransaction/NewTransactionFragment.kt:179-183 | a digit button appends its digit to the display without the point and formats the result |
| CurrencyKeypad.AppendDigit | app/src/main/java/com/arthur/spending/ui/newtransaction/NewTransactionFragment.kt:181 | appending digit d to the digits of n gives the digits of 10n+d |
| CurrencyKeypad.DigitOnDisplay | app/src/main/java/com/arthur/spending/ui/newtransaction/NewTransactionFragment.kt:179-183 | on the display of v cents, digit d shows 10v+d cents while that fits a Long, and "0.00" beyond |
| CurrencyKeypad.StepOnDisplay | app/src/main/java/com/arthur/spending/ui/newtransaction/NewTransactionFragment.kt:168-184 | one press on the display of a Long amount shows the amount the integer reference Step computes, again a Long |
| CurrencyKeypad.ClearStep | app/src/main/java/com/arthur/spending/ui/newtransaction/NewTransactionFragment.kt:169 | C agrees with the reference: amount 0 |
| CurrencyKeypad.BackspaceStep | app/src/main/java/com/arthur/spending/ui/newtransaction/NewTransactionFragment.kt:170-178 | ⌫ agrees with the reference: amount n/10 |
| CurrencyKeypad.DigitStep | app/src/main/java/com/arthur/spending/ui/newtransaction/NewTransactionFragment.kt:179-183 | a digit agrees with the reference: 10n+d, or 0 past the Long range |
| CurrencyKeypad.Step | app/src/main/java/com/arthur/spending/ui/newtransaction/NewTransactionFragment.kt:168-184 | the integer reference for one press keeps an amount within the Long range |
| CurrencyKeypad.KeypadValue | app/src/main/java/com/arthur/spending/ui/newtransaction/NewTransactionFragment.kt:167-184 | the reference amount after any presses never leaves the Long range |
| CurrencyKeypad.Typed | app/src/main/java/com/arthur/spending/ui/newtransaction/NewTransactionFragment.kt:167-184 | the display after a sequence of presses from "0.00"; no contract of its own: TypedShowsValue and TypedIsStable state it |
| CurrencyKeypad.TypedShowsValue | app/src/main/java/com/arthur/spending/ui/newtransaction/NewTransactionFragment.kt:167-184 | starting from "0.00", after any sequence of presses the display is the amount text of the reference amount, and that amount fits a Long |
| CurrencyKeypad.TypedIsStable | app/src/main/java/com/arthur/spending/ui/newtransaction/NewTransactionFragment.kt:167-184 | every display the keypad can reach is an amount text (one '.', two digits after it) that reformats to itself |

## Left out

- I/O, Room's SQLite engine, coroutines and Flow: each asynchronous load or store call is one synchronous step. A collector is not re-run when the table changes later. Overlapping collectors are not modelled either: each refresh, range change or `loadTransaction` launches one without cancelling the old.
- Floating point: amounts are integer cents, rather than `Double` euros divided by `100.0`, and percentages are exact reals rather than `Float`. The `"%.2f"` rounding of `formattedValue` is modelled as the exact text of the cents. Any gap between those and the real arithmetic is outside the model.
- TransactionDetail.TransactionDetailViewModel.LoadTransaction: the row's amount is taken as exact cents. The source's `(value * 100).toInt()` at TransactionDetailViewModel.kt lines 112 and 229 can truncate a `Double` to one cent less, and the model does not capture that.
- Dates and clocks: `SimpleDateFormat` parsing and formatting, `Calendar` and `Date()` are parameters or constant functions. This covers the dashboard's initial range (from the start of the current month to the end of today) set by `init`, `setCurrentDateTime`, the parsed save date, and the `?: Date()` parse fallback.
- Locale and Unicode: digits, whitespace and case folding are ASCII only, and the amount is always rendered with '.'. Kotlin's `isDigit`, `isWhitespace`, case-insensitive comparison and `toLongOrNull` also accept non-ASCII characters. `String.format` may use ',' under some locales.
- TransactionDao.GetTotalSpendingByDateRange: the DAO and the repository declare no such query, although the dashboard calls it. It is modelled as the sum over the inclusive range `startDate <= date <= endDate`, by analogy with the range query. This is an assumption.
- TransactionDao.GetTotalSpendingByCategoryAndDateRange: also absent from the DAO. It is modelled the same way as the range total, over one category.
- TransactionDao.Select: SQL `ORDER BY date DESC` promises nothing about ties. The model fixes one admissible order (stable). The contract states only what SQL promises: the multiset and the date order.
- TransactionDao.TransactionTable.Insert: SQLite's AUTOINCREMENT counter is modelled as `lastId`, and keys are not reused after a delete. Room's conflict strategy ABORT is modelled as a failed insert that leaves the table unchanged.
- Text.FilterDigits: its contract states only that the result is all digits, no longer than the input, and equal to an all-digit input. Which characters are dropped is stated by FormFields.FilterDigitsIgnoresNonDigit, FormFields.FilterDigitsConcat and FormFields.TrimKeepsDigits.
- FormFields.CentsFromDigits: `toIntOrNull() ?: 0` cannot fail on one to eight ASCII digits, so the `?: 0` fallback is unreachable and not modelled as a separate case.
- CurrencyKeypad.FormatCurrencyShape: the "digits, one '.', then two digits" shape holds only when the text does not read as a negative number. A negative amount renders as "0.-5" (see NegativeBreaksShape). The keypad never produces one: TypedIsStable shows that every display it reaches has the shape.
- CurrencyKeypad.ReformatIdempotent: holds only for texts that do not read as a negative number, for the same reason.
- The `CurrencyKeypad` composable is not reachable from the app's navigation (`MainActivity.kt` lines 89-97). It is modelled on its own. Its layout and button colours are left out.
- The dashboard's and the detail screen's `init` blocks start loads. The model leaves those to be called as separate methods after the constructor.
- Not modelled at all because they hold no logic of their own:
  - the UI composables (`*Screen.kt`), including the dashboard chart;
  - `MainActivity.kt` navigation;
  - `TransactionRepository.kt`, which passes calls straight through to the DAO;
  - `SpendingDatabase.kt`, the Room singleton and migration;
  - `TransactionsViewModel.kt`, which only copies fields while collecting;
  - the build configuration.
- Logging (`Log.d` and the like) is left out.
