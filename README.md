# Expense tracker core, modelled in Dafny

This project models the client-side logic of a personal expense tracker that
keeps its data in a Google spreadsheet with three tabs: Expenditure, Income
and Categories. The model covers five parts:

- **Row normalisation and sheet operations** (`src/services/api.js`):
  - amount cleaning (`parseVal`) and the `dd/mm/yyyy` and `yyyy-mm-dd` date converters;
  - tagging rows with their kind, and partitioning the category rows with their fallback;
  - appending, deleting and editing a transaction by id on a tab, held as an in-memory sequence of rows in the `Workbook` class.
- **Sheet set-up and repair planning** (`src/services/googleSheetsService.js`):
  - which tabs to add, and which header rows and default categories to write;
  - which data rows get a fresh id, and which requests are sent;
  - the cache-then-search lookup of the spreadsheet.
- **The aggregation engine** that the dashboard components repeat inline:
  - grand totals, this-month sums that leave out the lending pair, and the lending balance;
  - per-category totals, the doughnut and top-5 selections, and the summary cards;
  - the category comparison table;
  - the trailing six-month table and trend;
  - the all-months trend.
- **The transactions page**: merging and tagging, the newest-first sort (an in-place sort of an array) and the type and month filters.
- **The transaction modal**: a small state machine for prefill or reset on opening, the `isSubmitting` guard, and the choice between edit and add.

How the model represents the source:

- **Amounts** are exact `real` numbers, read from the raw cell text by a model of `parseVal`.
- **Dates** are `(year, month, day)` triples with an `Invalid` case. `ParseDate` accepts only a strict `yyyy-mm-dd` calendar day.
- **"Now"** is a parameter: a month for the monthly sums, and a day number plus a time-of-day fraction for the 30-day window.
- **Fresh ids and the results of remote calls** are parameters too.
- **A row as the dashboards read it** (parsed amount, date, and category with "Others" for a missing one) is a `Line`. Every sum is a `SumWhere` over lines.
- **Loops that fill dictionaries** (`categoryTotals`, month totals, the month lists) are methods with loop invariants, proved against those sums.

## Model

| member | source | states |
|---|---|---|
| Amounts.Clean | src/services/api.js:7 | the cleaned text holds only digits, `.` and `-`, is no longer than the input, and leaves text made only of those characters unchanged |
| Amounts.ParseValIgnoresOtherChars | src/services/api.js:7 | a value depends only on its digits, dots and minus signs: parsing the cleaned text gives the same number |
| Amounts.CleanAppend | src/services/api.js:7 | cleaning works character by character: it distributes over concatenation |
| Amounts.ParseValNoDigit | src/services/api.js:7 | text without any digit (empty, "abc", "-", ".") parses to 0, the `\|\| 0` fallback |
| Amounts.ParseValNonNegative | src/services/api.js:7 | a value whose cleaned text has no minus sign is never negative |
| Amounts.ParseValNat | src/services/api.js:7 | the decimal rendering of a natural number parses back to that number |
| Amounts.ParseValDropsSeparator | src/services/api.js:7 | a separator such as `,`, a space or a currency sign between digits is ignored: `x + c + y` parses like `x + y` |
| Amounts.CleanUnsigned | src/components/TransactionModal.jsx:19 | the modal's cleaning keeps digits and dots only, so its result never holds a minus sign |
| Text.NatToString | src/components/MonthlyTrendChart.jsx:25 | `String(n)` of a natural number is a non-empty digit string without leading zeros whose decimal value is `n` |
| Text.PadStart2 | src/services/api.js:19 | `padStart(2, '0')` leaves strings of two or more characters alone and otherwise left-fills with zeros to length 2, keeping the original as the suffix |
| Text.TrimIdempotent | src/services/api.js:12 | trimming twice is trimming once |
| Text.Split | src/services/api.js:16 | `split` yields at least one part, no part holds the separator, and joining the parts with the separator gives back the input |
| Text.SplitJoin | src/services/api.js:27 | splitting a join of separator-free parts gives back those parts |
| Text.ToLowerIdempotent | src/pages/Home.jsx:28 | lower-casing leaves no ASCII capital, so doing it twice changes nothing, and text without capitals is unchanged |
| Text.LeadingDigits | src/pages/Transactions.jsx:26 | the digit prefix `parseInt` reads is the longest prefix made of digits |
| Dates.ParseDate | src/components/AllMonthsTrendChart.jsx:22-25 | a date is valid only if the text is a `yyyy-mm-dd` calendar day, and every such text yields a valid date |
| Dates.ParseFormatIso | src/components/AllMonthsTrendChart.jsx:22-25 | formatting a valid date as `yyyy-mm-dd` and parsing it back gives the same date |
| Dates.FormatParseIso | src/components/AllMonthsTrendChart.jsx:22-25 | a text that parses to a date is exactly the ISO formatting of that date |
| Dates.MonthAt | src/components/MonthlySummaryTable.jsx:10 | `new Date(y, m - i, 1)` rolls over into a valid month whose running index is the requested one |
| Dates.MonthAtIndex | src/components/MonthlySummaryTable.jsx:10 | every valid month is reached by its own index |
| Dates.MonthFilterRoundTrip | src/pages/Transactions.jsx:23-27 | the zero-padded `YYYY-MM` key of a month, split on `-` and read with `parseInt`, gives back that month |
| SheetApi.ToISODate | src/services/api.js:10-23 | empty input gives ""; a trimmed `dddd-dd-dd` text is returned as it is; a trimmed text with `/` that splits into three parts becomes year-month-day of the trimmed parts, day and month padded to two; any other text comes back trimmed |
| SheetApi.ToISODateDayFirst | src/services/api.js:15-21 | `d/m/y` in digits becomes `y-mm-dd`, with day and month left-padded to two digits |
| SheetApi.ToISODateIdempotent | src/services/api.js:10-23 | normalising a date twice is normalising it once, for every input |
| SheetApi.NormalizedFixed | src/services/api.js:12-22 | every result of the trimmed branch is already normal: normalising it again changes nothing |
| SheetApi.ToIndianDate | src/services/api.js:25-33 | empty input gives ""; a `yyyy-mm-dd` date is written as `dd/mm/yyyy`; a text that does not split into three parts on `-` is returned unchanged |
| SheetApi.IndianIsoRoundTrip | src/services/api.js:10-33 | an ISO date written to the sheet as `dd/mm/yyyy` reads back as the same ISO date |
| SheetApi.Tag | src/services/api.js:99-115 | tagging keeps the row count and order, rewrites only the date (through the normaliser), and attaches the kind |
| SheetApi.TagStable | src/services/api.js:99-115 | tagging rows that were already tagged changes nothing |
| SheetApi.OfTypeMembers | src/services/api.js:131-135 | a category is in the list of a type exactly when a row with that name, icon and exact type exists |
| SheetApi.OfTypeAppend | src/services/api.js:131-135 | the partition keeps sheet order: the list for a concatenation is the concatenation of the lists |
| SheetApi.OfTypeAll | src/services/api.js:131-135 | when every row has the type, no row is dropped |
| SheetApi.OfTypeNone | src/services/api.js:131-135 | when no row has the type, its list is empty |
| SheetApi.OfTypeCounts | src/services/api.js:131-135 | the expense and income lists together hold at most the rows read; rows of any other type are dropped |
| SheetApi.GetCategories | src/services/api.js:117-150 | a failed read gives two empty lists; otherwise the exact-type partition, or one Food and one Salary entry when both lists are empty |
| SheetApi.FindIndex | src/services/api.js:68-69 | the index found is that of the first row with the id, and -1 exactly when no row has it |
| SheetApi.DeleteAsWrittenMissesTarget | src/services/api.js:84-90 | with the request naming grid row `rowIndex + 2`, the row found is kept: the row after it is removed, or nothing when it is the last row |
| SheetApi.DeleteById | src/services/api.js:64-95 | a missing id leaves the tab unchanged; otherwise exactly the first row with that id is removed and the others keep their order |
| SheetApi.DeleteRemovesOne | src/services/api.js:64-95 | the removed row carries the id, and the rows left plus that row are the rows before |
| SheetApi.EditById | src/services/api.js:194-217 | a missing id leaves the tab unchanged; otherwise only the first row with the id is replaced, with the id kept in column A and the submitted fields after it |
| SheetApi.EditKeepsIds | src/services/api.js:198-209 | an edit never changes which row any id finds |
| SheetApi.AppendThenDelete | src/services/api.js:49-95 | a row appended with a fresh id is found at the end, and deleting that id restores the tab |
| SheetApi.AddedReadsBack | src/services/api.js:152-169 | a transaction added with an ISO date reads back, after tagging, with that ISO date and its fields |
| SheetApi.Workbook.constructor | src/services/api.js:99-115 | a workbook holds the three tabs as given |
| SheetApi.Workbook.AddRow | src/services/api.js:49-61 | the row `[freshId, date, amount, desc, category]` is appended to the tab of its kind, that id is returned, and the other tabs are unchanged |
| SheetApi.Workbook.Add | src/services/api.js:152-169 | an added transaction is appended with the date written as `dd/mm/yyyy`; the other tabs are unchanged |
| SheetApi.Workbook.DeleteTransaction | src/services/api.js:171-174 | with the correction recorded under "## Findings" applied to `deleteRowById`, the tab chosen by the type loses its first row with the id, or stays unchanged when there is none; the other tabs are unchanged. As written, the call removes the row after the match instead (`SheetApi.DeleteAsWrittenMissesTarget`) |
| SheetApi.Workbook.EditTransaction | src/services/api.js:194-217 | the tab chosen by the type has its first row with the id replaced, or stays unchanged when there is none; the other tabs are unchanged |
| SheetApi.Workbook.AddCategory | src/services/api.js:177-186 | a `[name, icon, type]` row is appended to Categories and nothing else changes |
| SheetSetup.DefaultCategoryCounts | src/services/googleSheetsService.js:68-82 | the default set has 13 entries, 8 expense and 5 income, with Lend on the expense side and Return(Lend) on the income side |
| SheetSetup.CategoryCells | src/services/googleSheetsService.js:85-96 | each category row is written as the three cells name, icon and type, in order |
| SheetSetup.MissingTitlesSpec | src/services/googleSheetsService.js:116-134 | a tab is requested exactly when it is required and not among the existing titles |
| SheetSetup.RequiredPlan | src/services/googleSheetsService.js:116-175 | the requests are exactly the missing ones among Expenditure, Income and Categories, and the default categories are written exactly when Categories is created |
| SheetSetup.NothingMissing | src/services/googleSheetsService.js:137-179 | there is nothing to write exactly when no tab is missing |
| SheetSetup.HeaderWritesSpec | src/services/googleSheetsService.js:145-175 | a tab's header row is queued exactly when that tab is created |
| SheetSetup.NoHeaderFor | src/services/googleSheetsService.js:145-175 | no header is queued for a title outside the required tabs |
| SheetSetup.RequiredWrites | src/services/googleSheetsService.js:145-175 | the writes are those of Expenditure, then Income, then Categories |
| SheetSetup.PlanStructure | src/services/googleSheetsService.js:116-175 | the loops produce exactly the missing titles and the header and default-category writes |
| SheetSetup.RepairOfEmptyMatchesCreate | src/services/googleSheetsService.js:64-96 | repairing a spreadsheet with no tabs writes the same values, in the same order, as creating a new one |
| SheetSetup.IdCellInjective | src/services/googleSheetsService.js:209 | different rows get different id cells `A{i+1}` |
| SheetSetup.MissingIdRowsSpec | src/services/googleSheetsService.js:204-214 | the rows picked for a new id are exactly the data rows below `i` with a missing id, in ascending order |
| SheetSetup.PlanIdRepair | src/services/googleSheetsService.js:199-214 | a tab with no values, or with only a header, gets no update; otherwise the fixed rows are exactly the data rows with a missing id, in ascending order, each with one update of its own id cell |
| SheetSetup.NoIdRepairNeeded | src/services/googleSheetsService.js:199-216 | no id batch is planned exactly when the tab has no values or every data row has an id |
| SheetSetup.RepairComplete | src/services/googleSheetsService.js:204-230 | once the updates are applied, no data row lacks an id, the header and rows that had ids are untouched, and no other cell changes |
| SheetSetup.RepairIdBatches | src/services/googleSheetsService.js:190-231 | the loop over the two tabs sends the Expenditure id batch and then the Income id batch, each only when it has a write |
| SheetSetup.RequestsShape | src/services/googleSheetsService.js:176-231 | whatever the id batches, the structural batches lead, `addSheet` appears only for a missing tab, no batch is empty and at most four are sent |
| SheetSetup.CheckAndFixSheetIds | src/services/googleSheetsService.js:107-232 | the requests are exactly the structural batches, then the Expenditure id batch when it has a write, then the Income id batch when it has a write; no structural request when no tab is missing, otherwise the add-tab batch and header writes first; no empty batch; at most four requests |
| SheetSetup.SheetLocator.constructor | src/services/googleSheetsService.js:8-9 | the locator starts from the stored id |
| SheetSetup.SheetLocator.FindExpenseSheet | src/services/googleSheetsService.js:5-40 | a stored id that still resolves is returned and kept; a stale one is cleared; otherwise the result is the first search hit, none, or a failure |
| Ledger.CategoryOf | src/components/ExpenseChart.jsx:27 | a category is never empty: a missing one is "Others" and a present one is kept |
| Ledger.CategoryIsRow | src/components/LendingSummary.jsx:8 | for the names the components look for, matching a line's category is matching the row's own cell, lower-cased |
| Ledger.SumWhereAppend | src/components/MonthlyTrendChart.jsx:34-44 | sums over a concatenation add up |
| Ledger.SumWhereSplit | src/pages/Home.jsx:24-37 | a sum over a condition that is the disjoint union of two others is the sum of their sums |
| Ledger.SumWherePositive | src/components/ExpenseChart.jsx:24-31 | a sum over positive amounts is non-negative, and zero exactly when no line qualifies |
| Ledger.GroupTotals | src/components/ExpenseChart.jsx:24-31 | the dictionary loop yields a key exactly for each category with a counted line, each key once, holding the sum of that category's counted amounts; the entries sum to the counted total |
| Ledger.Tally | src/components/ExpenseChart.jsx:25-30 | one step of the loop keeps the grouping invariant |
| Ledger.GroupSkip | src/components/ExpenseChart.jsx:26 | a line that is not counted leaves the grouping as it was |
| Ledger.GroupAdd | src/components/ExpenseChart.jsx:27-29 | adding a line to a category already seen keeps the grouping invariant |
| Ledger.GroupNew | src/components/ExpenseChart.jsx:27-29 | a line of a new category adds its key at the end and keeps the invariant |
| Ledger.GroupedAll | src/components/ExpenseChart.jsx:24-31 | when the loop is done, the invariant gives the full meaning of the dictionary |
| Ledger.CategoryTotalPositive | src/components/ExpenseChart.jsx:24-31 | every slice of a positive-only grouping has a positive value |
| Ledger.TotalAtMostPositive | src/components/ExpenseChart.jsx:21-31 | the total of all amounts is at most the sum of the slices, with equality when no amount is negative |
| Ledger.SortedLabelsDistinct | src/components/ExpenseChart.jsx:34-39 | sorting keeps every category label at most once |
| Sorting.Insert | src/components/ExpenseChart.jsx:34-36 | inserting adds exactly one element |
| Sorting.InsertDescending | src/components/ExpenseChart.jsx:34-36 | inserting into a non-increasing list keeps it non-increasing |
| Sorting.SortDesc | src/components/ExpenseChart.jsx:34-36 | the sort is a permutation, non-increasing in the key, and keeps distinct elements distinct |
| Sorting.SortSum | src/components/ExpenseChart.jsx:34-36 | sorting does not change the sum |
| Sorting.SortSorted | src/components/ExpenseChart.jsx:34-36 | a list in strictly decreasing order is left as it is |
| Home.MonthExpensesSplit | src/pages/Home.jsx:24-37 | all of this month's expenses are the card's sum plus this month's `lend` rows |
| Home.MonthIncomeSplit | src/pages/Home.jsx:42-55 | all of this month's income is the card's sum plus this month's `return(lend)` rows |
| Home.MonthCardsIgnoreOtherMonths | src/pages/Home.jsx:24-55 | with nothing dated in the current month (in particular empty lists), both cards show 0 |
| Home.SpentThisMonthRow | src/pages/Home.jsx:24-37 | a row counts exactly when it is dated this month and its category, lower-cased, is not `lend`; a missing category counts |
| Home.EarnedThisMonthRow | src/pages/Home.jsx:42-55 | a row counts exactly when it is dated this month and its category, lower-cased, is not `return(lend)`; a missing category counts |
| LendingSummary.BalanceWithLending | src/components/LendingSummary.jsx:7-16 | the balance card equals income without returns, minus expenses without loans, minus the amount still lent out |
| LendingSummary.RecoveryNoteIff | src/components/LendingSummary.jsx:16 | the "To be recovered" note is shown exactly when more was lent than returned |
| LendingSummary.LentGrowsOnlyByLend | src/components/LendingSummary.jsx:7-9 | one more expense adds to the lent total exactly when its lower-cased category is "lend"; "Lending" or any other length never counts |
| LendingSummary.ReturnedGrowsOnlyByReturn | src/components/LendingSummary.jsx:12-14 | one more income adds to the returned total exactly when its lower-cased category is "return(lend)" |
| LendingSummary.NothingLent | src/components/LendingSummary.jsx:7-61 | with no lending rows nothing is outstanding and the note is hidden |
| CategoryCharts.CategoryDoughnut | src/components/ExpenseChart.jsx:13-39 | no data exactly for a missing or empty list; otherwise the total of all amounts, and one slice per positive category holding its sum, non-increasing, labels distinct, slices summing to the positive total |
| CategoryCharts.SlicesLabels | src/components/IncomeChart.jsx:34-39 | the sorted labels are exactly the grouped categories |
| CategoryCharts.SortedEntries | src/components/TopCategoriesChart.jsx:26-27 | the sorted entries are the dictionary's entries, non-increasing, each category once |
| CategoryCharts.TopCategories | src/components/TopCategoriesChart.jsx:18-38 | at most 5 entries, none exactly when there are no expenses, non-increasing, each the total of a seen category; a category left out means 5 were kept, all at least as large |
| CategoryCharts.TopKept | src/components/TopCategoriesChart.jsx:26-28 | the first `min(5, n)` sorted entries have all the properties of the top-5 list |
| CategoryCharts.TopEmpty | src/components/TopCategoriesChart.jsx:26-32 | nothing is kept exactly when there are no expenses |
| CategoryCharts.TopMembers | src/components/TopCategoriesChart.jsx:18-28 | every kept entry is a seen category with its full total |
| CategoryCharts.TopDropped | src/components/TopCategoriesChart.jsx:26-28 | no dropped category has a total larger than any kept one |
| CategoryCharts.Dropped | src/components/TopCategoriesChart.jsx:26-28 | an entry missing from a prefix of a non-increasing list lies beyond it and is at most every entry in it |
| SummaryCards.NetFlowIsBalance | src/components/FinancialSummaryCards.jsx:7 | net flow from the two totals is the dashboard balance |
| SummaryCards.Round1 | src/components/FinancialSummaryCards.jsx:8 | `toFixed(1)` yields a multiple of 0.1 within 0.05 of its input, and never negative for a non-negative input |
| SummaryCards.Round1Above20 | src/components/FinancialSummaryCards.jsx:8-33 | the rounded rate is above 20 exactly when the exact rate is at least 20.05 |
| SummaryCards.SavingsTrendGood | src/components/FinancialSummaryCards.jsx:8-33 | the trend is "Good" exactly when there is income and the exact savings rate is at least 20.05%; with no income the rate is 0 and the trend is "Improve" |
| SummaryCards.RecentDays | src/components/FinancialSummaryCards.jsx:11-13 | a dated expense counts exactly when it is dated no earlier than 30 days before now; future dates are included |
| SummaryCards.AverageIgnoresUndated | src/components/FinancialSummaryCards.jsx:11-15 | expenses without a valid date never enter the 30-day average |
| SummaryCards.TopCategory | src/components/FinancialSummaryCards.jsx:18-25 | no top category exactly when there are no expenses; otherwise a seen category whose total over all amounts is the largest |
| SummaryCards.HeadIsLargest | src/components/FinancialSummaryCards.jsx:24-25 | the head of the sorted entries is a seen category with the largest total |
| SummaryCards.FlowShown | src/components/FinancialSummaryCards.jsx:50 | the amount shown is never negative |
| SummaryCards.FlowCardRecovers | src/components/FinancialSummaryCards.jsx:50-53 | "Surplus" exactly when net flow is non-negative, and the shown amount with that sign gives back the net flow |
| CategoryComparison.FindIcon | src/components/CategoryComparisonTable.jsx:6-10 | the icon of the first category with that exact name, and "" when none has it |
| CategoryComparison.GetIcon | src/components/CategoryComparisonTable.jsx:6-10 | "" when there is no category list; otherwise the icon of the first expense category with exactly that name (`FindIcon`), or "" when none has it |
| CategoryComparison.DistinctMonths | src/components/CategoryComparisonTable.jsx:13-19 | the set holds exactly the months of the valid dates, and no more months than rows |
| CategoryComparison.TotalMonthsCount | src/components/CategoryComparisonTable.jsx:13-21 | the number of distinct months, or 1 when there is none; never 0 and never more than the rows |
| CategoryComparison.ThisMonthTotals | src/components/CategoryComparisonTable.jsx:29-41 | each category's this-month total, with 0 for a missing key, is the sum of its rows in the current month |
| CategoryComparison.RowOf | src/components/CategoryComparisonTable.jsx:43-53 | a row keeps the category and total of its entry, and its average times the month count is the total |
| CategoryComparison.CompareCategories | src/components/CategoryComparisonTable.jsx:13-54 | every seen category appears exactly once, rows are non-increasing in overall total, each total, average and this-month figure is the right sum, and the totals add up to all expenses |
| CategoryComparison.TableRows | src/components/CategoryComparisonTable.jsx:43-54 | the rows built from the two dictionaries have the table's properties |
| CategoryComparison.TableValues | src/components/CategoryComparisonTable.jsx:44-46 | each row's overall total, average and this-month figure are the sums they name |
| CategoryComparison.TableNames | src/components/CategoryComparisonTable.jsx:27-43 | the table's categories are exactly the seen ones |
| CategoryComparison.RowNames | src/components/CategoryComparisonTable.jsx:43 | rows built from the entries of the seen categories name exactly those categories |
| CategoryComparison.TableOrder | src/components/CategoryComparisonTable.jsx:54 | categories are distinct and rows are non-increasing in overall total |
| CategoryComparison.TableSum | src/components/CategoryComparisonTable.jsx:36-54 | the overall totals add up to the total of all expenses |
| CategoryComparison.RowsSum | src/components/CategoryComparisonTable.jsx:50 | rows that copy the entries' values sum as the entries do |
| CategoryComparison.RowColorBands | src/components/CategoryComparisonTable.jsx:56-60 | for a non-negative average: red above 120%, green below 80%, neutral exactly in between, and neutral when this month equals the average |
| CategoryComparison.NegativeAverageNeverNeutral | src/components/CategoryComparisonTable.jsx:56-60 | for a negative average no figure is neutral, and even the average itself shows red |
| Months.TrailingMonths | src/components/MonthlySummaryTable.jsx:7-17 | six valid consecutive months, oldest first, ending with the current one |
| Months.WindowKeysDistinct | src/components/MonthlyTrendChart.jsx:25 | two months have the same `YYYY-MM` key exactly when they are the same month |
| Months.MonthTotals | src/components/MonthlyTrendChart.jsx:34-44 | the per-month dictionary has a key exactly for each month of a valid date, holding the sum of that month's amounts |
| Months.MonthSeries | src/components/MonthlyTrendChart.jsx:46-47 | one value per month, each the sum of that month's amounts (0 for a month without rows) |
| Months.MonthsSplit | src/components/MonthlySummaryTable.jsx:19-60 | the lines before month `f + n` are those before `f` plus those of months `f` to `f + n - 1` |
| Months.SeriesTotal | src/components/MonthlyTrendChart.jsx:46-47 | a series over consecutive months sums to the totals of those months |
| Months.OutsideAddsNothing | src/components/MonthlyTrendChart.jsx:34-47 | lines dated outside a month (invalid ones included) do not change its total |
| MonthlySummary.CloseBalances | src/components/MonthlySummaryTable.jsx:55-60 | each closing balance is the starting balance plus the nets up to and including that month |
| MonthlySummary.NetsTotal | src/components/MonthlySummaryTable.jsx:31-52 | the nets of consecutive months add up to their income minus their expense |
| MonthlySummary.WindowBalance | src/components/MonthlySummaryTable.jsx:19-60 | the starting balance plus the window's nets is income minus expense over every line before the end of the window |
| MonthlySummary.SummaryTable | src/components/MonthlySummaryTable.jsx:7-60 | six months ending now with their sums, nets and closing balances, and the current balance equals income minus expense up to the end of this month |
| MonthlySummary.LastClosing | src/components/MonthlySummaryTable.jsx:106 | the last closing balance shown is income minus expense over everything up to the end of the current month |
| MonthlySummary.LaterLinesIgnored | src/components/MonthlySummaryTable.jsx:22-42 | lines dated after the window or undated change neither a month's sum nor the starting balance |
| MonthlySummary.CurrentBalanceIsBalance | src/components/MonthlySummaryTable.jsx:106 | when every line is dated no later than this month, the current balance is the dashboard balance |
| MonthlyTrend.TrendSeries | src/components/MonthlyTrendChart.jsx:20-47 | six distinct consecutive months ending now, and two independent series of six monthly sums |
| MonthlyTrend.EmptyMonthIsZero | src/components/MonthlyTrendChart.jsx:46-47 | a month without rows shows 0 |
| MonthlyTrend.WindowSeriesTotal | src/components/MonthlyTrendChart.jsx:46-47 | a series sums to the amounts dated inside the window |
| MonthlyTrend.OutsideWindowIgnored | src/components/MonthlyTrendChart.jsx:34-47 | rows dated outside the window, or undated, change no value of the series |
| AllMonthsTrend.DateSpan | src/components/AllMonthsTrendChart.jsx:22-32 | no span exactly when no row has a valid date; otherwise the earliest and latest months, both reached, with every dated row between them |
| AllMonthsTrend.MonthRange | src/components/AllMonthsTrendChart.jsx:34-44 | the loop lists each month from first to last, inclusive, ascending and consecutive |
| AllMonthsTrend.RangeHoldsAll | src/components/AllMonthsTrendChart.jsx:31-64 | when every dated row falls in the range, nothing lies before it and everything dated lies before its end |
| AllMonthsTrend.RangeSeriesTotal | src/components/AllMonthsTrendChart.jsx:46-64 | the series over the range sums to the total of the dated amounts |
| AllMonthsTrend.AllMonthsChart | src/components/AllMonthsTrendChart.jsx:22-64 | no chart exactly when no date is valid; otherwise consecutive months from the earliest to the latest, every dated row's month included, one value per month, each series summing to its dated amounts |
| AllMonthsTrend.RangeChart | src/components/AllMonthsTrendChart.jsx:34-64 | with the span known, the chart covers it month by month, with per-month sums that add up to the dated totals |
| AllMonthsTrend.ChartFacts | src/components/AllMonthsTrendChart.jsx:31-64 | the months of the span are consecutive, start and end on months of real rows, and hold every dated row |
| AllMonthsTrend.SpanCovers | src/components/AllMonthsTrendChart.jsx:31-44 | every dated expense and income falls inside the generated month range |
| TransactionList.Merge | src/pages/Transactions.jsx:10-13 | the list holds every expense tagged "expense" followed by every income tagged "income" |
| TransactionList.StampOf | src/pages/Transactions.jsx:16 | a transaction has a day stamp exactly when its date is valid |
| TransactionList.NewerOrSameOrder | src/pages/Transactions.jsx:16 | the newest-first comparison is total, transitive and reflexive |
| TransactionList.SinkStep | src/pages/Transactions.jsx:16 | one swap of the insertion step keeps the sorted prefix and the elements |
| TransactionList.SinkDone | src/pages/Transactions.jsx:16 | when the element stops sinking, the sorted prefix grows by one |
| TransactionList.SortNewestFirst | src/pages/Transactions.jsx:16 | the in-place sort leaves a permutation of the array, newest first |
| TransactionList.Filter | src/pages/Transactions.jsx:19-30 | the filtered list holds exactly the items satisfying the condition, and is no longer |
| TransactionList.FilterAppend | src/pages/Transactions.jsx:19-30 | filtering works item by item, so it keeps the order |
| TransactionList.FilterCounts | src/pages/Transactions.jsx:19-30 | every item satisfying the condition is kept as many times as it occurs, and no other |
| TransactionList.FilterKeepsOrder | src/pages/Transactions.jsx:19-30 | filtering a newest-first list leaves it newest first |
| TransactionList.FilterAllKeepsAll | src/pages/Transactions.jsx:21-27 | type "all" with no month keeps every item |
| TransactionList.TransactionPage | src/pages/Transactions.jsx:10-30 | the page shows a newest-first permutation of all transactions, filtered: an item is shown exactly when it matches both the type and the month filter |
| Modal.AmountPrefill | src/components/TransactionModal.jsx:19 | a prefilled amount is always positive; zero and unparseable text leave the field empty |
| Modal.CleanUnsignedNoMinus | src/components/TransactionModal.jsx:19 | on text without a minus sign, the modal's cleaning agrees with `parseVal`'s |
| Modal.PrefillIsParseVal | src/components/TransactionModal.jsx:19 | on text without a minus sign, the prefill is the `parseVal` value, or empty when that is 0 |
| Modal.PrefillNat | src/components/TransactionModal.jsx:19 | a positive whole amount is prefilled as itself |
| Modal.TransactionModal.constructor | src/components/TransactionModal.jsx:5-11 | the form starts empty with today's date, not submitting |
| Modal.TransactionModal.Open | src/components/TransactionModal.jsx:13-33 | opening in edit mode with data prefills the form, opening otherwise resets it, and a closed modal keeps its form |
| Modal.TransactionModal.BeginSubmit | src/components/TransactionModal.jsx:42-55 | a submit while submitting does nothing; otherwise the guard is set, and the request is an edit with type, id and form in edit mode, or an add with the form and type |
| Modal.TransactionModal.FinishSubmit | src/components/TransactionModal.jsx:56-61 | the guard is cleared whatever the outcome, and the modal closes only on success |

## Left out

- JavaScript `Date` parsing beyond strict `yyyy-mm-dd`: the rollover of impossible days such as `2024-02-30` and the fallback parsing of other formats are not modelled. Such text reads as an invalid date.
- Time zones: a date-only text is read as a calendar day in the local zone, so the UTC/local shift of `new Date("yyyy-mm-dd")` is not modelled.
- "Now" is not read from a clock. It is a parameter: the current month, or a day number with a time-of-day fraction for the 30-day window.
- IEEE-754 floating point: amounts and sums are exact reals. `parseFloat` is modelled as reading the longest leading decimal number.
- Display formatting with `toFixed`, `toLocaleString` and `Intl`, the chart options and labels, and the 0-decimal average are not modelled. The one exception is the `toFixed(1)` rounding that decides the savings trend, modelled by `Round1`.
- `Object.entries` key order: keys are kept in first-set order, so JavaScript's integer-like-keys-first order is not modelled. The sorts are specified up to ties as non-increasing permutations, so the order of equal totals is not fixed.
- Sorting.SortDesc: a stable insertion sort stands for the engine's built-in sort. Only the permutation and the order are promised, not the engine's tie order.
- TransactionList.SortNewestFirst: an invalid date makes the source comparator return NaN, which leaves the engine's order unspecified. The model places undated transactions after all dated ones.
- Invalid dates in the trailing-month dictionaries: the source files them under a `NaN-NaN` key, which no window month matches. The model leaves them out of every month, with the same visible series.
- Google API calls (`gapi`, Drive, Sheets), `localStorage`, `crypto.randomUUID` and `window.location.reload` are not modelled. Their results are parameters: read results, existence checks, search hits and fresh ids.
- Async sequencing of the modal: `handleSubmit` is split into `BeginSubmit` (the guard and the request) and `FinishSubmit` (the outcome). The awaited call happens between them, outside the model.
- SheetSetup.CheckAndFixSheetIds: the `try`/`catch` around the whole routine (src/services/googleSheetsService.js:108, 233-235) is not modelled. In the source any rejected call silently ends the routine; the model has every call succeed. A read that returns no values (`rows` undefined, line 199-200) is `None` and the loop goes on to the next tab.
- Ledger.GroupTotals and CategoryComparison.ThisMonthTotals: the source accumulates into plain objects (src/components/ExpenseChart.jsx:29, src/components/IncomeChart.jsx:29, src/components/TopCategoriesChart.jsx:22, src/components/FinancialSummaryCards.jsx:22, src/components/CategoryComparisonTable.jsx:36, 39). A category named like an inherited property (`constructor`, `toString`) starts from a function, so `|| 0` does not apply and `+` concatenates text; a write to `__proto__` is dropped. The model's `map<string, real>` treats every name as a fresh key, so these categories are not modelled.
- Ledger.Tally: its contract is the loop invariant of one step. The meaning of the whole loop is stated by `GroupTotals` and `GroupedAll`.
- `ToLower` maps ASCII letters only. Unicode case mapping is not modelled.
- The delete and edit handlers of the transactions page only raise an alert and change nothing, so they are not modelled.
- `deleteCategory` only logs a message, so it is not modelled.
- `createExpenseSheet` is covered only through what it writes (`CreateWrites`). The Drive create call is not modelled.
- Authentication, data loading in the app shell, routing, and the purely presentational components are outside this model.

## Findings

| source | as written | input that shows it | evidently intended | confidence | as-written member | corrected member |
|---|---|---|---|---|---|---|
| src/services/api.js:84-90 | `deleteRowById` sends `deleteDimension` with `startIndex: rowIndex + 2`. Grid indices are 0-based with the header at index 0, so data row `rowIndex` sits at grid index `rowIndex + 1`: the request removes the row after the target, or nothing when the target is the last row | tab rows `[a, b]`, deleting `a.id`: the tab becomes `[a]`; in general the row after the one found is removed | `startIndex: rowIndex + 1`, which removes exactly the row with the id | not executed | SheetApi.DeleteAsWrittenMissesTarget | SheetApi.DeleteRemovesOne |
