# TaxWise budget core in Dafny

A model of the logic behind the TaxWise (TrackSoft) monthly budgeting app: the
2024/2025 South African income-tax calculation, the display-currency
conversion and formatting, the budget state and its transitions (add, delete,
partial update, import), the spending breakdown, the budget-versus-actual
review, the add-expense and salary input rules, JSON and spreadsheet
export/import, the upload dispatch by file extension and the PDF page fit.

All money is kept in ZAR as Dafny `real`; the display currency only scales what
is shown and what is typed. Documents are abstract values: a JSON value
(`Json.Json`, with `NaN` because `parseFloat` can produce it) and a workbook as a
sequence of named sheets of rows (`FileHandlers.Workbook`). Things the program
takes from its runtime — JSON text encoding and decoding, the numeric lexer
behind `parseFloat`, the clock — are fields of `Json.Host`; round trips through
text are stated for a host that reads back the text it wrote for the one
document concerned (`Json.ReadsBack`), and say what happens when it cannot parse
that text.

Modules, one per source file plus shared helpers:

- `Wrappers` — `Option` and `Result`.
- `Text` — decimal rendering, ASCII lower-casing, ECMAScript `trim`, the last piece of `split`.
- `Types` — currencies, categories, `Expense`, `BudgetState`, `TaxDetails`, the expense total.
- `Currencies` — the rate table, conversion both ways, `formatCurrency`.
- `Tax` — the bracket table, bracket lookup, `calculateSATax` and its monotonicity and bounds.
- `Json` — JSON values, JavaScript truthiness and `||`, the budget's document shape and its typed reading.
- `FileHandlers` — JSON and spreadsheet export and import, with round trips.
- `Dashboard` — initial state, derived figures, transitions, upload dispatch, page fit.
- `SpendingChart` — the per-label grouping fold, and the plain-object fold the program actually runs.
- `BudgetReview` — actuals, comparison rows, totals and verdict, the review import.
- `ExpenseForm` — validation and submission.
- `IncomeCard` — the salary field and the tax breakdown shown.

## Model

| member | source | states |
|---|---|---|
| Types.CurrencyFromCode | src/types/index.ts:1 | a text reads as a currency exactly when it is one of the three codes ZAR, USD, EUR, and the reading inverts the code |
| Types.CategoryFromName | src/types/index.ts:3-11 | a text reads as a category exactly when it is one of the five names, "Medical Aid" included, and the reading inverts the name |
| Types.ExpenseCategoriesComplete | src/types/index.ts:3-11 | the category list holds every category, under pairwise distinct names |
| Types.TotalExpensesAppend | src/components/taxwise/TaxWiseDashboard.tsx:39-41 | the running total of amounts is additive over concatenation |
| Currencies.Details | src/lib/currency.ts:8-12 | every currency has a one-character symbol and a strictly positive rate, and the rate is 1 exactly for ZAR |
| Currencies.Convert | src/lib/currency.ts:14-16 | conversion is the identity for ZAR and preserves sign and zero |
| Currencies.ToZar | src/components/taxwise/IncomeCard.tsx:45 | dividing by the rate is the identity for ZAR and preserves sign |
| Currencies.ConvertUndoesToZar | src/lib/currency.ts:14-16 | converting an amount that was divided by the rate gives it back, and the other way round |
| Currencies.ConvertIsLinear | src/lib/currency.ts:14-16 | conversion distributes over sums, commutes with scaling and maps 0 to 0 |
| Currencies.ConvertIsMonotone | src/lib/currency.ts:14-16 | conversion preserves order, strictly for strict order |
| Currencies.RoundCents | src/lib/currency.ts:20-23 | the cents shown are within half a cent of the amount |
| Currencies.Group | src/lib/currency.ts:20-23 | grouping only inserts commas, removing them gives back the digits, and the commas stand exactly before every group of three digits counted from the right, leaving one to three leading digits |
| Currencies.FormatAmount | src/lib/currency.ts:20-23 | the amount text has a minus sign exactly for negative amounts, whole units grouped in threes by commas and exactly two fraction digits, which together spell the rounded cents |
| Currencies.ToFixed2 | src/components/taxwise/IncomeCard.tsx:42 | `toFixed(2)` text: a minus sign exactly for negative amounts, ungrouped whole units without a leading zero, a point and two digits, together denoting the rounded cents |
| Currencies.ReadToFixed2 | src/components/taxwise/IncomeCard.tsx:42 | reading a `toFixed(2)` text back gives the amount's sign and its rounded cents |
| Currencies.FormatCurrency | src/lib/currency.ts:18-25 | the output is the currency symbol, one space, then the formatted amount |
| Tax.TaxBracketsWellFormed | src/lib/tax.ts:4-12 | the table starts at threshold 0, thresholds ascend, rates lie in [0, 1), and each base equals the previous base plus the previous span times the previous rate |
| Tax.LastAtOrBelow | src/lib/tax.ts:24 | the search from the top returns the highest bracket whose threshold is at most the income, or none when every threshold is above it |
| Tax.FindBracket | src/lib/tax.ts:24 | the chosen bracket is the last whose threshold is at most the income, so an income exactly at a threshold takes the higher bracket; no bracket exactly when every threshold exceeds the income |
| Tax.CalculateSATax | src/lib/tax.ts:18-41 | gross and taxable income are 12 times the salary; annual tax is base tax less the rebate floored at 0, never negative; monthly tax is a twelfth of it; net pay is salary less monthly tax, at most the salary and non-negative for a non-negative salary; an annual income of at most 95750 pays nothing |
| Tax.CalculateTax | src/lib/tax.ts:18-41 | for any table and rebate: gross and taxable income are 12 times the salary; annual tax is at least 0 and at least base tax less the rebate, and equals one of them; monthly tax is a twelfth of it and net pay plus monthly tax is the salary |
| Tax.BaseTaxIsBracketLine | src/lib/tax.ts:24-28 | the tax before the rebate is the base plus rate on the excess of the highest bracket whose threshold is at most the income |
| Tax.NoBracketNoTax | src/lib/tax.ts:22-28 | with every threshold above the income the tax before the rebate is 0 |
| Tax.BaseGrowthBounded | src/lib/tax.ts:4-12 | in a continuous table the bases grow by at least 0 and at most the growth of the thresholds |
| Tax.ThresholdsAscend | src/lib/tax.ts:4-12 | thresholds strictly ascend between any two brackets |
| Tax.TaxGrowthBounded | src/lib/tax.ts:4-12 | between two incomes the tax before the rebate grows by at least 0 and at most the income difference |
| Tax.BaseTaxAtMostIncome | src/lib/tax.ts:22-28 | the tax before the rebate lies between 0 and a non-negative income, and is 0 for a negative one |
| Tax.TaxFreeBelowThreshold | src/lib/tax.ts:5-15 | up to 95750 a year the tax before the rebate does not exceed the 17235 rebate |
| Tax.TaxIsMonotone | src/lib/tax.ts:18-41 | a higher salary never owes less annual or monthly tax and never takes home less |
| Tax.NoTaxWithoutIncome | src/lib/tax.ts:22-30 | a zero or negative salary owes nothing and keeps itself as net pay; only a negative one matches no bracket |
| Tax.WorkedExample | src/lib/tax.ts:18-41 | a monthly 50000 is 600000 a year in the 512800 bracket, 152867 before and 135632 after the rebate |
| Json.Or | src/lib/fileHandlers.ts:107-108 | `a or b` yields `a` when it is truthy and `b` otherwise |
| Json.ParseFloat | src/lib/fileHandlers.ts:108 | a number parses as itself, `NaN` as no number, and a string as the lexer reads it |
| Json.EncodeExpense | src/types/index.ts:13-18 | the serialised expense carries a `customName` key exactly when the expense has a custom name |
| Json.DecodeExpense | src/types/index.ts:13-18 | a decoded expense's id, category name, amount and custom name are the document's fields |
| Json.DecodeEncodeExpense | src/types/index.ts:13-18 | decoding a serialised expense gives it back |
| Json.DecodeExpenseList | src/types/index.ts:22 | a list decodes element by element, and fails exactly when some element fails |
| Json.DecodeEncodeExpenseList | src/types/index.ts:22 | decoding a serialised expense list gives it back in order |
| Json.EncodeBudget | src/types/index.ts:20-24 | the serialised budget has exactly the three keys monthlySalary, expenses and currency |
| Json.DecodeBudget | src/types/index.ts:20-24 | a decoded budget's salary, currency code and expense list are the document's fields |
| Json.DecodeEncodeBudget | src/lib/fileHandlers.ts:5-6 | decoding a serialised budget gives it back, and the serialised budget holds no `NaN` |
| FileHandlers.ValidateBudgetDocument | src/lib/fileHandlers.ts:25-31 | a parsed document passes unchanged exactly when all three budget keys are present; otherwise `null` fails as a null document and anything else with the invalid-structure error |
| FileHandlers.Message | src/lib/fileHandlers.ts:23-138 | the program supplies the text for a read failure, non-text content, a missing key, no sheet and an empty RawData sheet; the other errors take their text from the runtime |
| FileHandlers.MessagesDistinct | src/lib/fileHandlers.ts:23-138 | the program's own messages tell its errors apart |
| FileHandlers.ImportFromJson | src/lib/fileHandlers.ts:18-37 | a read or parse failure is passed on; otherwise the parsed document is validated |
| FileHandlers.ParseJsonText | src/lib/fileHandlers.ts:25 | text yields a document exactly when the host parses it |
| FileHandlers.ExportJson | src/lib/fileHandlers.ts:5-6 | the exported document always passes import validation and reads back as the same budget |
| FileHandlers.JsonFileRoundTrip | src/lib/fileHandlers.ts:5-31 | saving a budget as JSON text and importing the text gives back the same document and budget when the host reads its text back, and a syntax error when it cannot parse it |
| FileHandlers.SummaryRows | src/lib/fileHandlers.ts:46-55 | the Summary sheet reports the currency code, the gross salary, the monthly tax and net income (0 without tax details), the expense total, and net income less that total |
| FileHandlers.ExpenseLabel | src/lib/fileHandlers.ts:61 | the label is the custom name for `Other` and the category name otherwise |
| FileHandlers.ExpenseRow | src/lib/fileHandlers.ts:60-63 | an Expenses row holds the ZAR amount and the label, with no Category cell when the label is missing |
| FileHandlers.ExpenseRows | src/lib/fileHandlers.ts:60-63 | one Expenses row per expense, in order |
| FileHandlers.RawDataRow | src/lib/fileHandlers.ts:68-72 | the RawData row reads back as the exported budget |
| FileHandlers.ExportExcel | src/lib/fileHandlers.ts:42-74 | the workbook's sheets are Summary, Expenses and RawData in that order, with one row per expense and exactly one RawData row |
| FileHandlers.FirstSheet | src/lib/fileHandlers.ts:95 | the first sheet whose name satisfies the test, or none when no name does |
| FileHandlers.ImportedIdsDistinct | src/lib/fileHandlers.ts:105 | within one import, distinct row indices give distinct ids |
| FileHandlers.ImportedIdSpells | src/lib/fileHandlers.ts:105 | the id is `imported-`, the row index in decimal, a dash and the clock reading in decimal, each part reading back as its number |
| FileHandlers.FallbackName | src/lib/fileHandlers.ts:107 | the name is a truthy `Category`, else a truthy `category`, else "Imported Expense" |
| FileHandlers.ParsedNumber | src/lib/fileHandlers.ts:108 | `parseFloat` gives the number read, and `NaN` exactly when nothing can be read |
| FileHandlers.FallbackAmount | src/lib/fileHandlers.ts:108 | the amount is `parseFloat` of a truthy `Amount`, else of a truthy `amount`, else 0, `NaN` when unreadable; a non-zero number in `Amount` is kept |
| FileHandlers.FallbackBudget | src/lib/fileHandlers.ts:104-116 | the fallback budget has salary 0, currency ZAR, and one expense per row, in order |
| FileHandlers.FallbackExpenseDecodes | src/lib/fileHandlers.ts:104-109 | a fallback expense reads as a typed expense exactly when its name is text and its amount a number, as an `Other` expense with the row's id, name and amount |
| FileHandlers.ReadRawData | src/lib/fileHandlers.ts:123-129 | a row whose `expenses` is not text is returned as it is; a text `expenses` is replaced by its parse, every other key kept, and text the host cannot parse is a syntax error |
| FileHandlers.ImportWorkbook | src/lib/fileHandlers.ts:95-132 | with a RawData sheet, a truthy first row is read (its text `expenses` parsed) and a missing or falsy one fails with "RawData sheet is empty"; without one, the fallback reads the first sheet named "expenses" in any case, else the first sheet, and fails with "No valid sheet found" only when that sheet has no name or the workbook none; a fallback import always defines the three budget keys |
| FileHandlers.ImportFromExcel | src/lib/fileHandlers.ts:89-139 | a read failure is passed on; otherwise the workbook is imported |
| FileHandlers.ExcelRoundTrip | src/lib/fileHandlers.ts:68-129 | importing the exported workbook takes the RawData path and gives back the exported budget |
| FileHandlers.Stored | src/lib/fileHandlers.ts:125-127 | saving and reopening keeps every sheet name and row count |
| FileHandlers.ExcelFileRoundTrip | src/lib/fileHandlers.ts:68-129 | exporting, saving, reopening and importing gives back salary, currency and expenses when the host reads back the stored `expenses` text, and is a syntax error when it cannot parse it |
| FileHandlers.RawDataPath | src/lib/fileHandlers.ts:120-129 | with a RawData sheet whose first row is an object, the import reads that row |
| FileHandlers.ReadStoredRawData | src/lib/fileHandlers.ts:124-128 | a RawData row whose expense array was stored as text reads back as the budget document when the host reads that text back, and is a syntax error when it cannot parse it |
| FileHandlers.ReimportedExpense | src/lib/fileHandlers.ts:104-109 | an exported row comes back as an `Other` expense with the same amount, a fresh id, and the label as name or "Imported Expense" when the label is missing or empty |
| FileHandlers.Reimported | src/lib/fileHandlers.ts:104-109 | one reimported expense per expense, indexed by position |
| FileHandlers.FallbackReadsExpenseRow | src/lib/fileHandlers.ts:104-109 | the fallback's expense for an exported row decodes as the reimported expense |
| FileHandlers.FallbackRowIsEncoded | src/lib/fileHandlers.ts:104-109 | the object the fallback builds from an exported row is exactly the stored form of the reimported expense |
| FileHandlers.ExportSheetNames | src/lib/fileHandlers.ts:98 | the case-insensitive test skips "Summary" and picks "Expenses" |
| FileHandlers.FallbackPath | src/lib/fileHandlers.ts:96-116 | without RawData the import is the fallback over the chosen sheet |
| FileHandlers.DecodeFallback | src/lib/fileHandlers.ts:104-116 | the fallback over exported rows decodes as salary 0, currency ZAR and the reimported expenses |
| FileHandlers.DecodeFallbackItems | src/lib/fileHandlers.ts:104-109 | the fallback's expense objects for exported rows decode, in order, as the reimported expenses |
| FileHandlers.ExcelFallbackImport | src/lib/fileHandlers.ts:96-117 | without its RawData sheet an exported workbook imports every expense, in order, as an `Other` expense with its amount and label, with salary 0 and currency ZAR |
| Dashboard.InitialBudget | src/components/taxwise/TaxWiseDashboard.tsx:21-25 | the start state has salary 0, no expenses and currency ZAR, hence no tax details and a zero balance |
| Dashboard.TaxDetailsOf | src/components/taxwise/TaxWiseDashboard.tsx:32-37 | tax details exist exactly for a positive salary and are then the salary's tax breakdown |
| Dashboard.NetMonthlyIncome | src/components/taxwise/TaxWiseDashboard.tsx:43 | net income is 0 without a positive salary, else the taxed net pay, between 0 and the salary |
| Dashboard.RemainingBalance | src/components/taxwise/TaxWiseDashboard.tsx:44 | the balance plus the expense total is the net income, and never exceeds the salary less the total |
| Dashboard.SummaryMatchesDashboard | src/lib/fileHandlers.ts:52-54 | the exported Summary reports the dashboard's net income, total and remaining balance |
| Dashboard.HandleStateChange | src/components/taxwise/TaxWiseDashboard.tsx:46-48 | supplied fields overwrite and every other field stays |
| Dashboard.StateChangesCompose | src/components/taxwise/TaxWiseDashboard.tsx:46-48 | two updates in a row equal one update whose later fields win |
| Dashboard.AddExpense | src/components/taxwise/TaxWiseDashboard.tsx:50-55 | exactly one expense with the fresh id is appended, the earlier ones, salary and currency stay, and the total grows by its amount |
| Dashboard.WithoutId | src/components/taxwise/TaxWiseDashboard.tsx:60 | no kept expense carries the id; an absent id keeps the list as it is |
| Dashboard.WithoutIdKeeps | src/components/taxwise/TaxWiseDashboard.tsx:60 | the kept expenses are exactly those of the list without the id |
| Dashboard.DeleteExpense | src/components/taxwise/TaxWiseDashboard.tsx:57-62 | every expense with the id goes, the rest keep their order, salary and currency stay |
| Dashboard.DeleteSplitsTotal | src/components/taxwise/TaxWiseDashboard.tsx:57-62 | the total before deletion is the total kept plus the total deleted |
| Dashboard.DeleteUndoesAdd | src/components/taxwise/TaxWiseDashboard.tsx:50-62 | deleting an expense just added under an unused id restores the budget |
| Dashboard.Extension | src/components/taxwise/TaxWiseDashboard.tsx:65 | the extension holds no dot, and a dotless name is lower-cased whole |
| Dashboard.LastSegmentAfterDot | src/components/taxwise/TaxWiseDashboard.tsx:65 | the piece after the last dot of `stem.ext` is `ext` |
| Dashboard.ExtensionOfDottedName | src/components/taxwise/TaxWiseDashboard.tsx:65 | the extension of `stem.ext` is `ext` lower-cased |
| Dashboard.KindOf | src/components/taxwise/TaxWiseDashboard.tsx:83-93 | json dispatches to the JSON importer, xlsx or xls to the spreadsheet importer, anything else is unsupported |
| Dashboard.SavedNamesDispatch | src/components/taxwise/TaxWiseDashboard.tsx:83-86 | the names the exports save under dispatch back to their importers |
| Dashboard.ApplyImport | src/components/taxwise/TaxWiseDashboard.tsx:67-81 | a successful import replaces the budget wholesale; a failure reports its reason and leaves the budget |
| Dashboard.HandleFileUpload | src/components/taxwise/TaxWiseDashboard.tsx:64-94 | the upload goes to the importer the extension picks, an unsupported one changes nothing, and any failure leaves the budget |
| Dashboard.JsonUploadRestores | src/components/taxwise/TaxWiseDashboard.tsx:64-84 | uploading the JSON text saved from a budget restores the saved budget when the host reads its text back; when it cannot parse it, the budget stays and the upload fails with a syntax error |
| Dashboard.ExcelUploadRestores | src/components/taxwise/TaxWiseDashboard.tsx:64-86 | uploading a saved workbook restores the saved budget when the host reads back the stored expense text; when it cannot parse it, the budget stays and the upload fails with a syntax error |
| Dashboard.FitImage | src/components/taxwise/TaxWiseDashboard.tsx:117-128 | the fitted image keeps its aspect ratio, fits within the page less the margin with one side at the limit, is centred, and has positive size on a page larger than the margin |
| SpendingChart.Label | src/components/taxwise/SpendingChart.tsx:42 | the label is the custom name for `Other`, "Other" when that is missing or empty, and the category name otherwise |
| SpendingChart.Accumulate | src/components/taxwise/SpendingChart.tsx:43-47 | the truthiness test on the running total never changes the sum |
| SpendingChart.AddTo | src/components/taxwise/SpendingChart.tsx:43-47 | adding keeps names distinct, adds the name, raises only that name's value by the amount and the sum by the amount |
| SpendingChart.ChartData | src/components/taxwise/SpendingChart.tsx:39-51 | one entry per distinct label, a name exactly when some expense has that label, each value the total of that label, and the values summing to the expense total |
| SpendingChart.View | src/components/taxwise/SpendingChart.tsx:60-63 | the no-data message shows exactly when there are no expenses, otherwise a chart over the corrected grouping, which is never empty (the grouping as written can leave it empty, see Findings) |
| SpendingChart.SameLabelSharesEntry | src/components/taxwise/SpendingChart.tsx:39-51 | two expenses with one label share an entry holding their sum, entries in order of first appearance |
| SpendingChart.AsWrittenAddTo | src/components/taxwise/SpendingChart.tsx:43-47 | on the plain object a new `__proto__` label is dropped and any other inherited name is stored as text; a step adds at most one key and keeps the own keys distinct and free of `__proto__` |
| SpendingChart.AsWrittenChart | src/components/taxwise/SpendingChart.tsx:40-50 | the plain-object fold has at most one own entry per expense, under distinct keys, none of them `__proto__` |
| SpendingChart.AsWrittenAgreesOffInheritedNames | src/components/taxwise/SpendingChart.tsx:40-50 | while no label is an inherited property name, the plain-object fold equals the grouping fold |
| SpendingChart.AsWrittenStepAgrees | src/components/taxwise/SpendingChart.tsx:43-47 | one plain-object step equals one grouping step on a name that is not inherited |
| SpendingChart.ProtoLabelIsDropped | src/components/taxwise/SpendingChart.tsx:40-63 | an `Other` expense named "__proto__" leaves no entry, although 100 was spent, and the pie is drawn over nothing instead of the no-data message |
| SpendingChart.InheritedLabelIsGarbled | src/components/taxwise/SpendingChart.tsx:40-50 | an `Other` expense named "constructor" is charted with a text value |
| BudgetReview.Lookup | src/components/taxwise/BudgetReview.tsx:66 | an id has an entered text exactly when it is a key, and the text is the one stored under it |
| BudgetReview.SetActual | src/components/taxwise/BudgetReview.tsx:53-55 | the edited id maps to the new text, every other id keeps its text, keys stay distinct and only the id is added |
| BudgetReview.ActualOf | src/components/taxwise/BudgetReview.tsx:66 | a row without an entry shows an actual of 0 |
| BudgetReview.ComparisonData | src/components/taxwise/BudgetReview.tsx:64-69 | one row per expense in order, budget converted to the display currency, actual as entered or 0, difference budget less actual |
| BudgetReview.TotalActualZar | src/components/taxwise/BudgetReview.tsx:59-62 | the actual total converted to the display currency is the sum of the entered actuals |
| BudgetReview.TotalDifferenceZar | src/components/taxwise/BudgetReview.tsx:71 | the difference plus the actual total is the budgeted total |
| BudgetReview.Heading | src/components/taxwise/BudgetReview.tsx:168-169 | "Total Overspent" exactly for a negative difference, "Total Saved" otherwise |
| BudgetReview.ShownDifference | src/components/taxwise/BudgetReview.tsx:170 | the figure is the converted size of the difference, never negative |
| BudgetReview.RowDifferencesMatchTotal | src/components/taxwise/BudgetReview.tsx:57-71 | with distinct expense ids and every actual keyed by an expense id, the row differences add up to the converted total difference |
| BudgetReview.InitialReview | src/components/taxwise/BudgetReview.tsx:17-18 | the review starts with no budget and no actuals |
| BudgetReview.ImportForReview | src/components/taxwise/BudgetReview.tsx:22-40 | a successful JSON import loads the budget and clears the actuals; a failure changes nothing |
| BudgetReview.EditActual | src/components/taxwise/BudgetReview.tsx:53-55 | editing a row changes only that row's entry and never the budget |
| BudgetReview.EditsStayOnRows | src/components/taxwise/BudgetReview.tsx:129-140 | edits made on the rows keep every actual keyed by an expense id |
| ExpenseForm.Validate | src/components/taxwise/ExpenseForm.tsx:15-27 | the amount issue is reported exactly below 0.01, the custom-name issue exactly for `Other` without a non-blank name, and the form is valid exactly when neither applies |
| ExpenseForm.RequiredNameMeans | src/components/taxwise/ExpenseForm.tsx:19-23 | the refinement holds exactly when an `Other` form's name has a non-whitespace character |
| ExpenseForm.SubmitForm | src/components/taxwise/ExpenseForm.tsx:47-57 | a valid form submits its category with a positive ZAR amount that converts back to what was typed, a custom name only for `Other`, and resets to Food, "" and 0; an invalid one reports its issues |
| ExpenseForm.SubmittedOtherIsChartedByName | src/components/taxwise/ExpenseForm.tsx:53 | a submitted `Other` expense is charted under its custom name |
| ExpenseForm.DefaultValuesAreRejected | src/components/taxwise/ExpenseForm.tsx:36-41 | the untouched form is rejected for its amount alone |
| IncomeCard.SalaryFromInput | src/components/taxwise/IncomeCard.tsx:43-47 | the stored salary converts back to the typed number, is 0 for unreadable text, and is negative exactly when the typed number is |
| IncomeCard.DisplayedSalary | src/components/taxwise/IncomeCard.tsx:42 | the number before formatting is the ZAR salary in the display currency, with the salary's sign |
| IncomeCard.SalaryField | src/components/taxwise/IncomeCard.tsx:42 | the field's `toFixed(2)` text reads back as the salary's sign and its display-currency amount rounded to cents |
| IncomeCard.TypedSalaryIsShown | src/components/taxwise/IncomeCard.tsx:42-47 | after typing a number the stored salary converts back to exactly that number, and the re-rendered field shows it rounded to cents |
| IncomeCard.TaxBreakdown | src/components/taxwise/IncomeCard.tsx:53-64 | the breakdown shows exactly when there are tax details, each figure the converted ZAR figure |
| Text.NatToString | src/lib/fileHandlers.ts:105 | a whole number renders as a non-empty run of digits ending in its last digit, starting with 0 only for 0 |
| Text.NatToStringValue | src/lib/fileHandlers.ts:105 | the rendered digits denote the number, with no leading zero |
| Text.NatToStringInjective | src/lib/fileHandlers.ts:105 | distinct numbers render differently |
| Text.Lower | src/lib/fileHandlers.ts:98 | lower-casing keeps the length and maps each character on its own |
| Text.TrimNonEmptyIffNonBlank | src/components/taxwise/ExpenseForm.tsx:21 | a trimmed text is non-empty exactly when it has a non-whitespace character |
| Text.LastSegment | src/components/taxwise/TaxWiseDashboard.tsx:65 | the last piece of a split is a dot-free suffix that follows the last separator, or the whole text |

## Left out

- File reading, the `FileReader` callbacks, spreadsheet bytes and the download links are I/O; a chosen file is given as what each reader yields (`FileHandlers.FileInput`), and a read failure is an `ImportError` value.
- JSON text encoding and decoding and the `parseFloat` lexer are host functions (`Json.Host`), not modelled; text round trips are stated under `Json.ReadsBack` for the document concerned, and the parse-failure case as a syntax error.
- FileHandlers.Stored: what the spreadsheet library does with an array-valued cell is not modelled; the model takes it to store the value's JSON text, which is what the re-parse at src/lib/fileHandlers.ts:125-127 expects.
- The spreadsheet library's header-row mechanics and hidden-sheet flag are not modelled; an object row is read back as the object written.
- The clock (`new Date()`) is a parameter: `AddExpense` takes the fresh id, and the fallback import uses one clock reading for all rows, where the program reads the clock once per row.
- `toLocaleString` is modelled only for the en-US shape (sign, comma grouping, two decimals, half-up rounding on exact reals); `toLowerCase` is modelled for ASCII letters only.
- Currencies.ToFixed2: `toFixed(2)` is modelled on exact reals, rounding half-up on the magnitude; the binary floating-point representation (where a typed 1.005 is stored just below it) and exponent notation for very large numbers are not modelled.
- IEEE-754 arithmetic, `Infinity` and `NaN` in stored amounts are not modelled: amounts and salaries are exact reals, and sums are order-independent.
- Json.DecodeBudget: after a JSON import the program stores whatever document passes the three-key check, whatever the field types; the model reads it as a typed budget and reports a document with the keys but wrong types as `Mistyped`, an error the program does not have. Extra keys are dropped.
- Dashboard.ApplyImport: the spreadsheet paths have no key check, and the program loads whatever they produce (src/components/taxwise/TaxWiseDashboard.tsx:67-68): a RawData row missing keys, a fallback expense with a `NaN` amount or a non-text name. The model rejects such a document as `Mistyped` and keeps the old budget, so it rejects the whole import where the program would load a partly unusable budget.
- Json.ParseFloat: arrays and objects are read as `NaN`; the program would lex their string form.
- Dashboard.FitImage: requires a positive image width and height; the program does not guard against a zero-sized capture, which would give non-finite sizes.
- Dashboard.FitImage: html2canvas, jsPDF and the toasts are not modelled; only the placement arithmetic is.
- SpendingChart.ChartData: entries are in order of first appearance; `Object.entries` lists integer-like labels (such as "2024") first in ascending order, which is not modelled.
- BudgetReview.ImportForReview: the file picker and its reset are not modelled; ids that are inherited property names of a plain object are not modelled for the actuals table.
- ExpenseForm.Validate: zod's coercion of the typed amount is taken as done; text that does not coerce to a number is not modelled.
- React state hooks, rendering and the presentation-only components (header, expense table, summary card) are not modelled.
- FileHandlers.Message: messages that come from the runtime (`JSON.parse`, a null document, the spreadsheet reader) are not modelled as text.

The program has a fixed set of five categories. A negative salary is neither
rejected nor clamped: it matches no bracket, owes no tax and keeps itself as net
pay. Form input problems are shown as messages on the form's fields, not as
import errors. The fallback spreadsheet import turns an unreadable amount into
`NaN`, not 0.

## Findings

| source | as written | input that shows it | evidently intended | confidence | as-written member | corrected member |
|---|---|---|---|---|---|---|
| src/components/taxwise/SpendingChart.tsx:40-50 | per-label totals are kept in a plain object literal, so a label that names an inherited property is read as already present: `__proto__` swallows the `+=` and never becomes an entry, and names such as `constructor` become text values | one `Other` expense with custom name "__proto__" and amount 100: no chart entry, although the total spent is 100 | one entry per distinct label whatever the label, valued at the label's total, summing to the total spent | high, not executed | SpendingChart.ProtoLabelIsDropped | SpendingChart.ChartData |
