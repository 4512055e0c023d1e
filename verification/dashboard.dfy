/**
 * The dashboard's state machine and derived figures: the initial budget, the
 * tax details and remaining balance, partial updates, adding and deleting
 * expenses, the file-upload dispatch by extension, and the arithmetic that
 * fits a captured image onto a PDF page.
 */
module Dashboard {
  import opened Wrappers
  import opened Types
  import opened Text
  import opened Json
  import opened Tax
  import opened FileHandlers

  /** The budget a fresh dashboard starts from. */
  function InitialBudget(): (b: BudgetState)
    ensures b.monthlySalary == 0.0 && b.expenses == [] && b.currency == ZAR
    ensures TaxDetailsOf(b).None? && RemainingBalance(b) == 0.0
  {
    BudgetState(0.0, [], ZAR)
  }

  /** The tax details, computed only for a positive salary. */
  function TaxDetailsOf(b: BudgetState): (r: Option<TaxDetails>)
    ensures r.Some? <==> b.monthlySalary > 0.0
    ensures r.Some? ==> r.value == CalculateSATax(b.monthlySalary)
  {
    if b.monthlySalary > 0.0 then Some(CalculateSATax(b.monthlySalary)) else None
  }

  /** The net monthly income: the taxed salary when there is one, else 0. */
  function NetMonthlyIncome(b: BudgetState): (r: real)
    ensures b.monthlySalary <= 0.0 ==> r == 0.0
    ensures b.monthlySalary > 0.0 ==> r == CalculateSATax(b.monthlySalary).netMonthly
    ensures 0.0 <= r && (b.monthlySalary > 0.0 ==> r <= b.monthlySalary)
  {
    NetOrZero(TaxDetailsOf(b))
  }

  /** What is left of the net income after the expenses. */
  function RemainingBalance(b: BudgetState): (r: real)
    ensures r + TotalExpenses(b.expenses) == NetMonthlyIncome(b)
    ensures b.monthlySalary > 0.0 ==> r <= b.monthlySalary - TotalExpenses(b.expenses)
  {
    NetMonthlyIncome(b) - TotalExpenses(b.expenses)
  }

  /** The Summary sheet of an export reports the dashboard's own figures. */
  lemma SummaryMatchesDashboard(b: BudgetState)
    ensures var rows := ExportExcel(b, TaxDetailsOf(b))[0].rows;
            && SummaryValue(rows, "Monthly Net Income") == Some(Num(NetMonthlyIncome(b)))
            && SummaryValue(rows, "Total Expenses") == Some(Num(TotalExpenses(b.expenses)))
            && SummaryValue(rows, "Remaining Balance") == Some(Num(RemainingBalance(b)))
  {
    SummaryReports(b, TaxDetailsOf(b), NetMonthlyIncome(b), RemainingBalance(b));
  }

  lemma SummaryReports(b: BudgetState, td: Option<TaxDetails>, net: real, remaining: real)
    requires NetOrZero(td) == net && remaining == net - TotalExpenses(b.expenses)
    ensures var rows := ExportExcel(b, td)[0].rows;
            && SummaryValue(rows, "Monthly Net Income") == Some(Num(net))
            && SummaryValue(rows, "Total Expenses") == Some(Num(TotalExpenses(b.expenses)))
            && SummaryValue(rows, "Remaining Balance") == Some(Num(remaining))
  {
    SummaryFigures(b, td, net, remaining, ExportExcel(b, td)[0].rows);
  }

  /** The three figures, read off the Summary rows themselves. */
  lemma SummaryFigures(b: BudgetState, td: Option<TaxDetails>, net: real, remaining: real, rows: seq<Json>)
    requires rows == SummaryRows(b, td)
    requires NetOrZero(td) == net && remaining == net - TotalExpenses(b.expenses)
    ensures SummaryValue(rows, "Monthly Net Income") == Some(Num(net))
    ensures SummaryValue(rows, "Total Expenses") == Some(Num(TotalExpenses(b.expenses)))
    ensures SummaryValue(rows, "Remaining Balance") == Some(Num(remaining))
  {
  }

  // ---------------------------------------------------------------- transitions

  /** The fields a partial update supplies; `None` leaves a field as it is. */
  datatype Patch = Patch(monthlySalary: Option<real>, expenses: Option<seq<Expense>>, currency: Option<Currency>)

  /** `handleStateChange`: the supplied fields overwrite, the rest stay. */
  function HandleStateChange(b: BudgetState, p: Patch): (r: BudgetState)
    ensures p.monthlySalary.None? ==> r.monthlySalary == b.monthlySalary
    ensures p.expenses.None? ==> r.expenses == b.expenses
    ensures p.currency.None? ==> r.currency == b.currency
    ensures p.monthlySalary.Some? ==> r.monthlySalary == p.monthlySalary.value
    ensures p.expenses.Some? ==> r.expenses == p.expenses.value
    ensures p.currency.Some? ==> r.currency == p.currency.value
  {
    BudgetState(
      p.monthlySalary.GetOr(b.monthlySalary),
      p.expenses.GetOr(b.expenses),
      p.currency.GetOr(b.currency))
  }

  /** Two updates in a row act as one whose later fields win. */
  function Then(p: Patch, q: Patch): Patch {
    Patch(
      if q.monthlySalary.Some? then q.monthlySalary else p.monthlySalary,
      if q.expenses.Some? then q.expenses else p.expenses,
      if q.currency.Some? then q.currency else p.currency)
  }

  lemma StateChangesCompose(b: BudgetState, p: Patch, q: Patch)
    ensures HandleStateChange(HandleStateChange(b, p), q) == HandleStateChange(b, Then(p, q))
  {
  }

  /** `addExpense`: the draft, with its fresh id, goes at the end. */
  function AddExpense(b: BudgetState, d: Draft, freshId: string): (r: BudgetState)
    ensures |r.expenses| == |b.expenses| + 1
    ensures r.expenses[..|b.expenses|] == b.expenses
    ensures r.expenses[|b.expenses|] == Expense(freshId, d.category, d.customName, d.amount)
    ensures r.monthlySalary == b.monthlySalary && r.currency == b.currency
    ensures TotalExpenses(r.expenses) == TotalExpenses(b.expenses) + d.amount
  {
    var e := Expense(freshId, d.category, d.customName, d.amount);
    TotalExpensesAppend(b.expenses, [e]);
    assert TotalExpenses([e]) == TotalExpenses([]) + e.amount;
    b.(expenses := b.expenses + [e])
  }

  /** The expenses whose id is not `id`, in their order. */
  function WithoutId(es: seq<Expense>, id: string): (r: seq<Expense>)
    ensures |r| <= |es|
    ensures forall i :: 0 <= i < |r| ==> r[i].id != id
    ensures (forall i :: 0 <= i < |es| ==> es[i].id != id) ==> r == es
  {
    if |es| == 0 then []
    else (if es[0].id == id then [] else [es[0]]) + WithoutId(es[1..], id)
  }

  /** Deleting keeps exactly the expenses that do not carry the id. */
  lemma {:induction false} WithoutIdKeeps(es: seq<Expense>, id: string)
    ensures forall e :: e in WithoutId(es, id) <==> e in es && e.id != id
  {
    if |es| > 0 {
      WithoutIdKeeps(es[1..], id);
      assert es == [es[0]] + es[1..];
    }
  }

  /** The expenses whose id is `id`, in their order. */
  function WithId(es: seq<Expense>, id: string): (r: seq<Expense>)
    ensures forall i :: 0 <= i < |r| ==> r[i].id == id
  {
    if |es| == 0 then []
    else (if es[0].id == id then [es[0]] else []) + WithId(es[1..], id)
  }

  lemma {:induction false} WithoutIdAppend(a: seq<Expense>, b: seq<Expense>, id: string)
    ensures WithoutId(a + b, id) == WithoutId(a, id) + WithoutId(b, id)
  {
    if |a| == 0 {
      assert a + b == b;
    } else {
      var ab := a + b;
      assert ab[0] == a[0] && ab[1..] == a[1..] + b;
      WithoutIdAppend(a[1..], b, id);
    }
  }

  /** `deleteExpense`: every expense with that id goes, the rest keep their order. */
  function DeleteExpense(b: BudgetState, id: string): (r: BudgetState)
    ensures r.expenses == WithoutId(b.expenses, id)
    ensures r.monthlySalary == b.monthlySalary && r.currency == b.currency
  {
    b.(expenses := WithoutId(b.expenses, id))
  }

  /** Deleting splits the total into what stays and what the deleted id carried. */
  lemma {:induction false} DeleteSplitsTotal(es: seq<Expense>, id: string)
    ensures TotalExpenses(es) == TotalExpenses(WithoutId(es, id)) + TotalExpenses(WithId(es, id))
  {
    if |es| > 0 {
      DeleteSplitsTotal(es[1..], id);
      TotalExpensesFirst(es);
      if es[0].id == id {
        TotalExpensesCons(es[0], WithId(es[1..], id));
        assert WithId(es, id) == [es[0]] + WithId(es[1..], id);
        assert WithoutId(es, id) == WithoutId(es[1..], id);
      } else {
        TotalExpensesCons(es[0], WithoutId(es[1..], id));
        assert WithoutId(es, id) == [es[0]] + WithoutId(es[1..], id);
        assert WithId(es, id) == WithId(es[1..], id);
      }
    }
  }

  /** Deleting the expense just added, under an id no other expense has,
      restores the budget. */
  lemma DeleteUndoesAdd(b: BudgetState, d: Draft, freshId: string)
    requires forall i :: 0 <= i < |b.expenses| ==> b.expenses[i].id != freshId
    ensures DeleteExpense(AddExpense(b, d, freshId), freshId) == b
  {
    var e := Expense(freshId, d.category, d.customName, d.amount);
    WithoutIdAppend(b.expenses, [e], freshId);
    assert WithoutId([e], freshId) == [] by {
      assert [e][1..] == [];
    }
    assert b.expenses + [] == b.expenses;
  }

  // ---------------------------------------------------------------- file upload

  /** The lower-cased text after the last '.', or the whole name without one. */
  function Extension(name: string): (r: string)
    ensures '.' !in r
    ensures |r| <= |name|
    ensures '.' !in name ==> r == Lower(name)
  {
    Lower(LastSegment(name, '.'))
  }

  /** A name ending in '.' and a dot-free extension has that extension, in lower case. */
  lemma {:induction false} LastSegmentAfterDot(stem: string, ext: string)
    requires '.' !in ext
    ensures LastSegment(stem + "." + ext, '.') == ext
    decreases |ext|
  {
    var s := stem + "." + ext;
    if |ext| > 0 {
      assert s[..|s| - 1] == stem + "." + ext[..|ext| - 1];
      LastSegmentAfterDot(stem, ext[..|ext| - 1]);
      assert ext == ext[..|ext| - 1] + [ext[|ext| - 1]];
    }
  }

  datatype FileKind = JsonFile | ExcelFile | Unsupported

  function KindOf(name: string): (r: FileKind)
    ensures r == JsonFile <==> Extension(name) == "json"
    ensures r == ExcelFile <==> Extension(name) == "xlsx" || Extension(name) == "xls"
  {
    var ext := Extension(name);
    if ext == "json" then JsonFile
    else if ext == "xlsx" || ext == "xls" then ExcelFile
    else Unsupported
  }

  /** A name with a dot-free extension dispatches on that extension, whatever its case. */
  lemma ExtensionOfDottedName(stem: string, ext: string)
    requires '.' !in ext
    ensures Extension(stem + "." + ext) == Lower(ext)
  {
    LastSegmentAfterDot(stem, ext);
  }

  /** The names the exports save under dispatch back to their importers. */
  lemma SavedNamesDispatch()
    ensures KindOf("tracksoft-budget.json") == JsonFile
    ensures KindOf("tracksoft-budget.xlsx") == ExcelFile
  {
    SavedJsonName();
    SavedExcelName();
  }

  lemma SavedJsonName()
    ensures Extension("tracksoft-budget.json") == "json"
  {
    ExtensionOfDottedName("tracksoft-budget", "json");
    assert "tracksoft-budget.json" == "tracksoft-budget" + "." + "json";
    assert Lower("json") == "json" by {
      var l := Lower("json");
      assert l[0] == 'j' && l[1] == 's' && l[2] == 'o' && l[3] == 'n';
    }
  }

  lemma SavedExcelName()
    ensures Extension("tracksoft-budget.xlsx") == "xlsx"
  {
    ExtensionOfDottedName("tracksoft-budget", "xlsx");
    assert "tracksoft-budget.xlsx" == "tracksoft-budget" + "." + "xlsx";
    assert Lower("xlsx") == "xlsx" by {
      var l := Lower("xlsx");
      assert l[0] == 'x' && l[1] == 'l' && l[2] == 's' && l[3] == 'x';
    }
  }

  /** What the user is told after an upload. */
  datatype Notice = ImportSucceeded | ImportFailed(reason: ImportError) | UnsupportedFileType

  /** The effect of an import's outcome on the budget: success replaces it,
      failure leaves it. */
  function ApplyImport(b: BudgetState, outcome: Result<Json, ImportError>): (r: (BudgetState, Notice))
    ensures r.1 == ImportSucceeded <==> outcome.Success? && DecodeBudget(outcome.value).Some?
    ensures r.1 == ImportSucceeded ==> r.0 == DecodeBudget(outcome.value).value
    ensures r.1 != ImportSucceeded ==> r.0 == b
    ensures outcome.Failure? ==> r.1 == ImportFailed(outcome.error)
  {
    match outcome
    case Failure(e) => (b, ImportFailed(e))
    case Success(doc) =>
      match DecodeBudget(doc) {
        case None => (b, ImportFailed(Mistyped))
        case Some(loaded) => (loaded, ImportSucceeded)
      }
  }

  /** `handleFileUpload`: dispatch on the extension, then apply the import. */
  function HandleFileUpload(b: BudgetState, file: FileInput, h: Host): (r: (BudgetState, Notice))
    ensures KindOf(file.name) == Unsupported ==> r == (b, UnsupportedFileType)
    ensures KindOf(file.name) == JsonFile ==> r == ApplyImport(b, ImportFromJson(file))
    ensures KindOf(file.name) == ExcelFile ==> r == ApplyImport(b, ImportFromExcel(file, h))
    ensures r.1 != ImportSucceeded ==> r.0 == b
  {
    match KindOf(file.name)
    case JsonFile => ApplyImport(b, ImportFromJson(file))
    case ExcelFile => ApplyImport(b, ImportFromExcel(file, h))
    case Unsupported => (b, UnsupportedFileType)
  }

  /** Uploading a JSON file saved from a budget restores that budget when the
      host reads its own text back; when it cannot parse the text, the budget
      stays and the upload fails with a syntax error. */
  lemma JsonUploadRestores(b: BudgetState, saved: BudgetState, file: FileInput, h: Host)
    requires KindOf(file.name) == JsonFile
    requires file.asJson == ParseJsonText(h.stringify(ExportJson(saved)), h)
    ensures ReadsBack(h, ExportJson(saved)) ==> HandleFileUpload(b, file, h) == (saved, ImportSucceeded)
    ensures h.parse(h.stringify(ExportJson(saved))).None? ==> HandleFileUpload(b, file, h) == (b, ImportFailed(SyntaxError))
  {
    JsonFileRoundTrip(saved, h);
  }

  /** Uploading a workbook saved from a budget restores that budget when the
      host reads back the stored text of its expense array; when it cannot parse
      that text, the budget stays and the upload fails with a syntax error. */
  lemma ExcelUploadRestores(b: BudgetState, saved: BudgetState, td: Option<TaxDetails>, file: FileInput, h: Host)
    requires KindOf(file.name) == ExcelFile
    requires file.asWorkbook == Success(Stored(ExportExcel(saved, td), h))
    ensures ReadsBack(h, Arr(EncodeExpenseList(saved.expenses))) ==> HandleFileUpload(b, file, h) == (saved, ImportSucceeded)
    ensures h.parse(h.stringify(Arr(EncodeExpenseList(saved.expenses)))).None? ==>
              HandleFileUpload(b, file, h) == (b, ImportFailed(SyntaxError))
  {
    ExcelFileRoundTrip(saved, td, h);
  }

  // ---------------------------------------------------------------- PDF page fit

  /** Where the captured image goes on the page, in page units. */
  datatype Placement = Placement(x: real, y: real, width: real, height: real)

  const PageMargin: real := 20.0

  /** `handleExportPDF`'s fit: full width less the margin, unless that makes the
      image too tall, in which case full height less the margin; then centred. */
  function FitImage(pageWidth: real, pageHeight: real, imgWidth: real, imgHeight: real): (r: Placement)
    requires imgWidth > 0.0 && imgHeight > 0.0
    ensures r.width * imgHeight == r.height * imgWidth
    ensures r.width <= pageWidth - PageMargin && r.height <= pageHeight - PageMargin
    ensures r.width == pageWidth - PageMargin || r.height == pageHeight - PageMargin
    ensures 2.0 * r.x + r.width == pageWidth && 2.0 * r.y + r.height == pageHeight
    ensures pageWidth > PageMargin && pageHeight > PageMargin ==> r.width > 0.0 && r.height > 0.0
  {
    var ratio := imgWidth / imgHeight;
    var w := pageWidth - PageMargin;
    var h := w / ratio;
    FitArith(imgWidth, imgHeight, w, pageHeight - PageMargin);
    var (fw, fh) := if h > pageHeight - PageMargin then ((pageHeight - PageMargin) * ratio, pageHeight - PageMargin) else (w, h);
    Placement((pageWidth - fw) / 2.0, (pageHeight - fh) / 2.0, fw, fh)
  }

  lemma FitArith(iw: real, ih: real, w: real, hmax: real)
    requires iw > 0.0 && ih > 0.0
    ensures var ratio := iw / ih;
            && ratio > 0.0
            && (w / ratio) * iw == w * ih
            && (hmax * ratio) * ih == hmax * iw
            && (w / ratio > hmax ==> hmax * ratio < w)
            && (w > 0.0 ==> w / ratio > 0.0)
            && (hmax > 0.0 ==> hmax * ratio > 0.0)
  {
  }
}
