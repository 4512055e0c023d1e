/**
 * Saving and loading a budget: the JSON document, the three-sheet workbook,
 * and the two importers with their validation, RawData path and flat-list
 * fallback. Files, readers and the spreadsheet library are abstracted: a
 * workbook is a sequence of named sheets of rows, and reading a file yields a
 * parsed value or a read error.
 */
module FileHandlers {
  import opened Wrappers
  import opened Types
  import opened Text
  import opened Json

  /** Why an import failed. */
  datatype ImportError =
    | ReadFailed          // the reader's error event
    | NotText             // the text reader produced something other than text
    | SyntaxError         // JSON.parse rejected the text
    | NullDocument        // the document is `null`, so reading a property of it threw
    | InvalidStructure    // a required budget key is missing
    | UnreadableWorkbook  // the spreadsheet library could not read the bytes
    | NoValidSheet        // the workbook has no sheet to fall back on
    | RawDataEmpty        // the RawData sheet has no first row
    | Mistyped            // a required field has the wrong type for a typed budget

  /** The message the user sees, where the program supplies it; `None` where the
      text comes from the runtime or the library. */
  function Message(e: ImportError): (r: Option<string>)
    ensures r.None? <==> e.SyntaxError? || e.NullDocument? || e.UnreadableWorkbook? || e.Mistyped?
  {
    match e
    case ReadFailed => Some("Failed to read the file.")
    case NotText => Some("File content is not valid text.")
    case InvalidStructure => Some("Invalid JSON structure for budget data.")
    case NoValidSheet => Some("No valid sheet found in Excel file.")
    case RawDataEmpty => Some("RawData sheet is empty or invalid.")
    case _ => None
  }

  /** The program's own messages tell its errors apart. */
  lemma MessagesDistinct(a: ImportError, b: ImportError)
    requires Message(a).Some? && a != b
    ensures Message(a) != Message(b)
  {
  }

  /** One sheet of a workbook: its name and its rows. A row written from an
      object is that object; a row written from an array of cells is that array. */
  datatype Sheet = Sheet(name: string, rows: seq<Json>)

  /** The sheets in the order of the workbook's sheet names. */
  type Workbook = seq<Sheet>

  /** A chosen file as each reader would see it: the parsed JSON of its text, and
      the workbook the spreadsheet library reads from its bytes. */
  datatype FileInput = FileInput(
    name: string,
    asJson: Result<Json, ImportError>,
    asWorkbook: Result<Workbook, ImportError>)

  // ---------------------------------------------------------------- JSON

  /** The three keys a budget document must define. */
  predicate HasBudgetKeys(v: Json) {
    Field(v, "monthlySalary").Some? && Field(v, "expenses").Some? && Field(v, "currency").Some?
  }

  /** The check `importFromJSON` applies to the parsed document: it passes
      unchanged when the three budget keys are defined and fails otherwise;
      reading a key of `null` throws. */
  function ValidateBudgetDocument(doc: Json): (r: Result<Json, ImportError>)
    ensures r.Success? <==> HasBudgetKeys(doc)
    ensures r.Success? ==> r.value == doc
    ensures r.Failure? ==> r.error == (if doc.Null? then NullDocument else InvalidStructure)
  {
    if doc.Null? then Failure(NullDocument)
    else if HasBudgetKeys(doc) then Success(doc)
    else Failure(InvalidStructure)
  }

  /** `importFromJSON`: read and parse the file, then validate. */
  function ImportFromJson(file: FileInput): (r: Result<Json, ImportError>)
    ensures file.asJson.Failure? ==> r == Failure(file.asJson.error)
    ensures file.asJson.Success? ==> r == ValidateBudgetDocument(file.asJson.value)
  {
    match file.asJson
    case Failure(e) => Failure(e)
    case Success(doc) => ValidateBudgetDocument(doc)
  }

  /** What reading a text file and parsing it yields. */
  function ParseJsonText(text: string, h: Host): (r: Result<Json, ImportError>)
    ensures r.Success? <==> h.parse(text).Some?
  {
    match h.parse(text)
    case None => Failure(SyntaxError)
    case Some(v) => Success(v)
  }

  /** `exportToJSON`'s payload: the whole budget. It always passes import
      validation and reads back as the same budget. */
  function ExportJson(b: BudgetState): (r: Json)
    ensures ValidateBudgetDocument(r) == Success(r)
    ensures DecodeBudget(r) == Some(b)
    ensures Finite(r)
  {
    DecodeEncodeBudget(b);
    EncodeBudget(b)
  }

  /** Saving a budget as JSON text and importing that text gives back the same
      document and so the same budget when the host reads its own text back;
      text the host cannot parse is a syntax error. */
  lemma JsonFileRoundTrip(b: BudgetState, h: Host)
    ensures var doc := ParseJsonText(h.stringify(ExportJson(b)), h);
            ReadsBack(h, ExportJson(b)) ==>
              && doc == Success(ExportJson(b))
              && ValidateBudgetDocument(doc.value) == Success(ExportJson(b))
              && DecodeBudget(ExportJson(b)) == Some(b)
    ensures h.parse(h.stringify(ExportJson(b))).None? ==>
              ParseJsonText(h.stringify(ExportJson(b)), h) == Failure(SyntaxError)
  {
  }

  // ---------------------------------------------------------------- Excel export

  const SummarySheet: string := "Summary"
  const ExpensesSheet: string := "Expenses"
  const RawDataSheet: string := "RawData"

  /** `taxDetails?.netMonthly || 0`. */
  function NetOrZero(td: Option<TaxDetails>): real {
    match td
    case Some(d) => d.netMonthly
    case None => 0.0
  }

  /** `taxDetails?.monthlyTax || 0`. */
  function TaxOrZero(td: Option<TaxDetails>): real {
    match td
    case Some(d) => d.monthlyTax
    case None => 0.0
  }

  /** A label/value row of the Summary sheet. */
  function LabelRow(caption: string, value: Json): Json {
    Arr([Str(caption), value])
  }

  /** Whether `row` is a label/value row labelled `caption`. */
  predicate LabelledBy(row: Json, caption: string) {
    row.Arr? && |row.items| == 2 && row.items[0] == Str(caption)
  }

  /** The value beside the first Summary row labelled `caption`. */
  function SummaryValue(rows: seq<Json>, caption: string): Option<Json> {
    if |rows| == 0 then None
    else if LabelledBy(rows[0], caption) then Some(rows[0].items[1])
    else SummaryValue(rows[1..], caption)
  }

  /** The lookup finds the first row with the label. */
  lemma {:induction false} SummaryValueAt(rows: seq<Json>, k: nat, caption: string)
    requires k < |rows| && LabelledBy(rows[k], caption)
    requires forall j :: 0 <= j < k ==> !LabelledBy(rows[j], caption)
    ensures SummaryValue(rows, caption) == Some(rows[k].items[1])
  {
    if k > 0 {
      assert !LabelledBy(rows[0], caption);
      SummaryValueAt(rows[1..], k - 1, caption);
    }
  }

  /** The Summary sheet: a title, a blank row, then label/value rows. */
  function SummaryRows(b: BudgetState, td: Option<TaxDetails>): (rows: seq<Json>)
    ensures |rows| == 8
    ensures SummaryValue(rows, "Currency") == Some(Str(CurrencyCode(b.currency)))
    ensures SummaryValue(rows, "Monthly Salary (Gross)") == Some(Num(b.monthlySalary))
    ensures SummaryValue(rows, "Monthly Tax") == Some(Num(TaxOrZero(td)))
    ensures SummaryValue(rows, "Monthly Net Income") == Some(Num(NetOrZero(td)))
    ensures SummaryValue(rows, "Total Expenses") == Some(Num(TotalExpenses(b.expenses)))
    ensures SummaryValue(rows, "Remaining Balance") == Some(Num(NetOrZero(td) - TotalExpenses(b.expenses)))
  {
    var total := TotalExpenses(b.expenses);
    var rows := [ Arr([Str("TrackSoft Budget Summary")]),
      Arr([]),
      LabelRow("Currency", Str(CurrencyCode(b.currency))),
      LabelRow("Monthly Salary (Gross)", Num(b.monthlySalary)),
      LabelRow("Monthly Tax", Num(TaxOrZero(td))),
      LabelRow("Monthly Net Income", Num(NetOrZero(td))),
      LabelRow("Total Expenses", Num(total)),
      LabelRow("Remaining Balance", Num(NetOrZero(td) - total)) ];
    SummaryHeadValues(rows);
    SummaryTailValues(rows);
    rows
  }

  /** The Summary sheet's layout: a title, a blank row, then the six labels in order. */
  predicate SummaryLayout(rows: seq<Json>) {
    && |rows| == 8 && rows[0] == Arr([Str("TrackSoft Budget Summary")]) && rows[1] == Arr([])
    && LabelledBy(rows[2], "Currency") && LabelledBy(rows[3], "Monthly Salary (Gross)")
    && LabelledBy(rows[4], "Monthly Tax") && LabelledBy(rows[5], "Monthly Net Income")
    && LabelledBy(rows[6], "Total Expenses") && LabelledBy(rows[7], "Remaining Balance")
  }

  /** The first three labels are each found on their own row. */
  lemma SummaryHeadValues(rows: seq<Json>)
    requires SummaryLayout(rows)
    ensures SummaryValue(rows, "Currency") == Some(rows[2].items[1])
    ensures SummaryValue(rows, "Monthly Salary (Gross)") == Some(rows[3].items[1])
    ensures SummaryValue(rows, "Monthly Tax") == Some(rows[4].items[1])
  {
    SummaryValueAt(rows, 2, "Currency");
    SummaryValueAt(rows, 3, "Monthly Salary (Gross)");
    SummaryValueAt(rows, 4, "Monthly Tax");
  }

  /** The last three labels are each found on their own row. */
  lemma SummaryTailValues(rows: seq<Json>)
    requires SummaryLayout(rows)
    ensures SummaryValue(rows, "Monthly Net Income") == Some(rows[5].items[1])
    ensures SummaryValue(rows, "Total Expenses") == Some(rows[6].items[1])
    ensures SummaryValue(rows, "Remaining Balance") == Some(rows[7].items[1])
  {
    SummaryValueAt(rows, 5, "Monthly Net Income");
    SummaryValueAt(rows, 6, "Total Expenses");
    SummaryValueAt(rows, 7, "Remaining Balance");
  }

  /** The Expenses sheet's label: the custom name for `Other` (possibly missing),
      the category's name otherwise. */
  function ExpenseLabel(e: Expense): (r: Option<string>)
    ensures e.category != Other ==> r == Some(CategoryName(e.category))
    ensures e.category == Other ==> r == e.customName
  {
    if e.category == Other then e.customName else Some(CategoryName(e.category))
  }

  /** One row of the Expenses sheet; a missing label leaves the cell out. */
  function ExpenseRow(e: Expense): (r: Json)
    ensures Field(r, "Amount") == Some(Num(e.amount))
    ensures Field(r, "Category") == (match ExpenseLabel(e) case Some(l) => Some(Str(l)) case None => None)
    ensures r.Obj? && Finite(r)
  {
    var amount := map["Amount" := Num(e.amount)];
    match ExpenseLabel(e)
    case Some(name) => Obj(amount["Category" := Str(name)])
    case None => Obj(amount)
  }

  function ExpenseRows(es: seq<Expense>): (rows: seq<Json>)
    ensures |rows| == |es|
    ensures forall i :: 0 <= i < |es| ==> rows[i] == ExpenseRow(es[i])
  {
    seq(|es|, i requires 0 <= i < |es| => ExpenseRow(es[i]))
  }

  /** The RawData sheet's single row: salary, currency and the expense array. */
  function RawDataRow(b: BudgetState): (r: Json)
    ensures DecodeBudget(r) == Some(b)
    ensures Finite(r)
  {
    ExportJson(b)
  }

  /** `exportToExcel`'s workbook: Summary, Expenses and RawData, in that order. */
  function ExportExcel(b: BudgetState, td: Option<TaxDetails>): (wb: Workbook)
    ensures |wb| == 3
    ensures wb[0].name == SummarySheet && wb[1].name == ExpensesSheet && wb[2].name == RawDataSheet
    ensures wb[0].rows == SummaryRows(b, td)
    ensures |wb[1].rows| == |b.expenses|
    ensures forall i :: 0 <= i < |b.expenses| ==> wb[1].rows[i] == ExpenseRow(b.expenses[i])
    ensures wb[2].rows == [RawDataRow(b)]
  {
    [ Sheet(SummarySheet, SummaryRows(b, td)),
      Sheet(ExpensesSheet, ExpenseRows(b.expenses)),
      Sheet(RawDataSheet, [RawDataRow(b)]) ]
  }

  // ---------------------------------------------------------------- Excel import

  /** The first sheet whose name satisfies `p`, as `SheetNames.find(p)` finds it. */
  function FirstSheet(wb: Workbook, p: string -> bool): (r: Option<nat>)
    ensures r.Some? ==> r.value < |wb| && p(wb[r.value].name)
    ensures r.Some? ==> forall j :: 0 <= j < r.value ==> !p(wb[j].name)
    ensures r.None? ==> forall j :: 0 <= j < |wb| ==> !p(wb[j].name)
  {
    if |wb| == 0 then None
    else if p(wb[0].name) then Some(0)
    else match FirstSheet(wb[1..], p) {
      case None => None
      case Some(i) => Some(i + 1)
    }
  }

  predicate IsRawData(name: string) {
    name == RawDataSheet
  }

  predicate IsExpensesSheet(name: string) {
    Lower(name) == "expenses"
  }

  /** The id the fallback gives row `index`: `imported-<index>-<time>`. */
  function ImportedId(index: nat, now: nat): string {
    "imported-" + NatToString(index) + "-" + NatToString(now)
  }

  /** The id spells the row index and the clock reading in decimal, after the
      `imported-` prefix and separated by a dash. */
  lemma ImportedIdSpells(index: nat, now: nat)
    ensures var r, i, t := ImportedId(index, now), NatToString(index), NatToString(now);
            && |r| == 10 + |i| + |t| && r[..9] == "imported-" && r[9 + |i|] == '-'
            && r[9..9 + |i|] == i && DigitsValue(r[9..9 + |i|]) == index
            && r[10 + |i|..] == t && DigitsValue(r[10 + |i|..]) == now
  {
    var i, t := NatToString(index), NatToString(now);
    Splice("imported-", i, '-', t);
    NatToStringValue(index);
    NatToStringValue(now);
  }

  /** The pieces of `p + a + [c] + b` sit where they were put. */
  lemma Splice(p: string, a: string, c: char, b: string)
    ensures var r := p + a + [c] + b;
            && |r| == |p| + |a| + 1 + |b| && r[..|p|] == p && r[|p|..|p| + |a|] == a
            && r[|p| + |a|] == c && r[|p| + |a| + 1..] == b
  {
    var r := p + a + [c] + b;
    assert r[..|p|] == p;
    assert r[|p|..|p| + |a|] == a;
    assert r[|p| + |a| + 1..] == b;
  }

  /** Within one import, distinct rows get distinct ids. */
  lemma ImportedIdsDistinct(i: nat, j: nat, now: nat)
    requires i != j
    ensures ImportedId(i, now) != ImportedId(j, now)
  {
    if ImportedId(i, now) == ImportedId(j, now) {
      var a, b, tail := NatToString(i), NatToString(j), "-" + NatToString(now);
      assert ImportedId(i, now) == "imported-" + a + tail;
      assert ImportedId(j, now) == "imported-" + b + tail;
      assert |a| == |b|;
      assert a == ImportedId(i, now)[9..9 + |a|];
      assert b == ImportedId(j, now)[9..9 + |b|];
      NatToStringInjective(i, j);
    }
  }

  const ImportedLabel: string := "Imported Expense"

  /** `row.Category || row.category || 'Imported Expense'`. */
  function FallbackName(row: Json): (r: Json)
    ensures Truthy(Field(row, "Category")) ==> r == Field(row, "Category").value
    ensures !Truthy(Field(row, "Category")) && Truthy(Field(row, "category")) ==> r == Field(row, "category").value
    ensures !Truthy(Field(row, "Category")) && !Truthy(Field(row, "category")) ==> r == Str(ImportedLabel)
  {
    Or(Field(row, "Category"), Or(Field(row, "category"), Some(Str(ImportedLabel)))).value
  }

  /** `parseFloat(v)` as a JSON value: the number read, or `NaN`. */
  function ParsedNumber(v: Json, h: Host): (r: Json)
    ensures r.Num? || r.NaN?
    ensures r.NaN? <==> ParseFloat(v, h.lex).None?
    ensures r.Num? ==> ParseFloat(v, h.lex) == Some(r.n)
  {
    match ParseFloat(v, h.lex)
    case Some(x) => Num(x)
    case None => NaN
  }

  /** `parseFloat(row.Amount || row.amount || 0)`, `NaN` included. */
  function FallbackAmount(row: Json, h: Host): (r: Json)
    ensures r.Num? || r.NaN?
    ensures Truthy(Field(row, "Amount")) ==> r == ParsedNumber(Field(row, "Amount").value, h)
    ensures !Truthy(Field(row, "Amount")) && Truthy(Field(row, "amount")) ==> r == ParsedNumber(Field(row, "amount").value, h)
    ensures !Truthy(Field(row, "Amount")) && !Truthy(Field(row, "amount")) ==> r == Num(0.0)
    ensures var a := Field(row, "Amount"); a.Some? && a.value.Num? && a.value.n != 0.0 ==> r == a.value
  {
    ParsedNumber(Or(Field(row, "Amount"), Or(Field(row, "amount"), Some(Num(0.0)))).value, h)
  }

  /** The expense the fallback makes of row `index`: always `Other`, named and
      priced from the row's columns. */
  function FallbackExpense(row: Json, index: nat, h: Host): Json {
    Obj(map[
      "id" := Str(ImportedId(index, h.now)),
      "category" := Str("Other"),
      "customName" := FallbackName(row),
      "amount" := FallbackAmount(row, h)])
  }

  /** A fallback expense reads as a typed expense exactly when its name is text
      and its amount a number (not `NaN`): an `Other` expense with the row's id,
      name and amount. */
  lemma FallbackExpenseDecodes(row: Json, index: nat, h: Host)
    ensures var d := DecodeExpense(FallbackExpense(row, index, h));
            d.Some? <==> FallbackName(row).Str? && FallbackAmount(row, h).Num?
    ensures var d := DecodeExpense(FallbackExpense(row, index, h));
            d.Some? ==> d.value == Expense(ImportedId(index, h.now), Other, Some(FallbackName(row).s), FallbackAmount(row, h).n)
  {
    DecodedFields(ImportedId(index, h.now), FallbackName(row), FallbackAmount(row, h));
  }

  /** An object with a text id, category "Other", and the given name and amount
      decodes exactly when the name is text and the amount a number. */
  lemma DecodedFields(id: string, name: Json, amount: Json)
    ensures var d := DecodeExpense(Obj(map["id" := Str(id), "category" := Str("Other"), "customName" := name, "amount" := amount]));
            && (d.Some? <==> name.Str? && amount.Num?)
            && (d.Some? ==> d.value == Expense(id, Other, Some(name.s), amount.n))
  {
    assert CategoryFromName("Other") == Some(Other);
  }

  /** The fallback budget: one expense per row in order, salary 0, currency ZAR. */
  function FallbackBudget(rows: seq<Json>, h: Host): (r: Json)
    ensures HasBudgetKeys(r)
    ensures Field(r, "monthlySalary") == Some(Num(0.0)) && Field(r, "currency") == Some(Str("ZAR"))
    ensures exists items :: Field(r, "expenses") == Some(Arr(items)) && |items| == |rows|
              && forall i :: 0 <= i < |rows| ==> items[i] == FallbackExpense(rows[i], i, h)
  {
    var items := seq(|rows|, i requires 0 <= i < |rows| => FallbackExpense(rows[i], i, h));
    Obj(map["monthlySalary" := Num(0.0), "currency" := Str("ZAR"), "expenses" := Arr(items)])
  }

  /** The RawData path: the first row, with a text `expenses` re-parsed as JSON. */
  function ReadRawData(row: Json, h: Host): (r: Result<Json, ImportError>)
    ensures (match Field(row, "expenses") case Some(Str(_)) => false case _ => true) ==> r == Success(row)
    ensures var e := Field(row, "expenses");
            e.Some? && e.value.Str? && h.parse(e.value.s).None? ==> r == Failure(SyntaxError)
    ensures var e := Field(row, "expenses");
            e.Some? && e.value.Str? && h.parse(e.value.s).Some? ==>
              && r.Success? && r.value.Obj? && r.value.fields.Keys == row.fields.Keys
              && Field(r.value, "expenses") == h.parse(e.value.s)
              && forall k :: k in row.fields && k != "expenses" ==> r.value.fields[k] == row.fields[k]
  {
    match Field(row, "expenses")
    case Some(Str(text)) =>
      assert row.Obj?;
      match h.parse(text) {
        case None => Failure(SyntaxError)
        case Some(v) => Success(Obj(row.fields["expenses" := v]))
      }
    case _ => Success(row)
  }

  /** `importFromExcel` once the workbook is read: RawData when present, else the
      first sheet named "expenses" in any case, else the first sheet. */
  function ImportWorkbook(wb: Workbook, h: Host): (r: Result<Json, ImportError>)
    ensures |wb| == 0 ==> r == Failure(NoValidSheet)
    ensures FirstSheet(wb, IsRawData).Some? && |wb[FirstSheet(wb, IsRawData).value].rows| == 0 ==>
              r == Failure(RawDataEmpty)
    ensures FirstSheet(wb, IsRawData).None? && r.Success? ==> HasBudgetKeys(r.value)
    ensures var raw := FirstSheet(wb, IsRawData);
            raw.Some? && |wb[raw.value].rows| > 0 ==>
              r == if Truthy(Some(wb[raw.value].rows[0])) then ReadRawData(wb[raw.value].rows[0], h) else Failure(RawDataEmpty)
    ensures var named := FirstSheet(wb, IsExpensesSheet);
            FirstSheet(wb, IsRawData).None? && named.Some? ==> r == Success(FallbackBudget(wb[named.value].rows, h))
    ensures FirstSheet(wb, IsRawData).None? && FirstSheet(wb, IsExpensesSheet).None? && |wb| > 0 ==>
              r == if wb[0].name == "" then Failure(NoValidSheet) else Success(FallbackBudget(wb[0].rows, h))
  {
    match FirstSheet(wb, IsRawData)
    case None =>
      var chosen := match FirstSheet(wb, IsExpensesSheet) {
        case Some(i) => Some(i)
        case None => if |wb| > 0 then Some(0) else None
      };
      if chosen.None? || wb[chosen.value].name == "" then Failure(NoValidSheet)
      else Success(FallbackBudget(wb[chosen.value].rows, h))
    case Some(i) =>
      var rows := wb[i].rows;
      if |rows| == 0 || !Truthy(Some(rows[0])) then Failure(RawDataEmpty)
      else ReadRawData(rows[0], h)
  }

  /** `importFromExcel`: read the workbook, then import from it. */
  function ImportFromExcel(file: FileInput, h: Host): (r: Result<Json, ImportError>)
    ensures file.asWorkbook.Failure? ==> r == Failure(file.asWorkbook.error)
    ensures file.asWorkbook.Success? ==> r == ImportWorkbook(file.asWorkbook.value, h)
  {
    match file.asWorkbook
    case Failure(e) => Failure(e)
    case Success(wb) => ImportWorkbook(wb, h)
  }

  // ---------------------------------------------------------------- round trips

  /** Importing the exported workbook takes the RawData path and yields the
      exported budget. */
  lemma ExcelRoundTrip(b: BudgetState, td: Option<TaxDetails>, h: Host)
    ensures ImportWorkbook(ExportExcel(b, td), h) == Success(RawDataRow(b))
    ensures DecodeBudget(RawDataRow(b)) == Some(b)
  {
    var wb := ExportExcel(b, td);
    assert FirstSheet(wb, IsRawData) == Some(2) by {
      assert !IsRawData(wb[0].name) && !IsRawData(wb[1].name) && IsRawData(wb[2].name);
    }
  }

  /** A cell as a saved spreadsheet file keeps it: scalars as they are, arrays
      and objects as their JSON text. */
  function StoredCell(v: Json, h: Host): Json {
    if v.Arr? || v.Obj? then Str(h.stringify(v)) else v
  }

  function StoredRow(row: Json, h: Host): Json {
    match row
    case Obj(fields) => Obj(map k | k in fields :: StoredCell(fields[k], h))
    case Arr(cells) => Arr(seq(|cells|, i requires 0 <= i < |cells| => StoredCell(cells[i], h)))
    case _ => row
  }

  /** A workbook as written to a file and read back. */
  function Stored(wb: Workbook, h: Host): (r: Workbook)
    ensures |r| == |wb|
    ensures forall i :: 0 <= i < |wb| ==> r[i].name == wb[i].name && |r[i].rows| == |wb[i].rows|
    ensures forall i, j :: 0 <= i < |wb| && 0 <= j < |wb[i].rows| ==> r[i].rows[j] == StoredRow(wb[i].rows[j], h)
  {
    seq(|wb|, i requires 0 <= i < |wb| =>
      Sheet(wb[i].name, seq(|wb[i].rows|, j requires 0 <= j < |wb[i].rows| => StoredRow(wb[i].rows[j], h))))
  }

  /** Exporting, saving, reopening and importing yields the exported budget when
      the host reads back the text it stored for the RawData row's `expenses`;
      when it cannot parse that text, the import is a syntax error. */
  lemma ExcelFileRoundTrip(b: BudgetState, td: Option<TaxDetails>, h: Host)
    ensures var r, list := ImportWorkbook(Stored(ExportExcel(b, td), h), h), Arr(EncodeExpenseList(b.expenses));
            && (ReadsBack(h, list) ==> r.Success? && DecodeBudget(r.value) == Some(b))
            && (h.parse(h.stringify(list)).None? ==> r == Failure(SyntaxError))
  {
    var wb := Stored(ExportExcel(b, td), h);
    assert FirstSheet(wb, IsRawData) == Some(2) by {
      assert !IsRawData(wb[0].name) && !IsRawData(wb[1].name) && IsRawData(wb[2].name);
    }
    var raw := RawDataRow(b);
    StoredBudgetRow(b, h);
    assert wb[2].rows[0] == StoredRow(raw, h);
    RawDataPath(wb, 2, h);
    ReadStoredRawData(b, h);
  }

  /** With a RawData sheet whose first row is an object, the import reads that row. */
  lemma RawDataPath(wb: Workbook, i: nat, h: Host)
    requires FirstSheet(wb, IsRawData) == Some(i)
    requires |wb[i].rows| > 0 && wb[i].rows[0].Obj?
    ensures ImportWorkbook(wb, h) == ReadRawData(wb[i].rows[0], h)
  {
  }

  /** The stored RawData row reads back as the budget document when the host
      reads back the text of the expense array, and is a syntax error when it
      cannot parse it. */
  lemma ReadStoredRawData(b: BudgetState, h: Host)
    ensures var raw, list := EncodeBudget(b), Arr(EncodeExpenseList(b.expenses));
            var read := ReadRawData(Obj(raw.fields["expenses" := Str(h.stringify(list))]), h);
            && (ReadsBack(h, list) ==> read == Success(raw))
            && (h.parse(h.stringify(list)).None? ==> read == Failure(SyntaxError))
  {
    var raw, list := EncodeBudget(b), Arr(EncodeExpenseList(b.expenses));
    assert raw.fields["expenses"] == list;
    var row := Obj(raw.fields["expenses" := Str(h.stringify(list))]);
    assert row.fields["expenses" := list] == raw.fields;
  }

  /** Storing the RawData row turns only its expense array into text. */
  lemma StoredBudgetRow(b: BudgetState, h: Host)
    ensures var raw := EncodeBudget(b);
            StoredRow(raw, h) == Obj(raw.fields["expenses" := Str(h.stringify(raw.fields["expenses"]))])
  {
    var raw := EncodeBudget(b);
    var stored := map k | k in raw.fields :: StoredCell(raw.fields[k], h);
    var expected := raw.fields["expenses" := Str(h.stringify(raw.fields["expenses"]))];
    assert stored.Keys == expected.Keys;
    assert forall k :: k in stored ==> stored[k] == expected[k];
    assert stored == expected;
  }

  /** What the fallback makes of an exported expense row: an `Other` expense
      named after the row's label, or "Imported Expense" when the label is
      missing or empty, with the same amount. */
  function ReimportedExpense(e: Expense, index: nat, now: nat): (r: Expense)
    ensures r.id == ImportedId(index, now) && r.category == Other && r.amount == e.amount
    ensures e.category != Other ==> r.customName == Some(CategoryName(e.category))
    ensures e.category == Other && e.customName.Some? && e.customName.value != "" ==> r.customName == e.customName
    ensures e.category == Other && (e.customName.None? || e.customName == Some("")) ==> r.customName == Some(ImportedLabel)
  {
    var name := match ExpenseLabel(e) {
      case Some(l) => if l != "" then l else ImportedLabel
      case None => ImportedLabel
    };
    Expense(ImportedId(index, now), Other, Some(name), e.amount)
  }

  /** One exported expense row, read by the fallback, decodes as `ReimportedExpense`. */
  lemma FallbackReadsExpenseRow(e: Expense, index: nat, h: Host)
    ensures DecodeExpense(FallbackExpense(ExpenseRow(e), index, h)) == Some(ReimportedExpense(e, index, h.now))
  {
    var x := ReimportedExpense(e, index, h.now);
    FallbackRowIsEncoded(e, index, h);
    DecodeEncodeExpense(x);
  }

  /** The object the fallback builds from an exported row is the stored form
      of `ReimportedExpense`. */
  lemma FallbackRowIsEncoded(e: Expense, index: nat, h: Host)
    ensures FallbackExpense(ExpenseRow(e), index, h) == EncodeExpense(ReimportedExpense(e, index, h.now))
  {
    var row, x := ExpenseRow(e), ReimportedExpense(e, index, h.now);
    assert FallbackAmount(row, h) == Num(x.amount);
    assert FallbackName(row) == Str(x.customName.value);
  }

  /** Without its RawData sheet, the exported workbook falls back to the
      Expenses sheet: every expense comes back, in order, as an `Other` expense
      with the same amount, a fresh id and its label as the name; the salary
      becomes 0 and the currency ZAR. */
  lemma ExcelFallbackImport(b: BudgetState, td: Option<TaxDetails>, h: Host)
    ensures var r := ImportWorkbook(ExportExcel(b, td)[..2], h);
            r.Success? && DecodeBudget(r.value) == Some(BudgetState(0.0, Reimported(b.expenses, h.now), ZAR))
  {
    var wb := ExportExcel(b, td)[..2];
    assert FirstSheet(wb, IsRawData).None? by {
      assert !IsRawData(wb[0].name) && !IsRawData(wb[1].name);
    }
    assert wb[0].name == SummarySheet && wb[1].name == ExpensesSheet;
    ExportSheetNames();
    assert FirstSheet(wb, IsExpensesSheet) == Some(1);
    FallbackPath(wb, 1, h);
    DecodeFallback(b.expenses, h);
  }

  /** The fallback skips the Summary sheet and picks the Expenses sheet. */
  lemma ExportSheetNames()
    ensures !IsExpensesSheet(SummarySheet) && IsExpensesSheet(ExpensesSheet)
  {
    var lowered := Lower(ExpensesSheet);
    assert lowered[0] == 'e' && lowered[1] == 'x';
    assert lowered == "expenses";
  }

  /** `ReimportedExpense` for each expense, indexed by position. */
  function Reimported(es: seq<Expense>, now: nat): (r: seq<Expense>)
    ensures |r| == |es|
    ensures forall i :: 0 <= i < |es| ==> r[i] == ReimportedExpense(es[i], i, now)
  {
    seq(|es|, i requires 0 <= i < |es| => ReimportedExpense(es[i], i, now))
  }

  /** Without RawData, the import is the fallback over the chosen sheet's rows. */
  lemma FallbackPath(wb: Workbook, i: nat, h: Host)
    requires FirstSheet(wb, IsRawData).None? && FirstSheet(wb, IsExpensesSheet) == Some(i)
    ensures ImportWorkbook(wb, h) == Success(FallbackBudget(wb[i].rows, h))
  {
  }

  /** The fallback over exported expense rows decodes as the reimported list. */
  lemma DecodeFallback(es: seq<Expense>, h: Host)
    ensures DecodeBudget(FallbackBudget(ExpenseRows(es), h)) == Some(BudgetState(0.0, Reimported(es, h.now), ZAR))
  {
    var rows := ExpenseRows(es);
    var items := seq(|rows|, i requires 0 <= i < |rows| => FallbackExpense(rows[i], i, h));
    assert FallbackBudget(rows, h).fields["expenses"] == Arr(items);
    DecodeFallbackItems(es, h, items);
    assert CurrencyFromCode("ZAR") == Some(ZAR);
  }

  /** The fallback's expense objects for exported rows decode as the reimported list. */
  lemma DecodeFallbackItems(es: seq<Expense>, h: Host, items: seq<Json>)
    requires |items| == |es|
    requires forall i :: 0 <= i < |es| ==> items[i] == FallbackExpense(ExpenseRow(es[i]), i, h)
    ensures DecodeExpenseList(items) == Some(Reimported(es, h.now))
  {
    var expected := Reimported(es, h.now);
    forall i | 0 <= i < |items|
      ensures DecodeExpense(items[i]) == Some(expected[i])
    {
      FallbackReadsExpenseRow(es[i], i, h);
    }
    var decoded := DecodeExpenseList(items);
    assert decoded.Some?;
    assert decoded.value == expected;
  }
}
