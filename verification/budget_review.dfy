/**
 * The review screen: a budget imported from JSON, the actual spending entered
 * per expense, the per-row comparison and the totals with the overspent/saved
 * verdict. Budgeted amounts are shown in the display currency; the totals are
 * kept in ZAR and converted for display.
 */
module BudgetReview {
  import opened Wrappers
  import opened Types
  import opened Json
  import opened Currencies
  import opened FileHandlers

  /** The actual amounts as typed, keyed by expense id, in key insertion order. */
  type Actuals = seq<(string, string)>

  function Keys(a: Actuals): (r: seq<string>)
    ensures |r| == |a| && forall j :: 0 <= j < |a| ==> r[j] == a[j].0
  {
    seq(|a|, j requires 0 <= j < |a| => a[j].0)
  }

  predicate DistinctKeys(a: Actuals) {
    forall i, j :: 0 <= i < j < |a| ==> a[i].0 != a[j].0
  }

  function Ids(es: seq<Expense>): (r: seq<string>)
    ensures |r| == |es| && forall i :: 0 <= i < |es| ==> r[i] == es[i].id
  {
    seq(|es|, i requires 0 <= i < |es| => es[i].id)
  }

  predicate DistinctIds(es: seq<Expense>) {
    forall i, j :: 0 <= i < j < |es| ==> es[i].id != es[j].id
  }

  /** The text entered for `id`, if any. */
  function Lookup(a: Actuals, id: string): (r: Option<string>)
    ensures r.None? <==> id !in Keys(a)
    ensures r.Some? ==> (id, r.value) in a
  {
    if |a| == 0 then None
    else if a[0].0 == id then Some(a[0].1)
    else
      var r := Lookup(a[1..], id);
      assert Keys(a) == [a[0].0] + Keys(a[1..]);
      r
  }

  /** The position of `id` among the keys. */
  function KeyIndex(a: Actuals, id: string): (r: Option<nat>)
    ensures r.Some? ==> r.value < |a| && a[r.value].0 == id
    ensures r.None? <==> id !in Keys(a)
  {
    if |a| == 0 then None
    else if a[0].0 == id then Some(0)
    else
      assert Keys(a) == [a[0].0] + Keys(a[1..]);
      match KeyIndex(a[1..], id) {
        case None => None
        case Some(i) => Some(i + 1)
      }
  }

  lemma {:induction false} LookupAt(a: Actuals, i: nat)
    requires DistinctKeys(a) && i < |a|
    ensures Lookup(a, a[i].0) == Some(a[i].1)
  {
    if i > 0 {
      assert a[0].0 != a[i].0;
      LookupAt(a[1..], i - 1);
    }
  }

  /** `handleActualsChange`: the entry for `id` takes the new text, in place if
      it exists and at the end otherwise; every other entry stays. */
  function SetActual(a: Actuals, id: string, text: string): (r: Actuals)
    requires DistinctKeys(a)
    ensures DistinctKeys(r)
    ensures Lookup(r, id) == Some(text)
    ensures forall k :: k != id ==> Lookup(r, k) == Lookup(a, k)
    ensures forall k :: k in Keys(r) <==> k in Keys(a) || k == id
  {
    var r := match KeyIndex(a, id) {
      case Some(i) => a[i := (id, text)]
      case None => a + [(id, text)]
    };
    SetActualFacts(a, id, text, r);
    r
  }

  lemma SetActualFacts(a: Actuals, id: string, text: string, r: Actuals)
    requires DistinctKeys(a)
    requires r == match KeyIndex(a, id) { case Some(i) => a[i := (id, text)] case None => a + [(id, text)] }
    ensures DistinctKeys(r)
    ensures Lookup(r, id) == Some(text)
    ensures forall k :: k != id ==> Lookup(r, k) == Lookup(a, k)
    ensures forall k :: k in Keys(r) <==> k in Keys(a) || k == id
  {
    match KeyIndex(a, id) {
      case Some(i) => SetInPlace(a, id, text, i, r);
      case None => SetAppended(a, id, text, r);
    }
  }

  lemma SetInPlace(a: Actuals, id: string, text: string, i: nat, r: Actuals)
    requires DistinctKeys(a) && i < |a| && a[i].0 == id && r == a[i := (id, text)]
    ensures DistinctKeys(r) && Keys(r) == Keys(a)
    ensures Lookup(r, id) == Some(text)
    ensures forall k :: k != id ==> Lookup(r, k) == Lookup(a, k)
  {
    assert forall j :: 0 <= j < |a| ==> r[j].0 == a[j].0;
    assert Keys(r) == Keys(a);
    LookupAt(r, i);
    forall k | k != id ensures Lookup(r, k) == Lookup(a, k) {
      LookupOther(a, r, k);
    }
  }

  lemma SetAppended(a: Actuals, id: string, text: string, r: Actuals)
    requires DistinctKeys(a) && id !in Keys(a) && r == a + [(id, text)]
    ensures DistinctKeys(r) && Keys(r) == Keys(a) + [id]
    ensures Lookup(r, id) == Some(text)
    ensures forall k :: k != id ==> Lookup(r, k) == Lookup(a, k)
  {
    assert Keys(r) == Keys(a) + [id];
    forall i, j | 0 <= i < j < |r| ensures r[i].0 != r[j].0 {
      if j == |a| {
        assert r[i].0 == Keys(a)[i];
      }
    }
    LookupAt(r, |a|);
    forall k | k != id ensures Lookup(r, k) == Lookup(a, k) {
      LookupOther(a, r, k);
    }
  }

  /** Two entry lists that agree on where `k` is stored look `k` up alike. */
  lemma LookupOther(a: Actuals, r: Actuals, k: string)
    requires DistinctKeys(a) && DistinctKeys(r) && |a| <= |r|
    requires forall j :: 0 <= j < |a| && a[j].0 == k ==> r[j] == a[j]
    requires k in Keys(r) ==> k in Keys(a)
    ensures Lookup(r, k) == Lookup(a, k)
  {
    match KeyIndex(a, k) {
      case Some(j) =>
        LookupAt(a, j);
        LookupAt(r, j);
      case None =>
    }
  }

  /** `parseFloat(text) || 0`: unreadable text counts as 0. */
  function Parsed(text: string, lex: string -> Option<real>): real {
    OrZero(ParseFloat(Str(text), lex))
  }

  /** The actual spending shown on an expense's row; no entry counts as 0. */
  function ActualOf(a: Actuals, id: string, lex: string -> Option<real>): (r: real)
    ensures id !in Keys(a) ==> r == 0.0
  {
    match Lookup(a, id)
    case None => 0.0
    case Some(text) => Parsed(text, lex)
  }

  datatype ComparisonRow = ComparisonRow(expense: Expense, budgeted: real, actual: real, difference: real)

  /** `comparisonData`: each expense with its budget in the display currency,
      its actual, and budget minus actual. */
  function ComparisonData(b: BudgetState, a: Actuals, lex: string -> Option<real>): (rows: seq<ComparisonRow>)
    ensures |rows| == |b.expenses|
    ensures forall i :: 0 <= i < |rows| ==>
              (&& rows[i].expense == b.expenses[i]
               && rows[i].budgeted == Convert(b.expenses[i].amount, b.currency)
               && rows[i].actual == ActualOf(a, b.expenses[i].id, lex)
               && rows[i].difference == rows[i].budgeted - rows[i].actual)
  {
    Rows(b.expenses, b.currency, a, lex)
  }

  function Rows(es: seq<Expense>, c: Currency, a: Actuals, lex: string -> Option<real>): (rows: seq<ComparisonRow>)
    ensures |rows| == |es|
    ensures forall i :: 0 <= i < |es| ==> rows[i] == Row(es[i], c, a, lex)
  {
    seq(|es|, i requires 0 <= i < |es| => Row(es[i], c, a, lex))
  }

  function Row(e: Expense, c: Currency, a: Actuals, lex: string -> Option<real>): ComparisonRow {
    var budgeted := Convert(e.amount, c);
    var actual := ActualOf(a, e.id, lex);
    ComparisonRow(e, budgeted, actual, budgeted - actual)
  }

  function SumDifferences(rows: seq<ComparisonRow>): real {
    if |rows| == 0 then 0.0 else rows[0].difference + SumDifferences(rows[1..])
  }

  /** Every entered actual, read as a number in the display currency. */
  function SumParsed(a: Actuals, lex: string -> Option<real>): real {
    if |a| == 0 then 0.0 else Parsed(a[0].1, lex) + SumParsed(a[1..], lex)
  }

  /** `totalActualExpensesZAR`: every entered actual, converted back to ZAR. */
  function TotalActualZar(a: Actuals, c: Currency, lex: string -> Option<real>): (r: real)
    ensures c == ZAR ==> r == SumParsed(a, lex)
    ensures Convert(r, c) == SumParsed(a, lex)
  {
    if |a| == 0 then
      ConvertIsLinear(0.0, 0.0, 0.0, c);
      0.0
    else
      var head := ToZar(Parsed(a[0].1, lex), c);
      var rest := TotalActualZar(a[1..], c, lex);
      ConvertIsLinear(head, rest, 0.0, c);
      ConvertUndoesToZar(Parsed(a[0].1, lex), c);
      head + rest
  }

  /** `totalDifferenceZAR`: the budgeted total less the actual total, in ZAR. */
  function TotalDifferenceZar(b: BudgetState, a: Actuals, lex: string -> Option<real>): (r: real)
    ensures r + TotalActualZar(a, b.currency, lex) == TotalExpenses(b.expenses)
  {
    TotalExpenses(b.expenses) - TotalActualZar(a, b.currency, lex)
  }

  /** The summary's last line: overspent when the difference is negative. */
  function Heading(differenceZar: real): (r: string)
    ensures r == "Total Overspent" <==> differenceZar < 0.0
    ensures r == "Total Saved" <==> differenceZar >= 0.0
  {
    if differenceZar < 0.0 then "Total Overspent" else "Total Saved"
  }

  /** The figure beside the heading: the size of the difference, in the display
      currency. */
  function ShownDifference(differenceZar: real, c: Currency): (r: real)
    ensures r >= 0.0
    ensures differenceZar >= 0.0 ==> r == Convert(differenceZar, c)
    ensures differenceZar < 0.0 ==> r == -Convert(differenceZar, c)
  {
    var size := if differenceZar < 0.0 then -differenceZar else differenceZar;
    ConvertIsLinear(differenceZar, 0.0, -1.0, c);
    Convert(size, c)
  }

  // ---------------------------------------------------------------- row sums

  /** The row differences add up to the budget converted less the actuals
      looked up for the rows. */
  lemma {:induction false} RowSum(es: seq<Expense>, c: Currency, a: Actuals, lex: string -> Option<real>)
    ensures SumDifferences(Rows(es, c, a, lex)) == Convert(TotalExpenses(es), c) - ActualsOverIds(Ids(es), a, lex)
  {
    var rows := Rows(es, c, a, lex);
    if |es| == 0 {
      ConvertIsLinear(0.0, 0.0, 0.0, c);
    } else {
      assert rows[1..] == Rows(es[1..], c, a, lex);
      assert Ids(es)[1..] == Ids(es[1..]);
      RowSum(es[1..], c, a, lex);
      TotalExpensesFirst(es);
      ConvertIsLinear(es[0].amount, TotalExpenses(es[1..]), 0.0, c);
    }
  }

  /** The actuals shown on rows with these ids. */
  function ActualsOverIds(ids: seq<string>, a: Actuals, lex: string -> Option<real>): real {
    if |ids| == 0 then 0.0 else ActualOf(a, ids[0], lex) + ActualsOverIds(ids[1..], a, lex)
  }

  /** The part of the actuals filed under `id`: at most one entry when keys are distinct. */
  function Contribution(a: Actuals, id: string, lex: string -> Option<real>): real {
    if |a| == 0 then 0.0
    else (if a[0].0 == id then Parsed(a[0].1, lex) else 0.0) + Contribution(a[1..], id, lex)
  }

  lemma {:induction false} ContributionIsActual(a: Actuals, id: string, lex: string -> Option<real>)
    requires DistinctKeys(a)
    ensures Contribution(a, id, lex) == ActualOf(a, id, lex)
  {
    if |a| > 0 {
      ContributionIsActual(a[1..], id, lex);
      assert Keys(a) == [a[0].0] + Keys(a[1..]);
      if a[0].0 == id {
        assert id !in Keys(a[1..]);
      }
    }
  }

  /** `p` once for every position holding `key`. */
  function Matches(ids: seq<string>, key: string, p: real): real {
    if |ids| == 0 then 0.0 else (if ids[0] == key then p else 0.0) + Matches(ids[1..], key, p)
  }

  lemma {:induction false} MatchesOnce(ids: seq<string>, key: string, p: real)
    requires forall i, j :: 0 <= i < j < |ids| ==> ids[i] != ids[j]
    ensures Matches(ids, key, p) == if key in ids then p else 0.0
  {
    if |ids| > 0 {
      MatchesOnce(ids[1..], key, p);
      assert ids == [ids[0]] + ids[1..];
      if ids[0] == key {
        assert key !in ids[1..];
      }
    }
  }

  /** Summing contributions over the ids peels off the first entry. */
  lemma {:induction false} ContributionsPeel(ids: seq<string>, a: Actuals, lex: string -> Option<real>)
    requires |a| > 0
    ensures ContributionsOverIds(ids, a, lex)
            == Matches(ids, a[0].0, Parsed(a[0].1, lex)) + ContributionsOverIds(ids, a[1..], lex)
  {
    if |ids| > 0 {
      ContributionsPeel(ids[1..], a, lex);
    }
  }

  function ContributionsOverIds(ids: seq<string>, a: Actuals, lex: string -> Option<real>): real {
    if |ids| == 0 then 0.0 else Contribution(a, ids[0], lex) + ContributionsOverIds(ids[1..], a, lex)
  }

  lemma {:induction false} ContributionsAreActuals(ids: seq<string>, a: Actuals, lex: string -> Option<real>)
    requires DistinctKeys(a)
    ensures ContributionsOverIds(ids, a, lex) == ActualsOverIds(ids, a, lex)
  {
    if |ids| > 0 {
      ContributionIsActual(a, ids[0], lex);
      ContributionsAreActuals(ids[1..], a, lex);
    }
  }

  /** With distinct ids and every key an id, the rows' actuals are exactly the
      entered actuals, each counted once. */
  lemma {:induction false} ContributionsCountEachOnce(ids: seq<string>, a: Actuals, lex: string -> Option<real>)
    requires forall i, j :: 0 <= i < j < |ids| ==> ids[i] != ids[j]
    requires forall j :: 0 <= j < |a| ==> a[j].0 in ids
    ensures ContributionsOverIds(ids, a, lex) == SumParsed(a, lex)
  {
    if |a| == 0 {
      ContributionsEmpty(ids, lex);
    } else {
      ContributionsPeel(ids, a, lex);
      MatchesOnce(ids, a[0].0, Parsed(a[0].1, lex));
      assert a[0].0 in ids;
      ContributionsCountEachOnce(ids, a[1..], lex);
    }
  }

  lemma {:induction false} ContributionsEmpty(ids: seq<string>, lex: string -> Option<real>)
    ensures ContributionsOverIds(ids, [], lex) == 0.0
  {
    if |ids| > 0 {
      ContributionsEmpty(ids[1..], lex);
    }
  }

  /** The rows' differences add up to the total difference shown in the
      summary, converted to the display currency, provided the expense ids are
      distinct and every actual belongs to an expense. */
  lemma RowDifferencesMatchTotal(b: BudgetState, a: Actuals, lex: string -> Option<real>)
    requires DistinctIds(b.expenses) && DistinctKeys(a)
    requires forall j :: 0 <= j < |a| ==> a[j].0 in Ids(b.expenses)
    ensures SumDifferences(ComparisonData(b, a, lex)) == Convert(TotalDifferenceZar(b, a, lex), b.currency)
  {
    var es, c := b.expenses, b.currency;
    RowSum(es, c, a, lex);
    ContributionsAreActuals(Ids(es), a, lex);
    ContributionsCountEachOnce(Ids(es), a, lex);
    var total, actual := TotalExpenses(es), TotalActualZar(a, c, lex);
    ConvertIsLinear(total - actual, actual, 0.0, c);
  }

  // ---------------------------------------------------------------- screen state

  /** The review screen: the budget under review, if one was imported, and the
      actuals entered for it. */
  datatype ReviewState = ReviewState(budget: Option<BudgetState>, actuals: Actuals)

  function InitialReview(): (s: ReviewState)
    ensures s.budget.None? && s.actuals == []
  {
    ReviewState(None, [])
  }

  /** The review's import: JSON only. Success loads the budget and clears the
      actuals; failure changes nothing. */
  function ImportForReview(s: ReviewState, file: FileInput): (r: (ReviewState, Option<ImportError>))
    ensures r.1.None? <==> ImportFromJson(file).Success? && DecodeBudget(ImportFromJson(file).value).Some?
    ensures r.1.None? ==> r.0 == ReviewState(DecodeBudget(ImportFromJson(file).value), [])
    ensures r.1.Some? ==> r.0 == s
  {
    match ImportFromJson(file)
    case Failure(e) => (s, Some(e))
    case Success(doc) =>
      match DecodeBudget(doc) {
        case None => (s, Some(Mistyped))
        case Some(b) => (ReviewState(Some(b), []), None)
      }
  }

  /** Entering an actual on a row: only that row's entry changes. */
  function EditActual(s: ReviewState, id: string, text: string): (r: ReviewState)
    requires DistinctKeys(s.actuals)
    ensures r.budget == s.budget && DistinctKeys(r.actuals)
    ensures Lookup(r.actuals, id) == Some(text)
    ensures forall k :: k != id ==> Lookup(r.actuals, k) == Lookup(s.actuals, k)
  {
    s.(actuals := SetActual(s.actuals, id, text))
  }

  /** Edits made on the rows keep every actual keyed by an expense id, which is
      what `RowDifferencesMatchTotal` needs. */
  lemma EditsStayOnRows(b: BudgetState, a: Actuals, id: string, text: string)
    requires DistinctKeys(a) && id in Ids(b.expenses)
    requires forall j :: 0 <= j < |a| ==> a[j].0 in Ids(b.expenses)
    ensures var r := SetActual(a, id, text);
            forall j :: 0 <= j < |r| ==> r[j].0 in Ids(b.expenses)
  {
    var r := SetActual(a, id, text);
    forall j | 0 <= j < |r| ensures r[j].0 in Ids(b.expenses) {
      assert r[j].0 == Keys(r)[j];
      if r[j].0 != id {
        assert r[j].0 in Keys(a);
        var k :| 0 <= k < |a| && Keys(a)[k] == r[j].0;
        assert a[k].0 in Ids(b.expenses);
      }
    }
  }
}
