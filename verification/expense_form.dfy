/**
 * The add-expense form: its validation rules, and what a valid submission
 * hands to the dashboard (an amount converted to ZAR, a custom name only for
 * `Other`) before the form resets.
 */
module ExpenseForm {
  import opened Wrappers
  import opened Types
  import opened Text
  import opened Currencies
  import SpendingChart

  /** The form's fields once the amount has been read as a number, in the
      display currency. */
  datatype FormValues = FormValues(category: Category, customName: Option<string>, amount: real)

  /** The values the form starts with: Food, amount 0, no custom name. */
  function DefaultValues(): FormValues {
    FormValues(Food, None, 0.0)
  }

  /** The values the form resets to after a submission. */
  function ResetValues(): FormValues {
    FormValues(Food, Some(""), 0.0)
  }

  /** The smallest amount the schema accepts. */
  const MinAmount: real := 0.01

  datatype FormIssue = AmountTooSmall | CustomNameRequired

  function IssueMessage(i: FormIssue): string {
    match i
    case AmountTooSmall => "Amount must be greater than 0."
    case CustomNameRequired => "Custom name is required for 'Other' category."
  }

  /** The refinement: `Other` needs a custom name that is not all whitespace. */
  predicate HasRequiredName(v: FormValues) {
    v.category == Other ==> (v.customName.Some? && v.customName.value != "" && |Trim(v.customName.value)| > 0)
  }

  /** Every rule the values break. The refinement is checked even when the
      amount is already rejected, so both issues can be reported together. */
  function Validate(v: FormValues): (r: seq<FormIssue>)
    ensures AmountTooSmall in r <==> v.amount < MinAmount
    ensures CustomNameRequired in r <==> v.category == Other && (v.customName.None? || !NonBlank(v.customName.value))
    ensures |r| == 0 <==> v.amount >= MinAmount && (v.category == Other ==> v.customName.Some? && NonBlank(v.customName.value))
  {
    RequiredNameMeans(v);
    (if v.amount < MinAmount then [AmountTooSmall] else [])
      + (if HasRequiredName(v) then [] else [CustomNameRequired])
  }

  /** The refinement holds exactly when an `Other` form's custom name has a
      character that is not whitespace. */
  lemma RequiredNameMeans(v: FormValues)
    ensures HasRequiredName(v) <==> (v.category == Other ==> v.customName.Some? && NonBlank(v.customName.value))
  {
    if v.customName.Some? {
      TrimNonEmptyIffNonBlank(v.customName.value);
    }
  }

  /** The outcome of pressing "Add Expense". */
  datatype Submission =
    | Submitted(draft: Draft, next: FormValues)
    | Rejected(issues: seq<FormIssue>)

  /** `handleFormSubmit` behind the schema: a valid form yields the draft in
      ZAR and resets; an invalid one reports its issues. */
  function SubmitForm(v: FormValues, c: Currency): (r: Submission)
    ensures r.Submitted? <==> |Validate(v)| == 0
    ensures r.Rejected? ==> r.issues == Validate(v)
    ensures r.Submitted? ==> && r.draft.category == v.category
                             && Convert(r.draft.amount, c) == v.amount
                             && r.draft.amount > 0.0
                             && r.next == ResetValues()
    ensures r.Submitted? && v.category != Other ==> r.draft.customName.None?
    ensures r.Submitted? && v.category == Other ==> r.draft.customName == v.customName && NonBlank(v.customName.value)
  {
    var issues := Validate(v);
    if |issues| > 0 then Rejected(issues)
    else
      ConvertUndoesToZar(v.amount, c);
      Submitted(Draft(v.category, if v.category == Other then v.customName else None, ToZar(v.amount, c)), ResetValues())
  }

  /** A submitted `Other` expense is charted under its own custom name. */
  lemma SubmittedOtherIsChartedByName(v: FormValues, c: Currency, id: string)
    requires SubmitForm(v, c).Submitted? && v.category == Other
    ensures var d := SubmitForm(v, c).draft;
            SpendingChart.Label(Expense(id, d.category, d.customName, d.amount)) == v.customName.value
  {
    var s := v.customName.value;
    assert NonBlank(s);
    assert s != "";
  }

  /** The default form cannot be submitted as it stands: its amount is 0. */
  lemma DefaultValuesAreRejected(c: Currency)
    ensures SubmitForm(DefaultValues(), c) == Rejected([AmountTooSmall])
  {
  }
}
