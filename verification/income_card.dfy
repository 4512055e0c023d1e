/**
 * The income card: the salary field, which shows the ZAR salary in the
 * display currency and stores what is typed back in ZAR, and the tax
 * breakdown it shows when there is one.
 */
module IncomeCard {
  import opened Wrappers
  import opened Types
  import opened Json
  import opened Currencies

  /** What an edit of the salary field stores: the typed number read as the
      display currency and converted to ZAR; unreadable text stores 0, and a
      negative number is stored as it is. */
  function SalaryFromInput(input: string, c: Currency, lex: string -> Option<real>): (r: real)
    ensures lex(input).None? ==> r == 0.0
    ensures Convert(r, c) == OrZero(lex(input))
    ensures r < 0.0 <==> OrZero(lex(input)) < 0.0
    ensures c == ZAR ==> r == OrZero(lex(input))
  {
    var typed := OrZero(ParseFloat(Str(input), lex));
    ConvertUndoesToZar(typed, c);
    ToZar(typed, c)
  }

  /** The number the salary field shows, before two-decimal formatting: the
      ZAR salary in the display currency. */
  function DisplayedSalary(salary: real, c: Currency): (r: real)
    ensures ToZar(r, c) == salary
    ensures r > 0.0 <==> salary > 0.0
    ensures r < 0.0 <==> salary < 0.0
  {
    ConvertUndoesToZar(salary, c);
    Convert(salary, c)
  }

  /** The salary field's text: the displayed number with `toFixed(2)`. It reads
      back as the salary's sign and its display-currency amount in whole cents. */
  function SalaryField(salary: real, c: Currency): (r: string)
    ensures var shown := DisplayedSalary(salary, c);
            ReadFixed2(r) == Some((salary < 0.0, RoundCents(if shown < 0.0 then -shown else shown)))
  {
    var shown := DisplayedSalary(salary, c);
    ReadToFixed2(shown);
    ToFixed2(shown)
  }

  /** Typing a number and letting the field re-render shows that number
      rounded to cents: the stored salary converts back to exactly the typed
      number, and the field's text reads as its sign and its rounded cents. */
  lemma TypedSalaryIsShown(input: string, c: Currency, lex: string -> Option<real>, x: real)
    requires lex(input) == Some(x)
    ensures DisplayedSalary(SalaryFromInput(input, c, lex), c) == x
    ensures ReadFixed2(SalaryField(SalaryFromInput(input, c, lex), c)) == Some((x < 0.0, RoundCents(if x < 0.0 then -x else x)))
  {
    var stored := SalaryFromInput(input, c, lex);
    assert DisplayedSalary(stored, c) == x;
    assert x < 0.0 <==> stored < 0.0;
  }

  /** The tax breakdown as shown, in the display currency. */
  datatype Breakdown = Breakdown(grossAnnual: real, monthlyTax: real, netMonthly: real)

  function TaxBreakdown(td: Option<TaxDetails>, c: Currency): (r: Option<Breakdown>)
    ensures r.Some? <==> td.Some?
    ensures r.Some? ==> && ToZar(r.value.grossAnnual, c) == td.value.grossAnnual
                        && ToZar(r.value.monthlyTax, c) == td.value.monthlyTax
                        && ToZar(r.value.netMonthly, c) == td.value.netMonthly
  {
    match td
    case None => None
    case Some(d) =>
      ConvertUndoesToZar(d.grossAnnual, c);
      ConvertUndoesToZar(d.monthlyTax, c);
      ConvertUndoesToZar(d.netMonthly, c);
      Some(Breakdown(Convert(d.grossAnnual, c), Convert(d.monthlyTax, c), Convert(d.netMonthly, c)))
  }
}
