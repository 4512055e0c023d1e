/**
 * The records of the budgeting app: the display currencies, the fixed
 * expense categories, an expense, the budget state the session owns, and the
 * derived tax breakdown.
 */
module Types {
  import opened Wrappers

  /** The display currencies; ZAR is the currency every stored amount is in. */
  datatype Currency = ZAR | USD | EUR

  /** The currency codes as they appear in documents. */
  function CurrencyCode(c: Currency): string {
    match c
    case ZAR => "ZAR"
    case USD => "USD"
    case EUR => "EUR"
  }

  /** Reads a currency code; any other text is not a currency. */
  function CurrencyFromCode(s: string): (r: Option<Currency>)
    ensures r.Some? ==> CurrencyCode(r.value) == s
    ensures r.None? ==> forall c: Currency :: CurrencyCode(c) != s
  {
    if s == "ZAR" then Some(ZAR)
    else if s == "USD" then Some(USD)
    else if s == "EUR" then Some(EUR)
    else None
  }

  /** The five expense categories. `Other` is the one that carries a custom name. */
  datatype Category = Food | Transport | Rent | MedicalAid | Other

  /** The category vocabulary in the order the form lists it. */
  const ExpenseCategories: seq<Category> := [Food, Transport, Rent, MedicalAid, Other]

  function CategoryName(c: Category): string {
    match c
    case Food => "Food"
    case Transport => "Transport"
    case Rent => "Rent"
    case MedicalAid => "Medical Aid"
    case Other => "Other"
  }

  /** Reads a category name; any other text is not a category. */
  function CategoryFromName(s: string): (r: Option<Category>)
    ensures r.Some? ==> CategoryName(r.value) == s
    ensures r.None? ==> forall c: Category :: CategoryName(c) != s
  {
    if s == "Food" then Some(Food)
    else if s == "Transport" then Some(Transport)
    else if s == "Rent" then Some(Rent)
    else if s == "Medical Aid" then Some(MedicalAid)
    else if s == "Other" then Some(Other)
    else None
  }

  /** The vocabulary lists every category exactly once, under distinct names. */
  lemma ExpenseCategoriesComplete()
    ensures forall c: Category :: c in ExpenseCategories
    ensures forall i, j :: 0 <= i < j < |ExpenseCategories| ==>
              CategoryName(ExpenseCategories[i]) != CategoryName(ExpenseCategories[j])
  {
    forall c: Category ensures c in ExpenseCategories {
      match c
      case Food => assert ExpenseCategories[0] == c;
      case Transport => assert ExpenseCategories[1] == c;
      case Rent => assert ExpenseCategories[2] == c;
      case MedicalAid => assert ExpenseCategories[3] == c;
      case Other => assert ExpenseCategories[4] == c;
    }
  }

  /** One budgeted expense. `amount` is in ZAR whatever the display currency. */
  datatype Expense = Expense(id: string, category: Category, customName: Option<string>, amount: real)

  /** An expense as the form hands it over, before the dashboard gives it an id. */
  datatype Draft = Draft(category: Category, customName: Option<string>, amount: real)

  /** The whole session state: salary in ZAR, the expenses in entry order and the
      display currency. Neither the category vocabulary nor any tax figure is stored. */
  datatype BudgetState = BudgetState(monthlySalary: real, expenses: seq<Expense>, currency: Currency)

  /** The tax breakdown derived from a salary; never part of `BudgetState`. */
  datatype TaxDetails = TaxDetails(
    grossAnnual: real,
    taxableIncome: real,
    annualTax: real,
    monthlyTax: real,
    netMonthly: real)

  /** The sum of the expense amounts, accumulated from the left as `reduce` does. */
  function TotalExpenses(es: seq<Expense>): real {
    if |es| == 0 then 0.0 else TotalExpenses(es[..|es| - 1]) + es[|es| - 1].amount
  }

  lemma {:induction false} TotalExpensesAppend(a: seq<Expense>, b: seq<Expense>)
    ensures TotalExpenses(a + b) == TotalExpenses(a) + TotalExpenses(b)
    decreases |b|
  {
    if |b| > 0 {
      assert (a + b)[..|a + b| - 1] == a + b[..|b| - 1];
      TotalExpensesAppend(a, b[..|b| - 1]);
    } else {
      assert a + b == a;
    }
  }

  lemma {:induction false} TotalExpensesCons(e: Expense, es: seq<Expense>)
    ensures TotalExpenses([e] + es) == e.amount + TotalExpenses(es)
  {
    TotalExpensesAppend([e], es);
    assert TotalExpenses([e]) == TotalExpenses([]) + e.amount;
  }

  /** The total is the first amount plus the total of the rest. */
  lemma TotalExpensesFirst(es: seq<Expense>)
    requires |es| > 0
    ensures TotalExpenses(es) == es[0].amount + TotalExpenses(es[1..])
  {
    assert es == [es[0]] + es[1..];
    TotalExpensesCons(es[0], es[1..]);
  }
}
