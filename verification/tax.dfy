/**
 * The South African income-tax engine for the 2024/2025 tax year: a
 * seven-bracket progressive table and the primary rebate.
 *
 * The algorithm is stated over any bracket table; `CalculateSATax` fixes the
 * 2024/2025 table. Every property below rests on the table being well formed,
 * in particular continuous: each base is the previous base plus the previous
 * bracket's span taxed at the previous rate.
 */
module Tax {
  import opened Wrappers
  import opened Types

  /** Income at or above `threshold` is taxed at `rate` on top of `base`. */
  datatype Bracket = Bracket(threshold: real, rate: real, base: real)

  /** The 2024/2025 brackets (1 March 2024 to 28 February 2025), ascending. */
  const TaxBrackets: seq<Bracket> := [
    Bracket(0.0, 0.18, 0.0),
    Bracket(237100.0, 0.26, 42678.0),
    Bracket(370500.0, 0.31, 77362.0),
    Bracket(512800.0, 0.36, 121475.0),
    Bracket(673000.0, 0.39, 179147.0),
    Bracket(857900.0, 0.41, 251258.0),
    Bracket(1817000.0, 0.45, 644489.0)
  ]

  /** The 2024/2025 primary rebate; the age rebates are not applied. */
  const PrimaryRebate: real := 17235.0

  /** Annual income up to this amount owes no tax once the rebate is applied. */
  const TaxFreeThreshold: real := 95750.0

  /** Bracket `i + 1` starts where bracket `i` ends, at the tax bracket `i` has then reached. */
  ghost predicate ContinuousAt(t: seq<Bracket>, i: nat)
    requires i + 1 < |t|
  {
    t[i + 1].base == t[i].base + (t[i + 1].threshold - t[i].threshold) * t[i].rate
  }

  /** Bracket `i + 1` starts strictly above bracket `i`. */
  ghost predicate AscendsAt(t: seq<Bracket>, i: nat)
    requires i + 1 < |t|
  {
    t[i].threshold < t[i + 1].threshold
  }

  /** A table the engine can rely on: it starts at zero income with zero base,
      its thresholds ascend, its rates lie in [0, 1) and it is continuous. */
  ghost predicate WellFormed(t: seq<Bracket>) {
    && |t| > 0
    && t[0].threshold == 0.0
    && t[0].base == 0.0
    && (forall i :: 0 <= i < |t| ==> 0.0 <= t[i].rate < 1.0)
    && (forall i :: 0 <= i < |t| - 1 ==> AscendsAt(t, i))
    && (forall i :: 0 <= i < |t| - 1 ==> ContinuousAt(t, i))
  }

  /** The 2024/2025 table is well formed; in particular it is continuous at all six steps. */
  lemma TaxBracketsWellFormed()
    ensures WellFormed(TaxBrackets)
  {
    var t := TaxBrackets;
    assert ContinuousAt(t, 0) && ContinuousAt(t, 1) && ContinuousAt(t, 2);
    assert ContinuousAt(t, 3) && ContinuousAt(t, 4) && ContinuousAt(t, 5);
    forall i | 0 <= i < |t| - 1 ensures ContinuousAt(t, i) {
    }
  }

  /** The last of the first `n` brackets whose threshold does not exceed `income`,
      searching from the top as `slice().reverse().find(...)` does. */
  function LastAtOrBelow(t: seq<Bracket>, income: real, n: nat): (r: Option<nat>)
    requires n <= |t|
    ensures r.Some? ==> r.value < n && t[r.value].threshold <= income
    ensures r.Some? ==> forall j :: r.value < j < n ==> t[j].threshold > income
    ensures r.None? ==> forall j :: 0 <= j < n ==> t[j].threshold > income
  {
    if n == 0 then None
    else if t[n - 1].threshold <= income then Some(n - 1)
    else LastAtOrBelow(t, income, n - 1)
  }

  /** The bracket `income` falls in: the last one whose threshold is at most the
      income, so that an income exactly at a threshold takes the higher bracket. */
  function FindBracket(t: seq<Bracket>, income: real): (r: Option<nat>)
    ensures r.Some? ==> r.value < |t| && t[r.value].threshold <= income
    ensures r.Some? ==> forall j :: r.value < j < |t| ==> t[j].threshold > income
    ensures r.None? <==> forall j :: 0 <= j < |t| ==> t[j].threshold > income
  {
    LastAtOrBelow(t, income, |t|)
  }

  /** Tax on an annual income before the rebate; no bracket means no tax. */
  function BaseTax(t: seq<Bracket>, income: real): real {
    match FindBracket(t, income)
    case None => 0.0
    case Some(i) => t[i].base + (income - t[i].threshold) * t[i].rate
  }

  /** The tax before the rebate is the base of the highest bracket at or below
      the income plus that bracket's rate on the excess over its threshold, and
      nothing when every threshold is above the income. */
  lemma BaseTaxIsBracketLine(t: seq<Bracket>, income: real, j: nat)
    requires j < |t| && t[j].threshold <= income
    requires forall k :: j < k < |t| ==> t[k].threshold > income
    ensures BaseTax(t, income) == t[j].base + (income - t[j].threshold) * t[j].rate
  {
    assert FindBracket(t, income) == Some(j);
  }

  /** Below every threshold there is no tax. */
  lemma NoBracketNoTax(t: seq<Bracket>, income: real)
    requires forall j :: 0 <= j < |t| ==> t[j].threshold > income
    ensures BaseTax(t, income) == 0.0
  {
  }

  function Max(a: real, b: real): (r: real)
    ensures r >= a && r >= b && (r == a || r == b)
  {
    if a >= b then a else b
  }

  /** The breakdown for a monthly salary under table `t` and rebate `rebate`. */
  function CalculateTax(t: seq<Bracket>, rebate: real, monthlySalary: real): (r: TaxDetails)
    ensures r.grossAnnual == r.taxableIncome == 12.0 * monthlySalary
    ensures r.annualTax >= 0.0 && r.annualTax >= BaseTax(t, r.taxableIncome) - rebate
    ensures r.annualTax == 0.0 || r.annualTax == BaseTax(t, r.taxableIncome) - rebate
    ensures r.monthlyTax * 12.0 == r.annualTax
    ensures r.netMonthly + r.monthlyTax == monthlySalary
  {
    var grossAnnual := monthlySalary * 12.0;
    var taxableIncome := grossAnnual;
    var taxAfterRebate := Max(0.0, BaseTax(t, taxableIncome) - rebate);
    var monthlyTax := taxAfterRebate / 12.0;
    TaxDetails(grossAnnual, taxableIncome, taxAfterRebate, monthlyTax, monthlySalary - monthlyTax)
  }

  /** `calculateSATax`: the 2024/2025 breakdown of a monthly salary. */
  function CalculateSATax(monthlySalary: real): (r: TaxDetails)
    ensures r.grossAnnual == r.taxableIncome == 12.0 * monthlySalary
    ensures r.annualTax >= 0.0
    ensures r.annualTax >= BaseTax(TaxBrackets, r.taxableIncome) - PrimaryRebate
    ensures r.annualTax > 0.0 ==> r.annualTax == BaseTax(TaxBrackets, r.taxableIncome) - PrimaryRebate
    ensures r.monthlyTax * 12.0 == r.annualTax
    ensures r.netMonthly == monthlySalary - r.monthlyTax
    ensures r.netMonthly <= monthlySalary
    ensures monthlySalary >= 0.0 ==> 0.0 <= r.netMonthly
    ensures r.grossAnnual <= TaxFreeThreshold ==> r.annualTax == 0.0 && r.netMonthly == monthlySalary
  {
    TaxBracketsWellFormed();
    BaseTaxAtMostIncome(TaxBrackets, 12.0 * monthlySalary);
    TaxFreeBelowThreshold(12.0 * monthlySalary);
    CalculateTax(TaxBrackets, PrimaryRebate, monthlySalary)
  }

  lemma MulNonNegative(a: real, b: real)
    requires a >= 0.0 && b >= 0.0
    ensures a * b >= 0.0
  {
  }

  lemma StepArith(b0: real, b1: real, th0: real, th1: real, r: real)
    requires b1 == b0 + (th1 - th0) * r
    requires th0 < th1 && 0.0 <= r < 1.0
    ensures 0.0 <= b1 - b0
    ensures b1 - b0 <= th1 - th0
  {
    var d := th1 - th0;
    MulNonNegative(d, r);
    MulNonNegative(d, 1.0 - r);
    assert d * (1.0 - r) == d - d * r;
  }

  /** Inside a bracket the tax lies between the bracket's base and the base plus
      the whole excess over the threshold. */
  lemma InBracketArith(v: real, base: real, th: real, r: real, y: real)
    requires v == base + (y - th) * r
    requires th <= y && 0.0 <= r < 1.0
    ensures base <= v <= base + (y - th)
  {
    var d := y - th;
    MulNonNegative(d, r);
    MulNonNegative(d, 1.0 - r);
    assert d * (1.0 - r) == d - d * r;
  }

  /** Below the next threshold the tax stays under the next base by at most the
      distance to that threshold. */
  lemma CrossBracketArith(b0: real, th0: real, r: real, b1: real, th1: real, x: real)
    requires b1 == b0 + (th1 - th0) * r
    requires th0 <= x < th1 && 0.0 <= r < 1.0
    ensures 0.0 <= b1 - (b0 + (x - th0) * r)
    ensures b1 - (b0 + (x - th0) * r) <= th1 - x
  {
    var d := th1 - x;
    MulNonNegative(d, r);
    MulNonNegative(d, 1.0 - r);
    assert d * (1.0 - r) == d - d * r;
    assert (th1 - th0) * r - (x - th0) * r == d * r;
  }

  /** Within one bracket the tax grows at the bracket's rate, so by at most the income's growth. */
  lemma SameBracketArith(base: real, th: real, r: real, x: real, y: real)
    requires x <= y && 0.0 <= r < 1.0
    ensures 0.0 <= (base + (y - th) * r) - (base + (x - th) * r)
    ensures (base + (y - th) * r) - (base + (x - th) * r) <= y - x
  {
    var d := y - x;
    MulNonNegative(d, r);
    MulNonNegative(d, 1.0 - r);
    assert d * (1.0 - r) == d - d * r;
    assert (y - th) * r - (x - th) * r == d * r;
  }

  /** One step of a well-formed table raises the base by at most the step's span. */
  lemma StepBounded(t: seq<Bracket>, k: nat)
    requires WellFormed(t)
    requires k + 1 < |t|
    ensures 0.0 <= t[k + 1].base - t[k].base <= t[k + 1].threshold - t[k].threshold
  {
    assert ContinuousAt(t, k) && AscendsAt(t, k);
    var lo, hi := t[k], t[k + 1];
    assert 0.0 <= lo.rate < 1.0;
    StepArith(lo.base, hi.base, lo.threshold, hi.threshold, lo.rate);
  }

  /** Between any two brackets of a well-formed table the base grows, but by no
      more than the distance between their thresholds. */
  lemma {:induction false} BaseGrowthBounded(t: seq<Bracket>, i: nat, j: nat)
    requires WellFormed(t)
    requires i <= j < |t|
    ensures 0.0 <= t[j].base - t[i].base <= t[j].threshold - t[i].threshold
    decreases j - i
  {
    if i < j {
      var k := j - 1;
      BaseGrowthBounded(t, i, k);
      StepBounded(t, k);
    }
  }

  /** The thresholds of a well-formed table strictly ascend. */
  lemma {:induction false} ThresholdsAscend(t: seq<Bracket>, i: nat, j: nat)
    requires WellFormed(t)
    requires i < j < |t|
    ensures t[i].threshold < t[j].threshold
    decreases j - i
  {
    var k := j - 1;
    assert AscendsAt(t, k);
    if i < k {
      ThresholdsAscend(t, i, k);
    }
  }

  /** Under a well-formed table, raising the income by `d` raises the tax before
      the rebate by at least nothing and at most `d`. */
  lemma TaxGrowthBounded(t: seq<Bracket>, x: real, y: real)
    requires WellFormed(t)
    requires x <= y
    ensures 0.0 <= BaseTax(t, y) - BaseTax(t, x) <= y - x
  {
    var bx, bY := FindBracket(t, x), FindBracket(t, y);
    if bY.None? {
      assert t[0].threshold > y;
    } else if bx.None? {
      assert t[0].threshold > x;
      GrowthFromNoBracket(t, x, y, bY.value);
    } else if bx.value == bY.value {
      var i := bx.value;
      SameBracketArith(t[i].base, t[i].threshold, t[i].rate, x, y);
    } else {
      GrowthAcrossBrackets(t, x, y, bx.value, bY.value);
    }
  }

  lemma GrowthFromNoBracket(t: seq<Bracket>, x: real, y: real, j: nat)
    requires WellFormed(t)
    requires x < 0.0 && x <= y
    requires FindBracket(t, x).None? && FindBracket(t, y) == Some(j)
    ensures 0.0 <= BaseTax(t, y) - BaseTax(t, x) <= y - x
  {
    var b := t[j];
    BaseGrowthBounded(t, 0, j);
    assert 0.0 <= b.base <= b.threshold;
    assert 0.0 <= b.rate < 1.0;
    var tx, ty := BaseTax(t, x), BaseTax(t, y);
    assert tx == 0.0;
    assert ty == b.base + (y - b.threshold) * b.rate;
    InBracketArith(ty, b.base, b.threshold, b.rate, y);
  }

  lemma GrowthAcrossBrackets(t: seq<Bracket>, x: real, y: real, i: nat, j: nat)
    requires WellFormed(t)
    requires x <= y
    requires FindBracket(t, x) == Some(i) && FindBracket(t, y) == Some(j) && i != j
    ensures 0.0 <= BaseTax(t, y) - BaseTax(t, x) <= y - x
  {
    assert i < j;
    var lo, next, hi := t[i], t[i + 1], t[j];
    var tx, ty := BaseTax(t, x), BaseTax(t, y);
    assert tx == lo.base + (x - lo.threshold) * lo.rate;
    assert ty == hi.base + (y - hi.threshold) * hi.rate;
    assert ContinuousAt(t, i);
    assert x < next.threshold;
    assert 0.0 <= lo.rate < 1.0 && 0.0 <= hi.rate < 1.0;
    CrossBracketArith(lo.base, lo.threshold, lo.rate, next.base, next.threshold, x);
    assert 0.0 <= next.base - tx <= next.threshold - x;
    BaseGrowthBounded(t, i + 1, j);
    InBracketArith(ty, hi.base, hi.threshold, hi.rate, y);
    assert 0.0 <= ty - hi.base <= y - hi.threshold;
  }

  /** Under a well-formed table the tax before the rebate never exceeds a
      non-negative income. */
  lemma BaseTaxAtMostIncome(t: seq<Bracket>, x: real)
    requires WellFormed(t)
    ensures x >= 0.0 ==> 0.0 <= BaseTax(t, x) <= x
    ensures x < 0.0 ==> BaseTax(t, x) == 0.0
  {
    if x >= 0.0 {
      assert FindBracket(t, 0.0) == Some(0) by {
        forall j | 0 < j < |t| ensures t[j].threshold > 0.0 {
          ThresholdsAscend(t, 0, j);
        }
      }
      TaxGrowthBounded(t, 0.0, x);
    } else {
      forall j | 0 <= j < |t| ensures t[j].threshold > x {
        if j > 0 {
          ThresholdsAscend(t, 0, j);
        }
      }
    }
  }

  /** An annual income of at most 95750 owes nothing once the rebate is applied:
      at 95750 the tax before the rebate is exactly the rebate. */
  lemma TaxFreeBelowThreshold(income: real)
    ensures income <= TaxFreeThreshold ==> BaseTax(TaxBrackets, income) <= PrimaryRebate
  {
    if income <= TaxFreeThreshold {
      TaxBracketsWellFormed();
      assert FindBracket(TaxBrackets, TaxFreeThreshold) == Some(0);
      assert BaseTax(TaxBrackets, TaxFreeThreshold) == PrimaryRebate;
      TaxGrowthBounded(TaxBrackets, income, TaxFreeThreshold);
    }
  }

  /** A higher salary never owes less tax and never takes home less. */
  lemma TaxIsMonotone(s1: real, s2: real)
    requires s1 <= s2
    ensures CalculateSATax(s1).annualTax <= CalculateSATax(s2).annualTax
    ensures CalculateSATax(s1).monthlyTax <= CalculateSATax(s2).monthlyTax
    ensures CalculateSATax(s1).netMonthly <= CalculateSATax(s2).netMonthly
  {
    TaxBracketsWellFormed();
    TaxGrowthBounded(TaxBrackets, 12.0 * s1, 12.0 * s2);
    var d1, d2 := CalculateSATax(s1), CalculateSATax(s2);
    assert d1.annualTax <= d2.annualTax;
    assert d1.monthlyTax <= d2.monthlyTax;
  }

  /** A zero salary owes nothing; a negative one matches no bracket, owes
      nothing and keeps all of itself as net pay. */
  lemma NoTaxWithoutIncome(s: real)
    requires s <= 0.0
    ensures FindBracket(TaxBrackets, 12.0 * s).None? <==> s < 0.0
    ensures CalculateSATax(s).annualTax == 0.0
    ensures CalculateSATax(s).monthlyTax == 0.0
    ensures CalculateSATax(s).netMonthly == s
  {
    assert TaxBrackets[0].threshold == 0.0;
  }

  /** A salary of 50000 a month: 600000 a year, taxed in the 512800 bracket at
      36% on top of 121475, giving 152867 and 135632 after the rebate. */
  lemma WorkedExample()
    ensures FindBracket(TaxBrackets, 600000.0) == Some(3)
    ensures BaseTax(TaxBrackets, 600000.0) == 152867.0
    ensures CalculateSATax(50000.0) == TaxDetails(600000.0, 600000.0, 135632.0,
                                                  135632.0 / 12.0, 50000.0 - 135632.0 / 12.0)
  {
    assert TaxBrackets[3].threshold <= 600000.0 < TaxBrackets[4].threshold;
  }
}
