/**
 * The static currency table, conversion from ZAR to a display currency and
 * back, and the `"<symbol> <amount>"` rendering of money.
 */
module Currencies {
  import opened Wrappers
  import opened Types
  import opened Text

  /** A currency's symbol and its rate relative to ZAR (display units per rand). */
  datatype CurrencyDetails = CurrencyDetails(symbol: string, rate: real)

  /** The currency table: every code has a symbol and a strictly positive rate,
      ZAR's being 1 (1 USD = 18.5 ZAR, 1 EUR = 20 ZAR). */
  function Details(c: Currency): (d: CurrencyDetails)
    ensures d.rate > 0.0
    ensures |d.symbol| == 1
    ensures c == ZAR <==> d.rate == 1.0
  {
    match c
    case ZAR => CurrencyDetails("R", 1.0)
    case USD => CurrencyDetails("$", 1.0 / 18.5)
    case EUR => CurrencyDetails("€", 1.0 / 20.0)
  }

  function Rate(c: Currency): (r: real)
    ensures r > 0.0
  {
    Details(c).rate
  }

  /** A ZAR amount expressed in the display currency `target`. */
  function Convert(amountInZar: real, target: Currency): (r: real)
    ensures target == ZAR ==> r == amountInZar
    ensures r > 0.0 <==> amountInZar > 0.0
    ensures r == 0.0 <==> amountInZar == 0.0
  {
    amountInZar * Rate(target)
  }

  /** An amount entered in the display currency `source`, expressed in ZAR:
      what the forms store. */
  function ToZar(amount: real, source: Currency): (r: real)
    ensures source == ZAR ==> r == amount
    ensures r > 0.0 <==> amount > 0.0
  {
    amount / Rate(source)
  }

  /** Converting what was entered back to the currency it was entered in gives
      the entered amount. */
  lemma ConvertUndoesToZar(amount: real, c: Currency)
    ensures Convert(ToZar(amount, c), c) == amount
    ensures ToZar(Convert(amount, c), c) == amount
  {
  }

  /** Conversion is linear. */
  lemma ConvertIsLinear(a: real, b: real, k: real, c: Currency)
    ensures Convert(a + b, c) == Convert(a, c) + Convert(b, c)
    ensures Convert(k * a, c) == k * Convert(a, c)
    ensures Convert(0.0, c) == 0.0
  {
  }

  /** Conversion keeps the order of amounts, strictly. */
  lemma ConvertIsMonotone(a: real, b: real, c: Currency)
    requires a <= b
    ensures Convert(a, c) <= Convert(b, c)
    ensures a < b ==> Convert(a, c) < Convert(b, c)
  {
    var r := Rate(c);
    assert Convert(b, c) - Convert(a, c) == (b - a) * r;
  }

  /** `x` rounded to whole cents, half away from zero, as a count of cents. */
  function RoundCents(x: real): (cents: nat)
    requires x >= 0.0
    ensures x * 100.0 - 0.5 < cents as real <= x * 100.0 + 0.5
  {
    (x * 100.0 + 0.5).Floor
  }

  /** `s` with every `c` removed. */
  function Drop(s: string, c: char): (r: string)
    ensures c !in r
    ensures c !in s ==> r == s
  {
    if |s| == 0 then "" else (if s[0] == c then "" else [s[0]]) + Drop(s[1..], c)
  }

  lemma {:induction false} DropAppend(a: string, b: string, c: char)
    ensures Drop(a + b, c) == Drop(a, c) + Drop(b, c)
  {
    if |a| > 0 {
      assert (a + b)[0] == a[0] && (a + b)[1..] == a[1..] + b;
      DropAppend(a[1..], b, c);
      var head := if a[0] == c then "" else [a[0]];
      assert Drop(a + b, c) == head + Drop(a[1..] + b, c);
      assert Drop(a, c) == head + Drop(a[1..], c);
    } else {
      assert a + b == b;
    }
  }

  /** A digit string with a comma before every group of three digits from the
      right, as the en-US locale groups thousands. */
  function Group(digits: string): (r: string)
    requires forall i :: 0 <= i < |digits| ==> IsDigit(digits[i])
    ensures Drop(r, ',') == digits
    ensures forall i :: 0 <= i < |r| ==> IsDigit(r[i]) || r[i] == ','
    ensures |r| > 0 <==> |digits| > 0
    ensures |digits| > 0 ==> ThousandsGrouped(r)
  {
    NoCommaInDigits(digits);
    if |digits| <= 3 then digits
    else
      var head, tail := digits[..|digits| - 3], digits[|digits| - 3..];
      assert digits == head + tail;
      NoCommaInDigits(tail);
      var g := Group(head);
      GroupJoin(g, head, tail);
      g + [','] + tail
  }

  /** Appending a comma and the last three digits keeps every property of a
      grouped rendering. */
  lemma GroupJoin(g: string, head: string, tail: string)
    requires Drop(g, ',') == head && |head| > 0 && ThousandsGrouped(g)
    requires forall i :: 0 <= i < |g| ==> IsDigit(g[i]) || g[i] == ','
    requires |tail| == 3 && forall i :: 0 <= i < 3 ==> IsDigit(tail[i])
    ensures var r := g + [','] + tail;
            && Drop(r, ',') == head + tail
            && (forall i :: 0 <= i < |r| ==> IsDigit(r[i]) || r[i] == ',')
            && ThousandsGrouped(r)
  {
    NoCommaInDigits(tail);
    GroupStep(g, head, tail);
    GroupCommas(g, tail);
  }

  /** Commas stand exactly at every fourth place counted from the right, so
      each comma is followed by three digits and the leading group holds one
      to three characters. */
  predicate ThousandsGrouped(w: string) {
    && |w| % 4 != 0
    && forall i :: 0 <= i < |w| ==> (w[i] == ',' <==> (|w| - i) % 4 == 0)
  }

  lemma GroupCommas(g: string, tail: string)
    requires ThousandsGrouped(g) && |tail| == 3 && ',' !in tail
    ensures ThousandsGrouped(g + [','] + tail)
  {
    var r := g + [','] + tail;
    forall i | 0 <= i < |r| ensures r[i] == ',' <==> (|r| - i) % 4 == 0 {
      if i < |g| {
        assert r[i] == g[i] && |r| - i == (|g| - i) + 4;
      } else if i > |g| {
        assert r[i] == tail[i - |g| - 1];
      }
    }
  }

  lemma NoCommaInDigits(s: string)
    requires forall i :: 0 <= i < |s| ==> IsDigit(s[i])
    ensures ',' !in s
  {
  }

  lemma GroupStep(g: string, head: string, tail: string)
    requires Drop(g, ',') == head && ',' !in tail
    ensures Drop(g + [','] + tail, ',') == head + tail
  {
    var comma: string := [','];
    assert Drop(comma, ',') == [] by {
      assert comma[1..] == [];
    }
    DropAppend(g, comma, ',');
    assert Drop(g + comma, ',') == head;
    DropAppend(g + comma, tail, ',');
    assert Drop(tail, ',') == tail;
  }

  /** An amount with exactly two fraction digits and grouped thousands, the
      minus sign shown for every negative amount. */
  function FormatAmount(x: real): (r: string)
    ensures |r| >= 4
    ensures r[|r| - 3] == '.' && IsDigit(r[|r| - 2]) && IsDigit(r[|r| - 1])
    ensures '.' !in r[..|r| - 3]
    ensures r[0] == '-' <==> x < 0.0
    ensures var cents, w := RoundCents(if x < 0.0 then -x else x), r[(if x < 0.0 then 1 else 0)..|r| - 3];
            && Drop(w, ',') == NatToString(cents / 100)
            && ThousandsGrouped(w)
            && (r[|r| - 2] as int - '0' as int) * 10 + (r[|r| - 1] as int - '0' as int) == cents % 100
  {
    var cents := RoundCents(if x < 0.0 then -x else x);
    var whole := Group(NatToString(cents / 100));
    var lead := whole[0];
    assert lead != '-' by { assert IsDigit(lead) || lead == ','; }
    SignedDecimal(x < 0.0, whole, CentsDigits(cents))
  }

  /** `x.toFixed(2)`: the rounded amount with two fraction digits and no
      grouping, the minus sign shown for every negative amount. The whole
      part and the two fraction digits together spell the rounded cents. */
  function ToFixed2(x: real): (r: string)
    ensures |r| >= 4
    ensures r[|r| - 3] == '.' && IsDigit(r[|r| - 2]) && IsDigit(r[|r| - 1])
    ensures r[0] == '-' <==> x < 0.0
    ensures var cents, w := RoundCents(if x < 0.0 then -x else x), r[(if x < 0.0 then 1 else 0)..|r| - 3];
            && |w| > 0 && (forall i :: 0 <= i < |w| ==> IsDigit(w[i]))
            && (|w| > 1 ==> w[0] != '0')
            && DigitsValue(w) * 100 + (r[|r| - 2] as int - '0' as int) * 10 + (r[|r| - 1] as int - '0' as int) == cents
  {
    var cents := RoundCents(if x < 0.0 then -x else x);
    var whole := NatToString(cents / 100);
    NatToStringValue(cents / 100);
    assert IsDigit(whole[0]);
    SignedDecimal(x < 0.0, whole, CentsDigits(cents))
  }

  /** Reads a `toFixed(2)` text back: an optional minus sign, decimal digits,
      a point and two digits give the sign and the amount in cents. */
  function ReadFixed2(t: string): (r: Option<(bool, nat)>)
    ensures r.Some? ==> |t| >= 4 && t[|t| - 3] == '.' && (r.value.0 <==> t[0] == '-')
  {
    var start := if |t| > 0 && t[0] == '-' then 1 else 0;
    if |t| < start + 4 then None
    else
      var w := t[start..|t| - 3];
      if t[|t| - 3] != '.' || !IsDigit(t[|t| - 2]) || !IsDigit(t[|t| - 1]) then None
      else if exists i :: 0 <= i < |w| && !IsDigit(w[i]) then None
      else Some((start == 1, DigitsValue(w) * 100 + (t[|t| - 2] as int - '0' as int) * 10 + (t[|t| - 1] as int - '0' as int)))
  }

  /** Reading the `toFixed(2)` text of an amount gives its sign and its
      rounded cents back. */
  lemma ReadToFixed2(x: real)
    ensures ReadFixed2(ToFixed2(x)) == Some((x < 0.0, RoundCents(if x < 0.0 then -x else x)))
  {
    var t := ToFixed2(x);
    assert t[(if x < 0.0 then 1 else 0)..|t| - 3] == t[(if |t| > 0 && t[0] == '-' then 1 else 0)..|t| - 3];
  }

  /** The two fraction digits of an amount counted in cents. */
  function CentsDigits(cents: nat): (frac: string)
    ensures |frac| == 2 && IsDigit(frac[0]) && IsDigit(frac[1])
    ensures (frac[0] as int - '0' as int) * 10 + (frac[1] as int - '0' as int) == cents % 100
  {
    var m := cents % 100;
    [DigitChar(m / 10), DigitChar(m % 10)]
  }

  /** An optional minus sign, a whole part, a point and two fraction digits,
      each where a reader of the text looks for it. */
  function SignedDecimal(neg: bool, whole: string, frac: string): (r: string)
    requires |whole| > 0 && '.' !in whole && whole[0] != '-'
    requires |frac| == 2
    ensures |r| == (if neg then 1 else 0) + |whole| + 3
    ensures r[0] == '-' <==> neg
    ensures r[(if neg then 1 else 0)..|r| - 3] == whole
    ensures r[|r| - 3] == '.' && r[|r| - 2] == frac[0] && r[|r| - 1] == frac[1]
    ensures '.' !in r[..|r| - 3]
  {
    var sign := if neg then "-" else "";
    var r := sign + whole + "." + frac;
    assert r[..|r| - 3] == sign + whole;
    assert r[|sign|..|r| - 3] == whole;
    assert !neg ==> r[0] == whole[0];
    r
  }

  /** `formatCurrency`: the currency symbol, one space, then the formatted amount. */
  function FormatCurrency(amount: real, c: Currency): (r: string)
    ensures |r| >= 6
    ensures r[..2] == Details(c).symbol + " "
    ensures r[2..] == FormatAmount(amount)
  {
    Details(c).symbol + " " + FormatAmount(amount)
  }
}
