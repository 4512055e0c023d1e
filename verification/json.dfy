/**
 * Documents as abstract values: what `JSON.parse` and the spreadsheet reader
 * hand the import code, the JavaScript reading rules the import code applies
 * to them (property access, truthiness, `||`, `parseFloat`), and the budget's
 * document shape.
 */
module Json {
  import opened Wrappers
  import opened Types

  /** A JavaScript value as a parser yields it. `NaN` is the non-number that
      `parseFloat` gives for text it cannot read. Object keys are unordered. */
  datatype Json =
    | Null
    | Bool(b: bool)
    | Num(n: real)
    | NaN
    | Str(s: string)
    | Arr(items: seq<Json>)
    | Obj(fields: map<string, Json>)

  /** Reading `v.key`; `None` stands for `undefined`. Only objects carry the
      keys the budget code reads. */
  function Field(v: Json, key: string): (r: Option<Json>)
    ensures r.Some? <==> v.Obj? && key in v.fields
    ensures r.Some? ==> r.value == v.fields[key]
  {
    if v.Obj? && key in v.fields then Some(v.fields[key]) else None
  }

  /** JavaScript truthiness, `undefined` included. */
  predicate Truthy(v: Option<Json>) {
    match v
    case None => false
    case Some(Null) => false
    case Some(Bool(b)) => b
    case Some(Num(n)) => n != 0.0
    case Some(NaN) => false
    case Some(Str(s)) => s != ""
    case Some(Arr(_)) => true
    case Some(Obj(_)) => true
  }

  /** JavaScript's `a || b`: `a` when it is truthy, `b` otherwise. */
  function Or(a: Option<Json>, b: Option<Json>): (r: Option<Json>)
    ensures Truthy(a) ==> r == a
    ensures !Truthy(a) ==> r == b
  {
    if Truthy(a) then a else b
  }

  /** `parseFloat(v)`, with `lex` the host's reading of a numeric prefix of a
      text; `None` is `NaN`. Numbers read as themselves. */
  function ParseFloat(v: Json, lex: string -> Option<real>): (r: Option<real>)
    ensures v.Num? ==> r == Some(v.n)
    ensures v.Str? ==> r == lex(v.s)
    ensures v.NaN? ==> r.None?
  {
    match v
    case Num(n) => Some(n)
    case NaN => None
    case Str(s) => lex(s)
    case Bool(b) => lex(if b then "true" else "false")
    case Null => lex("null")
    case Arr(_) => None
    case Obj(_) => None
  }

  /** `x || 0` for a number that may be `NaN`: both `NaN` and zero give zero. */
  function OrZero(x: Option<real>): (r: real)
    ensures x.Some? ==> r == x.value
    ensures x.None? ==> r == 0.0
  {
    match x
    case Some(v) => v
    case None => 0.0
  }

  /** A value with no `NaN` anywhere inside: one that JSON text can carry. */
  ghost predicate Finite(v: Json) {
    match v
    case NaN => false
    case Arr(items) => forall i :: 0 <= i < |items| ==> Finite(items[i])
    case Obj(fields) => forall k :: k in fields ==> Finite(fields[k])
    case _ => true
  }

  /** What the program takes from its host: JSON text encoding and decoding,
      the numeric lexer behind `parseFloat`, and the clock in milliseconds. */
  datatype Host = Host(
    stringify: Json -> string,
    parse: string -> Option<Json>,
    lex: string -> Option<real>,
    now: nat)

  /** The host parses the JSON text it wrote for `v` back into `v`, as
      `JSON.parse(JSON.stringify(v))` does for a document of finite doubles,
      strings, arrays and objects. A condition on one document, which every
      document can meet (`SomeHostReadsBack`). */
  predicate ReadsBack(h: Host, v: Json) {
    h.parse(h.stringify(v)) == Some(v)
  }

  /** No document is beyond every host. */
  lemma SomeHostReadsBack(v: Json)
    ensures exists h :: ReadsBack(h, v)
  {
    var h := Host(u => "", text => Some(v), text => None, 0);
    assert ReadsBack(h, v);
  }

  // The budget's document shape.

  function EncodeExpense(e: Expense): (r: Json)
    ensures r.Obj? && Finite(r)
    ensures "customName" in r.fields <==> e.customName.Some?
  {
    var fields := map["id" := Str(e.id), "category" := Str(CategoryName(e.category)), "amount" := Num(e.amount)];
    match e.customName
    case None => Obj(fields)
    case Some(name) => Obj(fields["customName" := Str(name)])
  }

  /** `v.key` when it is a string. */
  function TextField(v: Json, key: string): (r: Option<string>)
    ensures r.Some? <==> Field(v, key).Some? && Field(v, key).value.Str?
    ensures r.Some? ==> Field(v, key) == Some(Str(r.value))
  {
    match Field(v, key) {
      case Some(Str(s)) => Some(s)
      case _ => None
    }
  }

  /** `v.key` when it is a number other than `NaN`. */
  function NumberField(v: Json, key: string): (r: Option<real>)
    ensures r.Some? <==> Field(v, key).Some? && Field(v, key).value.Num?
    ensures r.Some? ==> Field(v, key) == Some(Num(r.value))
  {
    match Field(v, key) {
      case Some(Num(n)) => Some(n)
      case _ => None
    }
  }

  /** Reads an expense object: a string `id`, a known `category`, a number
      `amount` and, if present, a string `customName`. */
  function DecodeExpense(v: Json): (r: Option<Expense>)
    ensures r.Some? ==> && Field(v, "id") == Some(Str(r.value.id))
                        && Field(v, "category") == Some(Str(CategoryName(r.value.category)))
                        && Field(v, "amount") == Some(Num(r.value.amount))
    ensures r.Some? ==> (r.value.customName.Some? <==> Field(v, "customName").Some?)
    ensures r.Some? && r.value.customName.Some? ==> Field(v, "customName") == Some(Str(r.value.customName.value))
  {
    var id, cat, amount := TextField(v, "id"), TextField(v, "category"), NumberField(v, "amount");
    var hasName := Field(v, "customName").Some?;
    var name := TextField(v, "customName");
    if id.None? || cat.None? || amount.None? || (hasName && name.None?) then None
    else
      match CategoryFromName(cat.value) {
        case None => None
        case Some(category) => Some(Expense(id.value, category, name, amount.value))
      }
  }

  lemma DecodeEncodeExpense(e: Expense)
    ensures DecodeExpense(EncodeExpense(e)) == Some(e)
  {
    match e.category
    case Food =>
    case Transport =>
    case Rent =>
    case MedicalAid =>
    case Other =>
  }

  function EncodeExpenseList(es: seq<Expense>): (r: seq<Json>)
    ensures |r| == |es|
    ensures forall i :: 0 <= i < |es| ==> r[i] == EncodeExpense(es[i])
  {
    seq(|es|, i requires 0 <= i < |es| => EncodeExpense(es[i]))
  }

  /** Reads every element as an expense; one unreadable element spoils the list. */
  function DecodeExpenseList(items: seq<Json>): (r: Option<seq<Expense>>)
    ensures r.Some? ==> |r.value| == |items|
    ensures r.Some? ==> forall i :: 0 <= i < |items| ==> DecodeExpense(items[i]) == Some(r.value[i])
    ensures r.None? <==> exists i :: 0 <= i < |items| && DecodeExpense(items[i]).None?
  {
    if |items| == 0 then Some([])
    else
      match (DecodeExpense(items[0]), DecodeExpenseList(items[1..]))
      case (Some(e), Some(rest)) =>
        assert forall i :: 1 <= i < |items| ==> items[i] == items[1..][i - 1];
        Some([e] + rest)
      case (None, _) => None
      case (_, None) =>
        var i :| 0 <= i < |items[1..]| && DecodeExpense(items[1..][i]).None?;
        assert DecodeExpense(items[i + 1]).None?;
        None
  }

  lemma {:induction false} DecodeEncodeExpenseList(es: seq<Expense>)
    ensures DecodeExpenseList(EncodeExpenseList(es)) == Some(es)
  {
    if |es| > 0 {
      DecodeEncodeExpense(es[0]);
      assert EncodeExpenseList(es)[1..] == EncodeExpenseList(es[1..]);
      DecodeEncodeExpenseList(es[1..]);
      assert es == [es[0]] + es[1..];
    }
  }

  /** The budget as `JSON.stringify` serialises it: exactly its three fields. */
  function EncodeBudget(b: BudgetState): (r: Json)
    ensures r.Obj? && r.fields.Keys == {"monthlySalary", "expenses", "currency"}
  {
    Obj(map[
      "monthlySalary" := Num(b.monthlySalary),
      "expenses" := Arr(EncodeExpenseList(b.expenses)),
      "currency" := Str(CurrencyCode(b.currency))])
  }

  /** The typed reading of a budget document: a number salary, a known currency
      code and an array of readable expenses; other keys are ignored. */
  function DecodeBudget(v: Json): (r: Option<BudgetState>)
    ensures r.Some? ==> Field(v, "monthlySalary") == Some(Num(r.value.monthlySalary))
    ensures r.Some? ==> Field(v, "currency") == Some(Str(CurrencyCode(r.value.currency)))
    ensures r.Some? ==> exists items :: Field(v, "expenses") == Some(Arr(items))
                                     && DecodeExpenseList(items) == Some(r.value.expenses)
  {
    var salary, code := NumberField(v, "monthlySalary"), TextField(v, "currency");
    match Field(v, "expenses") {
      case Some(Arr(items)) =>
        var es, c := DecodeExpenseList(items), if code.Some? then CurrencyFromCode(code.value) else None;
        if salary.Some? && es.Some? && c.Some? then Some(BudgetState(salary.value, es.value, c.value)) else None
      case _ => None
    }
  }

  /** Encoding a budget and reading it back gives the same budget, expense for
      expense and field for field. */
  lemma DecodeEncodeBudget(b: BudgetState)
    ensures DecodeBudget(EncodeBudget(b)) == Some(b)
    ensures Finite(EncodeBudget(b))
  {
    DecodeEncodeExpenseList(b.expenses);
    EncodedBudgetFinite(b);
    match b.currency
    case ZAR =>
    case USD =>
    case EUR =>
  }

  /** An encoded budget holds no `NaN`. */
  lemma EncodedBudgetFinite(b: BudgetState)
    ensures Finite(EncodeBudget(b))
  {
    var list := EncodeExpenseList(b.expenses);
    assert Finite(Arr(list));
  }
}
