/**
 * The spending breakdown: expenses grouped by label into one chart entry per
 * distinct label, with the sum of that label's amounts. The grouping table is
 * modelled as an insertion-ordered list of entries; the table the program
 * actually uses is a plain object, and `AsWrittenChart` models that object's
 * behaviour on inherited property names.
 */
module SpendingChart {
  import opened Wrappers
  import opened Types

  /** The label an expense is charted under: its custom name for `Other`
      (or "Other" when that is missing or empty), its category otherwise. */
  function Label(e: Expense): (r: string)
    ensures e.category != Other ==> r == CategoryName(e.category)
    ensures e.category == Other && e.customName.Some? && e.customName.value != "" ==> r == e.customName.value
    ensures e.category == Other && (e.customName.None? || e.customName == Some("")) ==> r == "Other"
  {
    if e.category != Other then CategoryName(e.category)
    else match e.customName
      case Some(name) => if name != "" then name else "Other"
      case None => "Other"
  }

  function Labels(es: seq<Expense>): (r: seq<string>)
    ensures |r| == |es| && forall i :: 0 <= i < |es| ==> r[i] == Label(es[i])
  {
    seq(|es|, i requires 0 <= i < |es| => Label(es[i]))
  }

  /** The sum of the amounts of the expenses labelled `name`. */
  function LabelTotal(es: seq<Expense>, name: string): real {
    if |es| == 0 then 0.0
    else LabelTotal(es[..|es| - 1], name) + (if Label(es[|es| - 1]) == name then es[|es| - 1].amount else 0.0)
  }

  datatype ChartEntry = ChartEntry(name: string, value: real)

  function Names(entries: seq<ChartEntry>): (r: seq<string>)
    ensures |r| == |entries| && forall i :: 0 <= i < |entries| ==> r[i] == entries[i].name
  {
    seq(|entries|, i requires 0 <= i < |entries| => entries[i].name)
  }

  predicate DistinctNames(entries: seq<ChartEntry>) {
    forall i, j :: 0 <= i < j < |entries| ==> entries[i].name != entries[j].name
  }

  /** The value charted for `name`, 0 when it has no entry. */
  function ValueOf(entries: seq<ChartEntry>, name: string): real {
    if |entries| == 0 then 0.0
    else if entries[0].name == name then entries[0].value
    else ValueOf(entries[1..], name)
  }

  function SumValues(entries: seq<ChartEntry>): real {
    if |entries| == 0 then 0.0 else entries[0].value + SumValues(entries[1..])
  }

  /** One step of the running total: add when the total so far is truthy, else
      start again from the amount. Starting again from a zero total is adding. */
  function Accumulate(current: real, amount: real): (r: real)
    ensures r == current + amount
  {
    if current != 0.0 then current + amount else amount
  }

  /** The position of the entry named `name`. */
  function Find(entries: seq<ChartEntry>, name: string): (r: Option<nat>)
    ensures r.Some? ==> r.value < |entries| && entries[r.value].name == name
    ensures r.None? <==> name !in Names(entries)
  {
    if |entries| == 0 then None
    else if entries[0].name == name then Some(0)
    else match Find(entries[1..], name) {
      case None =>
        assert forall i :: 1 <= i < |entries| ==> entries[i].name == Names(entries[1..])[i - 1];
        None
      case Some(i) => Some(i + 1)
    }
  }

  lemma {:induction false} ValueOfAt(entries: seq<ChartEntry>, i: nat)
    requires DistinctNames(entries) && i < |entries|
    ensures ValueOf(entries, entries[i].name) == entries[i].value
  {
    if i > 0 {
      assert entries[0].name != entries[i].name;
      ValueOfAt(entries[1..], i - 1);
    }
  }

  lemma {:induction false} ValueOfAbsent(entries: seq<ChartEntry>, name: string)
    requires name !in Names(entries)
    ensures ValueOf(entries, name) == 0.0
  {
    if |entries| > 0 {
      assert entries[0].name == Names(entries)[0];
      assert Names(entries[1..]) == Names(entries)[1..];
      ValueOfAbsent(entries[1..], name);
    }
  }

  lemma {:induction false} SumValuesAppend(entries: seq<ChartEntry>, e: ChartEntry)
    ensures SumValues(entries + [e]) == SumValues(entries) + e.value
  {
    if |entries| == 0 {
      assert SumValues([e]) == e.value + SumValues([]);
    } else {
      assert (entries + [e])[1..] == entries[1..] + [e];
      SumValuesAppend(entries[1..], e);
    }
  }

  lemma {:induction false} SumValuesUpdate(entries: seq<ChartEntry>, i: nat, e: ChartEntry)
    requires i < |entries|
    ensures SumValues(entries[i := e]) == SumValues(entries) - entries[i].value + e.value
  {
    if i > 0 {
      assert entries[i := e][1..] == entries[1..][i - 1 := e];
      SumValuesUpdate(entries[1..], i - 1, e);
    }
  }

  /** Adds `amount` to the entry named `name`, creating it at the end if new. */
  function AddTo(entries: seq<ChartEntry>, name: string, amount: real): (r: seq<ChartEntry>)
    requires DistinctNames(entries)
    ensures DistinctNames(r)
    ensures forall n :: n in Names(r) <==> n in Names(entries) || n == name
    ensures forall n :: ValueOf(r, n) == ValueOf(entries, n) + (if n == name then amount else 0.0)
    ensures SumValues(r) == SumValues(entries) + amount
  {
    match Find(entries, name)
    case Some(i) =>
      var r := entries[i := ChartEntry(name, Accumulate(entries[i].value, amount))];
      SumValuesUpdate(entries, i, r[i]);
      assert Names(r) == Names(entries);
      UpdatedValues(entries, i, amount);
      r
    case None =>
      var r := entries + [ChartEntry(name, amount)];
      SumValuesAppend(entries, ChartEntry(name, amount));
      assert Names(r) == Names(entries) + [name];
      AppendedValues(entries, name, amount);
      r
  }

  lemma UpdatedValues(entries: seq<ChartEntry>, i: nat, amount: real)
    requires DistinctNames(entries) && i < |entries|
    ensures var name := entries[i].name;
            var r := entries[i := ChartEntry(name, entries[i].value + amount)];
            forall n :: ValueOf(r, n) == ValueOf(entries, n) + (if n == name then amount else 0.0)
  {
    var name := entries[i].name;
    var r := entries[i := ChartEntry(name, entries[i].value + amount)];
    assert Names(r) == Names(entries);
    forall n ensures ValueOf(r, n) == ValueOf(entries, n) + (if n == name then amount else 0.0) {
      match Find(entries, n) {
        case Some(j) =>
          ValueOfAt(entries, j);
          ValueOfAt(r, j);
          assert j == i <==> n == name;
        case None =>
          ValueOfAbsent(entries, n);
          ValueOfAbsent(r, n);
      }
    }
  }

  lemma AppendedValues(entries: seq<ChartEntry>, name: string, amount: real)
    requires DistinctNames(entries) && name !in Names(entries)
    ensures var r := entries + [ChartEntry(name, amount)];
            forall n :: ValueOf(r, n) == ValueOf(entries, n) + (if n == name then amount else 0.0)
  {
    var r := entries + [ChartEntry(name, amount)];
    assert Names(r) == Names(entries) + [name];
    assert DistinctNames(r);
    forall n ensures ValueOf(r, n) == ValueOf(entries, n) + (if n == name then amount else 0.0) {
      if n == name {
        ValueOfAbsent(entries, n);
        ValueOfAt(r, |entries|);
      } else {
        match Find(entries, n) {
          case Some(j) =>
            ValueOfAt(entries, j);
            ValueOfAt(r, j);
          case None =>
            ValueOfAbsent(entries, n);
            ValueOfAbsent(r, n);
        }
      }
    }
  }

  /** `chartData`: one entry per distinct label, in order of first appearance,
      valued at that label's total; together the entries account for every
      expense. */
  function ChartData(es: seq<Expense>): (r: seq<ChartEntry>)
    ensures DistinctNames(r)
    ensures forall n :: n in Names(r) <==> n in Labels(es)
    ensures forall n :: ValueOf(r, n) == LabelTotal(es, n)
    ensures SumValues(r) == TotalExpenses(es)
  {
    if |es| == 0 then []
    else
      var last := es[|es| - 1];
      var prefix := ChartData(es[..|es| - 1]);
      var r := AddTo(prefix, Label(last), last.amount);
      ChartNamesStep(es, prefix, r);
      ChartValuesStep(es, prefix, r);
      r
  }

  /** The grouping facts for all of `es` follow from those for its prefix and
      the step that adds its last expense: first the names, then the values. */
  lemma ChartNamesStep(es: seq<Expense>, prefix: seq<ChartEntry>, r: seq<ChartEntry>)
    requires |es| > 0
    requires forall n :: n in Names(prefix) <==> n in Labels(es[..|es| - 1])
    requires forall n :: n in Names(r) <==> n in Names(prefix) || n == Label(es[|es| - 1])
    ensures forall n :: n in Names(r) <==> n in Labels(es)
  {
    forall n ensures n in Names(r) <==> n in Labels(es) {
      LabelsSnoc(es, n);
    }
  }

  lemma ChartValuesStep(es: seq<Expense>, prefix: seq<ChartEntry>, r: seq<ChartEntry>)
    requires |es| > 0
    requires forall n :: ValueOf(prefix, n) == LabelTotal(es[..|es| - 1], n)
    requires forall n :: ValueOf(r, n) == ValueOf(prefix, n) + (if n == Label(es[|es| - 1]) then es[|es| - 1].amount else 0.0)
    ensures forall n :: ValueOf(r, n) == LabelTotal(es, n)
  {
    forall n ensures ValueOf(r, n) == LabelTotal(es, n) {
      LabelTotalSnoc(es, n);
    }
  }

  lemma LabelTotalSnoc(es: seq<Expense>, n: string)
    requires |es| > 0
    ensures LabelTotal(es, n) == LabelTotal(es[..|es| - 1], n) + (if n == Label(es[|es| - 1]) then es[|es| - 1].amount else 0.0)
  {
  }

  lemma LabelsSnoc(es: seq<Expense>, n: string)
    requires |es| > 0
    ensures n in Labels(es) <==> n in Labels(es[..|es| - 1]) || n == Label(es[|es| - 1])
  {
    assert Labels(es) == Labels(es[..|es| - 1]) + [Label(es[|es| - 1])];
  }

  /** What the breakdown card shows. */
  datatype ChartView = NoData | Pie(entries: seq<ChartEntry>)

  function View(es: seq<Expense>): (r: ChartView)
    ensures r.NoData? <==> |es| == 0
    ensures r.Pie? ==> r.entries == ChartData(es) && |r.entries| > 0
  {
    if |es| == 0 then NoData
    else
      var r := ChartData(es);
      assert Label(es[0]) in Labels(es);
      Pie(r)
  }

  /** Two expenses with the same label share one entry holding their sum. */
  lemma SameLabelSharesEntry()
    ensures var es := [Expense("a", Other, Some("Gym"), 300.0), Expense("b", Food, None, 200.0),
                       Expense("c", Other, Some("Gym"), 100.0)];
            ChartData(es) == [ChartEntry("Gym", 400.0), ChartEntry("Food", 200.0)]
  {
    var es := [Expense("a", Other, Some("Gym"), 300.0), Expense("b", Food, None, 200.0),
               Expense("c", Other, Some("Gym"), 100.0)];
    assert es[..2] == [es[0], es[1]] && es[..2][..1] == [es[0]] && es[..2][..1][..0] == [];
    assert ChartData([es[0]]) == [ChartEntry("Gym", 300.0)];
  }

  // ---------------------------------------------------------------- as written

  /** The property names an empty object literal inherits: reading any of them
      on the grouping table finds a truthy value before any expense is added. */
  const InheritedNames: set<string> := {
    "__proto__", "constructor", "hasOwnProperty", "isPrototypeOf", "propertyIsEnumerable",
    "toString", "toLocaleString", "valueOf",
    "__defineGetter__", "__defineSetter__", "__lookupGetter__", "__lookupSetter__" }

  /** An own property of the grouping table: a number, or the text that `+=`
      makes of an inherited function and a number. */
  datatype Slot = Number(v: real) | Text

  datatype OwnEntry = OwnEntry(name: string, slot: Slot)

  function FindOwn(own: seq<OwnEntry>, name: string): (r: Option<nat>)
    ensures r.Some? ==> r.value < |own| && own[r.value].name == name
    ensures r.None? ==> forall i :: 0 <= i < |own| ==> own[i].name != name
  {
    if |own| == 0 then None
    else if own[0].name == name then Some(0)
    else match FindOwn(own[1..], name) {
      case None => None
      case Some(i) => Some(i + 1)
    }
  }

  /** One grouping step on the plain object: an own property accumulates; an
      inherited name is read as a truthy value and `+=` is applied to it, which
      `__proto__` ignores and every other inherited name stores as text. */
  function AsWrittenAddTo(own: seq<OwnEntry>, name: string, amount: real): (r: seq<OwnEntry>)
    ensures FindOwn(own, name).None? && name == "__proto__" ==> r == own
    ensures FindOwn(own, name).None? && name != "__proto__" && name in InheritedNames ==> r == own + [OwnEntry(name, Text)]
    ensures |r| <= |own| + 1
    ensures OwnKeys(own) ==> OwnKeys(r)
  {
    match FindOwn(own, name)
    case Some(i) =>
      var slot := match own[i].slot {
        case Number(v) => Number(Accumulate(v, amount))
        case Text => Text
      };
      own[i := OwnEntry(name, slot)]
    case None =>
      if name == "__proto__" then own
      else if name in InheritedNames then own + [OwnEntry(name, Text)]
      else own + [OwnEntry(name, Number(amount))]
  }

  /** A plain object's own keys: distinct, and never `__proto__`, which the
      object literal does not take as an own property. */
  predicate OwnKeys(own: seq<OwnEntry>) {
    && (forall i :: 0 <= i < |own| ==> own[i].name != "__proto__")
    && (forall i, j :: 0 <= i < j < |own| ==> own[i].name != own[j].name)
  }

  /** The grouping fold as the program writes it, over a plain object: at most
      one own entry per expense, under distinct keys, none of them `__proto__`. */
  function AsWrittenChart(es: seq<Expense>): (r: seq<OwnEntry>)
    ensures |r| <= |es|
    ensures OwnKeys(r)
  {
    if |es| == 0 then []
    else AsWrittenAddTo(AsWrittenChart(es[..|es| - 1]), Label(es[|es| - 1]), es[|es| - 1].amount)
  }

  /** The chart entries as own properties of the plain object. */
  function AsOwn(entries: seq<ChartEntry>): (r: seq<OwnEntry>)
    ensures |r| == |entries|
    ensures forall i :: 0 <= i < |entries| ==> r[i] == OwnEntry(entries[i].name, Number(entries[i].value))
  {
    seq(|entries|, i requires 0 <= i < |entries| => OwnEntry(entries[i].name, Number(entries[i].value)))
  }

  /** As long as no label is an inherited name, the plain object groups exactly
      as `ChartData` does. */
  lemma {:induction false} AsWrittenAgreesOffInheritedNames(es: seq<Expense>)
    requires forall i :: 0 <= i < |es| ==> Label(es[i]) !in InheritedNames
    ensures AsWrittenChart(es) == AsOwn(ChartData(es))
  {
    if |es| > 0 {
      var prefix, last := es[..|es| - 1], es[|es| - 1];
      AsWrittenAgreesOffInheritedNames(prefix);
      AsWrittenStepAgrees(ChartData(prefix), Label(last), last.amount);
    }
  }

  /** One grouping step agrees with `AddTo` on a name that is not inherited. */
  lemma AsWrittenStepAgrees(entries: seq<ChartEntry>, name: string, amount: real)
    requires DistinctNames(entries) && name !in InheritedNames
    ensures AsWrittenAddTo(AsOwn(entries), name, amount) == AsOwn(AddTo(entries, name, amount))
  {
    FindOwnMatches(entries, name);
    match Find(entries, name) {
      case Some(i) =>
        var v := Accumulate(entries[i].value, amount);
        assert AsOwn(entries)[i := OwnEntry(name, Number(v))] == AsOwn(entries[i := ChartEntry(name, v)]);
      case None =>
        assert AsOwn(entries) + [OwnEntry(name, Number(amount))] == AsOwn(entries + [ChartEntry(name, amount)]);
    }
  }

  lemma {:induction false} FindOwnMatches(entries: seq<ChartEntry>, name: string)
    ensures FindOwn(AsOwn(entries), name) == Find(entries, name)
  {
    if |entries| > 0 {
      assert AsOwn(entries)[1..] == AsOwn(entries[1..]);
      FindOwnMatches(entries[1..], name);
    }
  }

  /** An `Other` expense named "__proto__" vanishes from the chart: the entries
      no longer account for the total spent, and since the list is not empty the
      program draws a pie over no entries instead of the no-data message. */
  lemma ProtoLabelIsDropped()
    ensures var es := [Expense("1", Other, Some("__proto__"), 100.0)];
            && AsWrittenChart(es) == []
            && !View(es).NoData?
            && TotalExpenses(es) == 100.0
            && ChartData(es) == [ChartEntry("__proto__", 100.0)]
  {
    var es := [Expense("1", Other, Some("__proto__"), 100.0)];
    assert es[..0] == [];
    assert Label(es[0]) == "__proto__";
  }

  /** An `Other` expense named "constructor" is charted with a text value. */
  lemma InheritedLabelIsGarbled()
    ensures AsWrittenChart([Expense("1", Other, Some("constructor"), 100.0)]) == [OwnEntry("constructor", Text)]
  {
    var es := [Expense("1", Other, Some("constructor"), 100.0)];
    assert es[..0] == [];
    assert Label(es[0]) == "constructor";
  }
}
