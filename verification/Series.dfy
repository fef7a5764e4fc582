/** The series of a benchmark workload and their label sets (internal/bench/workload.go). */
module Series {
  import opened Common

  datatype Label = Label(name: string, value: string)

  datatype LabelDesc = LabelDesc(name: string, valuePrefix: string, uniqueValues: nat)

  datatype SeriesType = GaugeZero | GaugeRandom | CounterOne | CounterRandom | Other(name: string)

  /** The static labels in the order the map iteration happens to give them. */
  datatype SeriesDesc = SeriesDesc(name: string, seriesType: SeriesType, staticLabels: seq<Label>, labels: seq<LabelDesc>)

  type LabelSet = seq<Label>

  datatype Timeseries = Timeseries(labelSets: seq<LabelSet>, lastValue: real, seriesType: SeriesType)

  // ------------------------------------------------- numbers as text

  function Digit(n: nat): char
    requires n < 10
  {
    ('0' as int + n) as char
  }

  function Decimal(n: nat): (s: string)
    ensures |s| >= 1
  {
    if n < 10 then [Digit(n)] else Decimal(n / 10) + [Digit(n % 10)]
  }

  lemma {:induction false} DecimalInjective(m: nat, n: nat)
    requires Decimal(m) == Decimal(n)
    ensures m == n
  {
    var s, t := Decimal(m), Decimal(n);
    assert s[|s| - 1] == Digit(m % 10) && t[|t| - 1] == Digit(n % 10);
    if m >= 10 && n >= 10 {
      assert s[..|s| - 1] == Decimal(m / 10) && t[..|t| - 1] == Decimal(n / 10);
      DecimalInjective(m / 10, n / 10);
    }
  }

  /** At least five digits, with leading zeros. */
  function Padded(n: nat): string {
    var s := Decimal(n);
    if |s| < 5 then seq(5 - |s|, _ => '0') + s else s
  }

  /** The number a text of digits stands for. */
  function NumberOf(s: string): int {
    if s == "" then 0 else 10 * NumberOf(s[..|s| - 1]) + (s[|s| - 1] as int - '0' as int)
  }

  predicate Digits(s: string) {
    forall i :: 0 <= i < |s| ==> '0' <= s[i] <= '9'
  }

  lemma {:induction false} DecimalValue(n: nat)
    ensures NumberOf(Decimal(n)) == n && Digits(Decimal(n)) && (n > 0 ==> Decimal(n)[0] != '0')
  {
    if n < 10 {
      assert Decimal(n)[..0] == "";
    } else {
      DecimalValue(n / 10);
      assert Decimal(n)[..|Decimal(n)| - 1] == Decimal(n / 10);
    }
  }

  lemma {:induction false} ZerosValue(k: nat, s: string)
    ensures NumberOf(seq(k, _ => '0') + s) == NumberOf(s)
  {
    var zeros := seq(k, _ => '0');
    if s != "" {
      ZerosValue(k, s[..|s| - 1]);
      assert (zeros + s)[..|zeros + s| - 1] == zeros + s[..|s| - 1];
    } else if k > 0 {
      ZerosValue(k - 1, "");
      assert zeros + "" == zeros && zeros[..k - 1] == seq(k - 1, _ => '0') && seq(k - 1, _ => '0') + "" == seq(k - 1, _ => '0');
    } else {
      assert zeros + "" == "";
    }
  }

  /** The padded text is the number in decimal, in five digits or as many as it takes. */
  lemma PaddedValue(n: nat)
    ensures NumberOf(Padded(n)) == n && Digits(Padded(n)) && |Padded(n)| >= 5 && (|Padded(n)| > 5 ==> Padded(n)[0] != '0')
  {
    DecimalValue(n);
    var s := Decimal(n);
    if |s| < 5 { ZerosValue(5 - |s|, s); }
  }

  // ------------------------------------------------- label sets

  function LabelOf(lbl: LabelDesc, i: nat): Label {
    Label(lbl.name, lbl.valuePrefix + "-" + Decimal(i))
  }

  function WithLabel(sets: seq<LabelSet>, tag: Label): (r: seq<LabelSet>)
    ensures |r| == |sets|
    ensures forall k :: 0 <= k < |sets| ==> r[k] == sets[k] + [tag]
  {
    if sets == [] then [] else WithLabel(sets[..|sets| - 1], tag) + [sets[|sets| - 1] + [tag]]
  }

  /** Every set with each of the first n values of the label, value by value. */
  function Expand(sets: seq<LabelSet>, lbl: LabelDesc, n: nat): seq<LabelSet> {
    if n == 0 then [] else Expand(sets, lbl, n - 1) + WithLabel(sets, LabelOf(lbl, n - 1))
  }

  method AddLabelToLabelSet(labelSets: seq<LabelSet>, lbl: LabelDesc) returns (newLabelSets: seq<LabelSet>)
    ensures newLabelSets == Expand(labelSets, lbl, lbl.uniqueValues)
  {
    newLabelSets := [];
    for i := 0 to lbl.uniqueValues
      invariant newLabelSets == Expand(labelSets, lbl, i)
    {
      ghost var before := newLabelSets;
      for k := 0 to |labelSets|
        invariant newLabelSets == before + WithLabel(labelSets[..k], LabelOf(lbl, i))
      {
        assert labelSets[..k + 1][..k] == labelSets[..k];
        newLabelSets := newLabelSets + [labelSets[k] + [LabelOf(lbl, i)]];
      }
      assert labelSets[..|labelSets|] == labelSets;
    }
  }

  lemma {:induction false} ExpandLength(sets: seq<LabelSet>, lbl: LabelDesc, n: nat)
    ensures |Expand(sets, lbl, n)| == n * |sets|
  {
    if n > 0 {
      ExpandLength(sets, lbl, n - 1);
      assert n * |sets| == (n - 1) * |sets| + |sets|;
    }
  }

  lemma WithLabelMembers(sets: seq<LabelSet>, tag: Label, x: LabelSet)
    ensures x in WithLabel(sets, tag) <==> x != [] && x[..|x| - 1] in sets && x[|x| - 1] == tag
  {
    var r := WithLabel(sets, tag);
    if x in r {
      var k :| 0 <= k < |sets| && r[k] == x;
      assert x[..|x| - 1] == sets[k];
    }
    if x != [] && x[..|x| - 1] in sets && x[|x| - 1] == tag {
      var k :| 0 <= k < |sets| && sets[k] == x[..|x| - 1];
      assert r[k] == x;
    }
  }

  /** A set is in the expansion exactly if it is one of the sets with one of the values. */
  lemma {:induction false} ExpandMembers(sets: seq<LabelSet>, lbl: LabelDesc, n: nat, x: LabelSet)
    ensures x in Expand(sets, lbl, n) <==> x != [] && x[..|x| - 1] in sets && IsValue(lbl, n, x[|x| - 1])
  {
    if n > 0 {
      ExpandMembers(sets, lbl, n - 1, x);
      WithLabelMembers(sets, LabelOf(lbl, n - 1), x);
    }
  }

  predicate IsValue(lbl: LabelDesc, n: nat, tag: Label) {
    exists i: nat :: i < n && tag == Label(lbl.name, lbl.valuePrefix + "-" + Decimal(i))
  }

  lemma LabelsDiffer(lbl: LabelDesc, i: nat, j: nat)
    requires LabelOf(lbl, i) == LabelOf(lbl, j)
    ensures i == j
  {
    var p := lbl.valuePrefix + "-";
    assert (p + Decimal(i))[|p|..] == Decimal(i) && (p + Decimal(j))[|p|..] == Decimal(j);
    DecimalInjective(i, j);
  }

  /** Different sets stay different, and the values make more of them. */
  lemma {:induction false} ExpandNoDup(sets: seq<LabelSet>, lbl: LabelDesc, n: nat)
    requires NoDup(sets)
    ensures NoDup(Expand(sets, lbl, n))
  {
    if n > 0 {
      ExpandNoDup(sets, lbl, n - 1);
      var a, b := Expand(sets, lbl, n - 1), WithLabel(sets, LabelOf(lbl, n - 1));
      forall x | x in a ensures x !in b {
        ExpandMembers(sets, lbl, n - 1, x);
        var i: nat :| i < n - 1 && x[|x| - 1] == Label(lbl.name, lbl.valuePrefix + "-" + Decimal(i));
        if x in b { LabelsDiffer(lbl, i, n - 1); }
      }
      WithLabelNoDup(sets, LabelOf(lbl, n - 1));
      NoDupConcat(a, b);
    }
  }

  lemma WithLabelNoDup(sets: seq<LabelSet>, tag: Label)
    requires NoDup(sets)
    ensures NoDup(WithLabel(sets, tag))
  {
    var r := WithLabel(sets, tag);
    forall i, j | 0 <= i < j < |r| ensures r[i] != r[j] {
      assert r[i][..|r[i]| - 1] == sets[i] && r[j][..|r[j]| - 1] == sets[j];
    }
  }

  // ------------------------------------------------- series

  function NameSet(desc: SeriesDesc): LabelSet {
    [Label("__name__", desc.name)] + desc.staticLabels
  }

  function ExpandAll(sets: seq<LabelSet>, labels: seq<LabelDesc>): seq<LabelSet> {
    if labels == [] then sets
    else
      var lbl := labels[|labels| - 1];
      Expand(ExpandAll(sets, labels[..|labels| - 1]), lbl, lbl.uniqueValues)
  }

  function Product(labels: seq<LabelDesc>): nat {
    if labels == [] then 1 else Product(labels[..|labels| - 1]) * labels[|labels| - 1].uniqueValues
  }

  lemma {:induction false} ExpandAllLength(sets: seq<LabelSet>, labels: seq<LabelDesc>)
    ensures |ExpandAll(sets, labels)| == |sets| * Product(labels)
  {
    if labels != [] {
      var prefix, n := labels[..|labels| - 1], labels[|labels| - 1].uniqueValues;
      ExpandAllLength(sets, prefix);
      ExpandLength(ExpandAll(sets, prefix), labels[|labels| - 1], n);
      Regroup(|sets|, Product(prefix), n);
    }
  }

  lemma Regroup(a: nat, b: nat, c: nat)
    ensures c * (a * b) == a * (b * c)
  {
  }

  lemma {:induction false} ExpandAllNoDup(sets: seq<LabelSet>, labels: seq<LabelDesc>)
    requires NoDup(sets)
    ensures NoDup(ExpandAll(sets, labels))
  {
    if labels != [] {
      ExpandAllNoDup(sets, labels[..|labels| - 1]);
      ExpandNoDup(ExpandAll(sets, labels[..|labels| - 1]), labels[|labels| - 1], labels[|labels| - 1].uniqueValues);
    }
  }

  function SeriesOf(desc: SeriesDesc): Timeseries {
    Timeseries(ExpandAll([NameSet(desc)], desc.labels), 0.0, desc.seriesType)
  }

  /** A series has as many label sets as its labels have combinations of values, all different. */
  lemma SeriesSize(desc: SeriesDesc)
    ensures |SeriesOf(desc).labelSets| == Product(desc.labels) && NoDup(SeriesOf(desc).labelSets)
  {
    ExpandAllLength([NameSet(desc)], desc.labels);
    ExpandAllNoDup([NameSet(desc)], desc.labels);
  }

  /** The set is the metric's name, the static labels and one value of each of the first n labels, in that order. */
  ghost predicate SetOf(desc: SeriesDesc, n: nat, x: LabelSet) {
    var m := 1 + |desc.staticLabels|;
    && n <= |desc.labels| && |x| == m + n && x[0] == Label("__name__", desc.name) && x[1..m] == desc.staticLabels
    && forall i :: 0 <= i < n ==> IsValue(desc.labels[i], desc.labels[i].uniqueValues, x[m + i])
  }

  lemma {:induction false} ExpandedSets(desc: SeriesDesc, n: nat, x: LabelSet)
    requires n <= |desc.labels|
    ensures x in ExpandAll([NameSet(desc)], desc.labels[..n]) <==> SetOf(desc, n, x)
  {
    if n == 0 {
      assert desc.labels[..0] == [];
      if SetOf(desc, 0, x) { assert x == [x[0]] + x[1..1 + |desc.staticLabels|]; }
    } else {
      var lbl := desc.labels[n - 1];
      assert desc.labels[..n][..n - 1] == desc.labels[..n - 1] && desc.labels[..n][n - 1] == lbl;
      ExpandMembers(ExpandAll([NameSet(desc)], desc.labels[..n - 1]), lbl, lbl.uniqueValues, x);
      if x != [] {
        ExpandedSets(desc, n - 1, x[..|x| - 1]);
        SetMore(desc, n, x);
      }
    }
  }

  lemma SetMore(desc: SeriesDesc, n: nat, x: LabelSet)
    requires 0 < n <= |desc.labels| && x != []
    ensures SetOf(desc, n, x) <==>
            SetOf(desc, n - 1, x[..|x| - 1]) && IsValue(desc.labels[n - 1], desc.labels[n - 1].uniqueValues, x[|x| - 1])
  {
    var m, y := 1 + |desc.staticLabels|, x[..|x| - 1];
    if |x| == m + n {
      assert y[1..m] == x[1..m] && y[0] == x[0];
      assert forall i :: 0 <= i < |y| ==> y[i] == x[i];
    }
  }

  /** A series has exactly the label sets that start with the metric's name and the static labels and go on with one
      value of each of its labels. */
  lemma SeriesLabels(desc: SeriesDesc, x: LabelSet)
    ensures x in SeriesOf(desc).labelSets <==> SetOf(desc, |desc.labels|, x)
  {
    assert desc.labels[..|desc.labels|] == desc.labels;
    ExpandedSets(desc, |desc.labels|, x);
  }

  /** How many label sets the series of one type have. */
  function TypeTotal(descs: seq<SeriesDesc>, t: SeriesType): nat {
    if descs == [] then 0
    else TypeTotal(descs[..|descs| - 1], t) + if descs[|descs| - 1].seriesType == t then Product(descs[|descs| - 1].labels) else 0
  }

  method LabelSetsOf(desc: SeriesDesc) returns (labelSets: seq<LabelSet>)
    ensures labelSets == SeriesOf(desc).labelSets
  {
    var nameSet := [Label("__name__", desc.name)];
    for k := 0 to |desc.staticLabels|
      invariant nameSet == [Label("__name__", desc.name)] + desc.staticLabels[..k]
    {
      nameSet := nameSet + [desc.staticLabels[k]];
    }
    assert desc.staticLabels[..|desc.staticLabels|] == desc.staticLabels;
    labelSets := [nameSet];
    assert desc.labels[..0] == [];
    for k := 0 to |desc.labels|
      invariant labelSets == ExpandAll([NameSet(desc)], desc.labels[..k])
    {
      assert desc.labels[..k + 1][..k] == desc.labels[..k];
      labelSets := AddLabelToLabelSet(labelSets, desc.labels[k]);
    }
    assert desc.labels[..|desc.labels|] == desc.labels;
  }

  ghost predicate Totals(descs: seq<SeriesDesc>, totals: map<SeriesType, nat>) {
    forall t :: TypeTotal(descs, t) == if t in totals then totals[t] else 0
  }

  method SeriesDescToSeries(descs: seq<SeriesDesc>) returns (series: seq<Timeseries>, totals: map<SeriesType, nat>)
    ensures |series| == |descs| && forall i :: 0 <= i < |descs| ==> series[i] == SeriesOf(descs[i])
    ensures Totals(descs, totals)
  {
    series := [];
    totals := map[GaugeZero := 0, GaugeRandom := 0, CounterOne := 0, CounterRandom := 0];
    for i := 0 to |descs|
      invariant |series| == i && forall k :: 0 <= k < i ==> series[k] == SeriesOf(descs[k])
      invariant Totals(descs[..i], totals)
    {
      var labelSets := LabelSetsOf(descs[i]);
      series := series + [Timeseries(labelSets, 0.0, descs[i].seriesType)];
      SeriesSize(descs[i]);
      assert descs[..i + 1][..i] == descs[..i];
      var total := if descs[i].seriesType in totals then totals[descs[i].seriesType] else 0;
      totals := totals[descs[i].seriesType := total + |labelSets|];
    }
    assert descs[..|descs|] == descs;
  }
}
