/** One tick of a benchmark write workload, generated flat and in batches (internal/bench/workload.go). */
module Workload {
  import opened Common
  import opened Series

  /** One draw from the random source: as a float in [0, 1) and as a non-negative integer. */
  datatype Draw = Draw(float: real, whole: nat)

  type Random = nat -> Draw

  /** One time series with its one sample. */
  datatype Sample = Sample(labels: seq<Label>, timestamp: int, value: real)

  /** What generation changes: the series' last values and how many numbers were drawn. */
  datatype Gen = Gen(series: seq<Timeseries>, drawn: nat)

  /** When and for whom. */
  datatype Tick = Tick(id: string, now: int)

  // ------------------------------------------------- what a tick generates

  function Draws(t: SeriesType): nat {
    if t.GaugeRandom? || t.CounterRandom? then 1 else 0
  }

  function NewValue(ts: Timeseries, draw: Draw): Option<real> {
    match ts.seriesType
    case GaugeZero => Some(0.0)
    case GaugeRandom => Some(draw.float)
    case CounterOne => Some(ts.lastValue + 1.0)
    case CounterRandom => Some(ts.lastValue + draw.whole as real)
    case Other(_) => None
  }

  /** The j-th series takes its next value; none for an unknown type. */
  function Advance(rng: Random, g: Gen, j: nat): (r: Option<Gen>)
    requires j < |g.series|
    ensures r.Some? ==> |r.value.series| == |g.series|
  {
    var ts := g.series[j];
    var value := NewValue(ts, rng(g.drawn));
    if value.None? then None
    else Some(Gen(g.series[j := ts.(lastValue := value.value)], g.drawn + Draws(ts.seriesType)))
  }

  function SampleOf(set_: LabelSet, replica: nat, tick: Tick, value: real): Sample {
    Sample(set_ + [Label("bench_replica", "replica-" + Padded(replica)), Label("bench_id", tick.id)], tick.now, value)
  }

  /** One sample for each of the label sets. */
  function Samples(sets: seq<LabelSet>, replica: nat, tick: Tick, value: real): (r: seq<Sample>)
    ensures |r| == |sets|
  {
    if sets == [] then []
    else Samples(sets[..|sets| - 1], replica, tick, value) + [SampleOf(sets[|sets| - 1], replica, tick, value)]
  }

  /** What was generated, up to the first series of unknown type if there is one. */
  datatype Output = Output(samples: seq<Sample>, gen: Gen, ok: bool)

  /** The first n series of one replica. */
  function Replica(rng: Random, g: Gen, replica: nat, tick: Tick, n: nat): (r: Output)
    requires n <= |g.series|
    ensures |r.gen.series| == |g.series|
  {
    if n == 0 then Output([], g, true)
    else
      var before := Replica(rng, g, replica, tick, n - 1);
      if !before.ok then before
      else
        var after := Advance(rng, before.gen, n - 1);
        if after.None? then before.(ok := false)
        else
          var ts := after.value.series[n - 1];
          Output(before.samples + Samples(ts.labelSets, replica, tick, ts.lastValue), after.value, true)
  }

  /** The first n replicas. */
  function Flat(rng: Random, g: Gen, tick: Tick, n: nat): (r: Output)
    ensures |r.gen.series| == |g.series|
  {
    if n == 0 then Output([], g, true)
    else
      var before := Flat(rng, g, tick, n - 1);
      if !before.ok then before
      else
        var last := Replica(rng, before.gen, n - 1, tick, |g.series|);
        Output(before.samples + last.samples, last.gen, last.ok)
  }

  // ------------------------------------------------- how much that is

  function SetSum(series: seq<Timeseries>): nat {
    if series == [] then 0 else SetSum(series[..|series| - 1]) + |series[|series| - 1].labelSets|
  }

  predicate SameSets(a: seq<Timeseries>, b: seq<Timeseries>) {
    |a| == |b| && forall i :: 0 <= i < |a| ==> a[i].labelSets == b[i].labelSets && a[i].seriesType == b[i].seriesType
  }

  lemma {:induction false} SameSum(a: seq<Timeseries>, b: seq<Timeseries>)
    requires SameSets(a, b)
    ensures SetSum(a) == SetSum(b)
  {
    if a != [] { SameSum(a[..|a| - 1], b[..|b| - 1]); }
  }

  predicate Known(series: seq<Timeseries>, n: nat) {
    n <= |series| && forall i :: 0 <= i < n ==> !series[i].seriesType.Other?
  }

  lemma Advances(rng: Random, g: Gen, j: nat)
    requires j < |g.series|
    ensures Advance(rng, g, j).Some? <==> !g.series[j].seriesType.Other?
    ensures Advance(rng, g, j).Some? ==> SameSets(g.series, Advance(rng, g, j).value.series)
  {
  }

  lemma {:induction false} ReplicaSets(rng: Random, g: Gen, replica: nat, tick: Tick, n: nat)
    requires n <= |g.series|
    ensures SameSets(g.series, Replica(rng, g, replica, tick, n).gen.series)
    ensures Replica(rng, g, replica, tick, n).ok <==> Known(g.series, n)
  {
    if n > 0 {
      ReplicaSets(rng, g, replica, tick, n - 1);
      var before := Replica(rng, g, replica, tick, n - 1).gen;
      Advances(rng, before, n - 1);
      if Advance(rng, before, n - 1).Some? { SameTrans(g.series, before.series, Advance(rng, before, n - 1).value.series); }
    }
  }

  lemma SameTrans(a: seq<Timeseries>, b: seq<Timeseries>, c: seq<Timeseries>)
    requires SameSets(a, b) && SameSets(b, c)
    ensures SameSets(a, c)
  {
  }

  lemma SetSumLast(series: seq<Timeseries>, n: nat)
    requires 0 < n <= |series|
    ensures SetSum(series[..n]) == SetSum(series[..n - 1]) + |series[n - 1].labelSets|
  {
    assert series[..n][..n - 1] == series[..n - 1];
  }

  lemma {:induction false} ReplicaSize(rng: Random, g: Gen, replica: nat, tick: Tick, n: nat)
    requires n <= |g.series| && Replica(rng, g, replica, tick, n).ok
    ensures |Replica(rng, g, replica, tick, n).samples| == SetSum(g.series[..n])
  {
    if n > 0 {
      ReplicaSize(rng, g, replica, tick, n - 1);
      SetSumLast(g.series, n);
      ReplicaSets(rng, g, replica, tick, n);
    }
  }

  lemma ReplicaWhole(rng: Random, g: Gen, replica: nat, tick: Tick)
    requires Replica(rng, g, replica, tick, |g.series|).ok
    ensures |Replica(rng, g, replica, tick, |g.series|).samples| == SetSum(g.series)
  {
    ReplicaSize(rng, g, replica, tick, |g.series|);
    assert g.series[..|g.series|] == g.series;
  }

  lemma {:induction false} FlatSets(rng: Random, g: Gen, tick: Tick, n: nat)
    ensures SameSets(g.series, Flat(rng, g, tick, n).gen.series)
    ensures Flat(rng, g, tick, n).ok <==> n == 0 || Known(g.series, |g.series|)
  {
    if n > 0 {
      FlatSets(rng, g, tick, n - 1);
      ReplicaSets(rng, Flat(rng, g, tick, n - 1).gen, n - 1, tick, |g.series|);
    }
  }

  lemma OneMore(n: nat, k: nat)
    requires n > 0
    ensures n * k == (n - 1) * k + k
  {
  }

  /** A tick succeeds exactly if there is no series of unknown type or no replica, and then generates a sample
      for each replica and label set. */
  lemma {:induction false} FlatSize(rng: Random, g: Gen, tick: Tick, n: nat)
    ensures Flat(rng, g, tick, n).ok <==> n == 0 || Known(g.series, |g.series|)
    ensures Flat(rng, g, tick, n).ok ==> |Flat(rng, g, tick, n).samples| == n * SetSum(g.series)
  {
    FlatSets(rng, g, tick, n);
    if n > 0 && Flat(rng, g, tick, n).ok {
      FlatSize(rng, g, tick, n - 1);
      FlatSets(rng, g, tick, n - 1);
      var before := Flat(rng, g, tick, n - 1).gen;
      ReplicaWhole(rng, before, n - 1, tick);
      SameSum(g.series, before.series);
      OneMore(n, SetSum(g.series));
    }
  }

  /** For series made from their descriptions, that is the number of replicas times the sum of the products of
      the labels' numbers of values. */
  lemma {:induction false} DescribedSum(descs: seq<SeriesDesc>, series: seq<Timeseries>)
    requires |series| == |descs| && forall i :: 0 <= i < |descs| ==> series[i].labelSets == SeriesOf(descs[i]).labelSets
    ensures SetSum(series) == ProductSum(descs)
  {
    if descs != [] {
      var n := |descs| - 1;
      DescribedSum(descs[..n], series[..n]);
      SeriesSize(descs[n]);
    }
  }

  function ProductSum(descs: seq<SeriesDesc>): nat {
    if descs == [] then 0 else ProductSum(descs[..|descs| - 1]) + Product(descs[|descs| - 1].labels)
  }

  // ------------------------------------------------- what is in it

  /** Some label set of the first n series, with the labels of the replica and the benchmark. */
  ghost predicate LabelsOf(series: seq<Timeseries>, n: nat, replica: nat, tick: Tick, labels: seq<Label>) {
    exists j, k :: 0 <= j < n <= |series| && 0 <= k < |series[j].labelSets| && labels == Labelled(series, j, k, replica, tick)
  }

  function Labelled(series: seq<Timeseries>, j: nat, k: nat, replica: nat, tick: Tick): seq<Label>
    requires j < |series| && k < |series[j].labelSets|
  {
    SampleOf(series[j].labelSets[k], replica, tick, 0.0).labels
  }

  ghost predicate HasLabels(samples: seq<Sample>, labels: seq<Label>) {
    exists i :: 0 <= i < |samples| && samples[i].labels == labels
  }

  lemma HasConcat(a: seq<Sample>, b: seq<Sample>, labels: seq<Label>)
    ensures HasLabels(a + b, labels) <==> HasLabels(a, labels) || HasLabels(b, labels)
  {
    if i :| 0 <= i < |a| && a[i].labels == labels { assert (a + b)[i].labels == labels; }
    if i :| 0 <= i < |b| && b[i].labels == labels { assert (a + b)[|a| + i].labels == labels; }
  }

  lemma {:induction false} SamplesAt(sets: seq<LabelSet>, replica: nat, tick: Tick, value: real, k: nat)
    requires k < |sets|
    ensures Samples(sets, replica, tick, value)[k] == SampleOf(sets[k], replica, tick, value)
  {
    if k < |sets| - 1 { SamplesAt(sets[..|sets| - 1], replica, tick, value, k); }
  }

  lemma SamplesLabels(series: seq<Timeseries>, n: nat, replica: nat, tick: Tick, value: real, labels: seq<Label>)
    requires 0 < n <= |series|
    ensures LabelsOf(series, n, replica, tick, labels) <==>
            LabelsOf(series, n - 1, replica, tick, labels)
            || HasLabels(Samples(series[n - 1].labelSets, replica, tick, value), labels)
  {
    var sets := series[n - 1].labelSets;
    var samples := Samples(sets, replica, tick, value);
    forall k | 0 <= k < |sets| ensures samples[k].labels == Labelled(series, n - 1, k, replica, tick) {
      SamplesAt(sets, replica, tick, value, k);
    }
    if j, k :| 0 <= j < n <= |series| && 0 <= k < |series[j].labelSets| && labels == Labelled(series, j, k, replica, tick) {
      if j == n - 1 { assert samples[k].labels == labels; }
    }
    if k :| 0 <= k < |samples| && samples[k].labels == labels {
      assert labels == Labelled(series, n - 1, k, replica, tick);
    }
    if j, k :| 0 <= j < n - 1 <= |series| && 0 <= k < |series[j].labelSets| && labels == Labelled(series, j, k, replica, tick) {
      assert labels == Labelled(series, j, k, replica, tick);
    }
  }

  lemma SameLabels(a: seq<Timeseries>, b: seq<Timeseries>, n: nat, replica: nat, tick: Tick, labels: seq<Label>)
    requires SameSets(a, b) && n <= |a|
    ensures LabelsOf(a, n, replica, tick, labels) <==> LabelsOf(b, n, replica, tick, labels)
  {
    if j, k :| 0 <= j < n <= |a| && 0 <= k < |a[j].labelSets| && labels == Labelled(a, j, k, replica, tick) {
      assert labels == Labelled(b, j, k, replica, tick);
    }
    if j, k :| 0 <= j < n <= |b| && 0 <= k < |b[j].labelSets| && labels == Labelled(b, j, k, replica, tick) {
      assert labels == Labelled(a, j, k, replica, tick);
    }
  }

  lemma {:induction false} ReplicaLabels(rng: Random, g: Gen, replica: nat, tick: Tick, n: nat, labels: seq<Label>)
    requires n <= |g.series| && Replica(rng, g, replica, tick, n).ok
    ensures HasLabels(Replica(rng, g, replica, tick, n).samples, labels) <==> LabelsOf(g.series, n, replica, tick, labels)
  {
    if n > 0 {
      ReplicaLabels(rng, g, replica, tick, n - 1, labels);
      var before, after := Replica(rng, g, replica, tick, n - 1), Replica(rng, g, replica, tick, n);
      var ts := after.gen.series[n - 1];
      ReplicaSets(rng, g, replica, tick, n);
      HasConcat(before.samples, Samples(ts.labelSets, replica, tick, ts.lastValue), labels);
      SamplesLabels(g.series, n, replica, tick, ts.lastValue, labels);
    }
  }

  /** The labels of some series in one of the first n replicas. */
  ghost predicate InReplicas(series: seq<Timeseries>, n: nat, tick: Tick, labels: seq<Label>) {
    exists replica :: 0 <= replica < n && LabelsOf(series, |series|, replica, tick, labels)
  }

  lemma FlatStep(rng: Random, g: Gen, tick: Tick, n: nat, labels: seq<Label>)
    requires n > 0 && Flat(rng, g, tick, n).ok
    ensures HasLabels(Flat(rng, g, tick, n).samples, labels) <==>
            HasLabels(Flat(rng, g, tick, n - 1).samples, labels) || LabelsOf(g.series, |g.series|, n - 1, tick, labels)
  {
    var before := Flat(rng, g, tick, n - 1);
    FlatSets(rng, g, tick, n - 1);
    ReplicaLabels(rng, before.gen, n - 1, tick, |g.series|, labels);
    SameLabels(g.series, before.gen.series, |g.series|, n - 1, tick, labels);
    HasConcat(before.samples, Replica(rng, before.gen, n - 1, tick, |g.series|).samples, labels);
  }

  /** A tick's samples carry exactly the label sets of all series, for each replica. */
  lemma {:induction false} FlatLabels(rng: Random, g: Gen, tick: Tick, n: nat, labels: seq<Label>)
    requires Flat(rng, g, tick, n).ok
    ensures HasLabels(Flat(rng, g, tick, n).samples, labels) <==> InReplicas(g.series, n, tick, labels)
  {
    if n == 0 {
      assert Flat(rng, g, tick, 0).samples == [];
    } else {
      assert Flat(rng, g, tick, n - 1).ok;
      FlatLabels(rng, g, tick, n - 1, labels);
      FlatStep(rng, g, tick, n, labels);
      InReplicasMore(g.series, n, tick, labels);
    }
  }

  lemma InReplicasMore(series: seq<Timeseries>, n: nat, tick: Tick, labels: seq<Label>)
    requires n > 0
    ensures InReplicas(series, n, tick, labels) <==>
            InReplicas(series, n - 1, tick, labels) || LabelsOf(series, |series|, n - 1, tick, labels)
  {
  }

  lemma {:induction false} ReplicaCounts(rng: Random, g: Gen, replica: nat, tick: Tick, n: nat, j: nat)
    requires n <= |g.series| && j < |g.series| && Replica(rng, g, replica, tick, n).ok && g.series[j].seriesType == CounterOne
    ensures Replica(rng, g, replica, tick, n).gen.series[j].lastValue == g.series[j].lastValue + if j < n then 1.0 else 0.0
  {
    if n > 0 {
      ReplicaCounts(rng, g, replica, tick, n - 1, j);
      ReplicaSets(rng, g, replica, tick, n - 1);
    }
  }

  /** A counter has risen by one for each replica. */
  lemma {:induction false} FlatCounts(rng: Random, g: Gen, tick: Tick, n: nat, j: nat)
    requires j < |g.series| && Flat(rng, g, tick, n).ok && g.series[j].seriesType == CounterOne
    ensures Flat(rng, g, tick, n).gen.series[j].lastValue == g.series[j].lastValue + n as real
  {
    if n > 0 {
      FlatCounts(rng, g, tick, n - 1, j);
      FlatSets(rng, g, tick, n - 1);
      ReplicaCounts(rng, Flat(rng, g, tick, n - 1).gen, n - 1, tick, |g.series|, j);
    }
  }

  // ------------------------------------------------- which sample is where

  lemma SameSumUpTo(a: seq<Timeseries>, b: seq<Timeseries>, n: nat)
    requires SameSets(a, b) && n <= |a|
    ensures SetSum(a[..n]) == SetSum(b[..n])
  {
    SameSum(a[..n], b[..n]);
  }

  /** A further series adds samples and leaves the series before it. */
  lemma ReplicaGrows(rng: Random, g: Gen, replica: nat, tick: Tick, n: nat)
    requires 0 < n <= |g.series| && Replica(rng, g, replica, tick, n).ok
    ensures var before, out := Replica(rng, g, replica, tick, n - 1), Replica(rng, g, replica, tick, n);
            && before.ok
            && out.samples == before.samples
                 + Samples(out.gen.series[n - 1].labelSets, replica, tick, out.gen.series[n - 1].lastValue)
            && forall j :: 0 <= j < n - 1 ==> out.gen.series[j] == before.gen.series[j]
  {
  }

  lemma LastSeries(rng: Random, g: Gen, replica: nat, tick: Tick, n: nat, k: nat)
    requires 0 < n <= |g.series| && Replica(rng, g, replica, tick, n).ok && k < |g.series[n - 1].labelSets|
    ensures var out := Replica(rng, g, replica, tick, n);
            && SetSum(g.series[..n - 1]) + k < |out.samples|
            && out.samples[SetSum(g.series[..n - 1]) + k]
               == SampleOf(g.series[n - 1].labelSets[k], replica, tick, out.gen.series[n - 1].lastValue)
  {
    ReplicaGrows(rng, g, replica, tick, n);
    ReplicaSets(rng, g, replica, tick, n);
    ReplicaSize(rng, g, replica, tick, n - 1);
    var ts := Replica(rng, g, replica, tick, n).gen.series[n - 1];
    SamplesAt(ts.labelSets, replica, tick, ts.lastValue, k);
    ConcatAt(Replica(rng, g, replica, tick, n - 1).samples, Samples(ts.labelSets, replica, tick, ts.lastValue), k);
  }

  lemma ConcatAt<T>(a: seq<T>, b: seq<T>, i: nat)
    requires i < |b|
    ensures (a + b)[|a| + i] == b[i]
  {
  }

  /** In one replica, the samples of a series come after those of the series before it, label set by label set, with
      the value the series has afterwards. */
  lemma {:induction false} ReplicaSampleAt(rng: Random, g: Gen, replica: nat, tick: Tick, n: nat, j: nat, k: nat)
    requires j < n <= |g.series| && Replica(rng, g, replica, tick, n).ok && k < |g.series[j].labelSets|
    ensures var out := Replica(rng, g, replica, tick, n);
            && SetSum(g.series[..j]) + k < |out.samples|
            && out.samples[SetSum(g.series[..j]) + k]
               == SampleOf(g.series[j].labelSets[k], replica, tick, out.gen.series[j].lastValue)
  {
    if j < n - 1 {
      ReplicaGrows(rng, g, replica, tick, n);
      ReplicaSampleAt(rng, g, replica, tick, n - 1, j, k);
    } else {
      LastSeries(rng, g, replica, tick, n, k);
    }
  }

  /** Where the sample of a replica, a series and one of its label sets is. */
  function IndexOf(series: seq<Timeseries>, r: nat, j: nat, k: nat): nat
    requires j < |series|
  {
    r * SetSum(series) + SetSum(series[..j]) + k
  }

  lemma LastReplica(rng: Random, g: Gen, tick: Tick, r: nat, j: nat, k: nat)
    requires Flat(rng, g, tick, r + 1).ok && j < |g.series| && k < |g.series[j].labelSets|
    ensures var out, at := Flat(rng, g, tick, r + 1), |Flat(rng, g, tick, r).samples| + (SetSum(g.series[..j]) + k);
            && at < |out.samples|
            && out.samples[at] == SampleOf(g.series[j].labelSets[k], r, tick, out.gen.series[j].lastValue)
  {
    var before := Flat(rng, g, tick, r);
    FlatSets(rng, g, tick, r);
    var last := Replica(rng, before.gen, r, tick, |g.series|);
    SameSumUpTo(g.series, before.gen.series, j);
    ReplicaSampleAt(rng, before.gen, r, tick, |g.series|, j, k);
    ConcatAt(before.samples, last.samples, SetSum(g.series[..j]) + k);
  }

  lemma {:induction false} EarlierReplica(rng: Random, g: Gen, tick: Tick, n: nat, m: nat, at: nat)
    requires m <= n && Flat(rng, g, tick, n).ok && at < |Flat(rng, g, tick, m).samples|
    ensures at < |Flat(rng, g, tick, n).samples| && Flat(rng, g, tick, n).samples[at] == Flat(rng, g, tick, m).samples[at]
  {
    if m < n { EarlierReplica(rng, g, tick, n - 1, m, at); }
  }

  lemma {:induction false} EarlierOk(rng: Random, g: Gen, tick: Tick, n: nat, m: nat)
    requires m <= n && Flat(rng, g, tick, n).ok
    ensures Flat(rng, g, tick, m).ok
  {
    if m < n { EarlierOk(rng, g, tick, n - 1, m); }
  }

  /** The whole tick, sample by sample: replica after replica, series after series, label set after label set, each
      sample has the tick's time, the label set with the two labels of the replica and the benchmark, and the value
      its series took in that replica. */
  lemma FlatSampleAt(rng: Random, g: Gen, tick: Tick, n: nat, r: nat, j: nat, k: nat)
    requires Flat(rng, g, tick, n).ok && r < n && j < |g.series| && k < |g.series[j].labelSets|
    ensures var samples, at := Flat(rng, g, tick, n).samples, IndexOf(g.series, r, j, k);
            && at < |samples| && samples[at].timestamp == tick.now
            && samples[at].labels
               == g.series[j].labelSets[k] + [Label("bench_replica", "replica-" + Padded(r)), Label("bench_id", tick.id)]
            && samples[at].value == Flat(rng, g, tick, r + 1).gen.series[j].lastValue
  {
    EarlierOk(rng, g, tick, n, r + 1);
    EarlierOk(rng, g, tick, n, r);
    FlatSize(rng, g, tick, r);
    LastReplica(rng, g, tick, r, j, k);
    EarlierReplica(rng, g, tick, n, r + 1, IndexOf(g.series, r, j, k));
  }

  /** And there are no others: every index is that of some replica, series and label set. */
  lemma EveryIndex(series: seq<Timeseries>, n: nat, at: nat) returns (r: nat, j: nat, k: nat)
    requires at < n * SetSum(series)
    ensures r < n && j < |series| && k < |series[j].labelSets| && at == IndexOf(series, r, j, k)
  {
    var size := SetSum(series);
    r := FindReplica(n, size, at);
    assert series[..|series|] == series;
    j, k := FindSeries(series, |series|, at - r * size);
  }

  lemma {:induction false} FindReplica(n: nat, size: nat, at: nat) returns (r: nat)
    requires at < n * size
    ensures r < n && r * size <= at < r * size + size
  {
    OneMore(n, size);
    if (n - 1) * size <= at { r := n - 1; } else { r := FindReplica(n - 1, size, at); }
  }

  lemma {:induction false} FindSeries(series: seq<Timeseries>, n: nat, at: nat) returns (j: nat, k: nat)
    requires n <= |series| && at < SetSum(series[..n])
    ensures j < n && k < |series[j].labelSets| && at == SetSum(series[..j]) + k
  {
    SetSumLast(series, n);
    if at >= SetSum(series[..n - 1]) {
      j, k := n - 1, at - SetSum(series[..n - 1]);
    } else {
      j, k := FindSeries(series, n - 1, at);
    }
  }

  /** So a sample of a counter of step one says how often it was counted, and one of a zero gauge is zero. */
  lemma FlatValues(rng: Random, g: Gen, tick: Tick, n: nat, r: nat, j: nat, k: nat)
    requires Flat(rng, g, tick, n).ok && r < n && j < |g.series| && k < |g.series[j].labelSets|
    ensures var samples, at := Flat(rng, g, tick, n).samples, IndexOf(g.series, r, j, k);
            && at < |samples|
            && (g.series[j].seriesType == CounterOne ==> samples[at].value == g.series[j].lastValue + (r + 1) as real)
            && (g.series[j].seriesType == GaugeZero ==> samples[at].value == 0.0)
  {
    FlatSampleAt(rng, g, tick, n, r, j, k);
    FlatSets(rng, g, tick, n);
    FlatSets(rng, g, tick, r + 1);
    if g.series[j].seriesType == CounterOne { FlatCounts(rng, g, tick, r + 1, j); }
    if g.series[j].seriesType == GaugeZero {
      FlatSets(rng, g, tick, r);
      ReplicaZero(rng, Flat(rng, g, tick, r).gen, r, tick, |g.series|, j);
    }
  }

  /** In each replica a random gauge takes, and a random counter adds, a number drawn in that replica. */
  lemma {:induction false} ReplicaDraws(rng: Random, g: Gen, replica: nat, tick: Tick, n: nat, j: nat) returns (m: nat)
    requires j < n <= |g.series| && Replica(rng, g, replica, tick, n).ok
    requires g.series[j].seriesType == GaugeRandom || g.series[j].seriesType == CounterRandom
    ensures var out := Replica(rng, g, replica, tick, n);
            && g.drawn <= m < out.gen.drawn
            && out.gen.series[j].lastValue == if g.series[j].seriesType == GaugeRandom then rng(m).float
                                              else g.series[j].lastValue + rng(m).whole as real
  {
    var before := Replica(rng, g, replica, tick, n - 1);
    ReplicaSets(rng, g, replica, tick, n - 1);
    ReplicaDrawn(rng, g, replica, tick, n - 1);
    if j < n - 1 {
      m := ReplicaDraws(rng, g, replica, tick, n - 1, j);
    } else {
      ReplicaUntouched(rng, g, replica, tick, n - 1, j);
      m := before.gen.drawn;
    }
  }

  lemma {:induction false} ReplicaDrawn(rng: Random, g: Gen, replica: nat, tick: Tick, n: nat)
    requires n <= |g.series|
    ensures Replica(rng, g, replica, tick, n).gen.drawn >= g.drawn
  {
    if n > 0 { ReplicaDrawn(rng, g, replica, tick, n - 1); }
  }

  lemma {:induction false} ReplicaUntouched(rng: Random, g: Gen, replica: nat, tick: Tick, n: nat, j: nat)
    requires n <= j < |g.series|
    ensures Replica(rng, g, replica, tick, n).gen.series[j] == g.series[j]
  {
    if n > 0 { ReplicaUntouched(rng, g, replica, tick, n - 1, j); }
  }

  lemma {:induction false} ReplicaZero(rng: Random, g: Gen, replica: nat, tick: Tick, n: nat, j: nat)
    requires j < n <= |g.series| && Replica(rng, g, replica, tick, n).ok && g.series[j].seriesType == GaugeZero
    ensures Replica(rng, g, replica, tick, n).gen.series[j].lastValue == 0.0
  {
    ReplicaSets(rng, g, replica, tick, n - 1);
    if j < n - 1 { ReplicaZero(rng, g, replica, tick, n - 1, j); }
  }
}
