/** The write workload's two generators, and why the batched one agrees with the flat one
    (internal/bench/workload.go). */
module WriteBatches {
  import opened Common
  import opened Series
  import opened Workload

  // ------------------------------------------------- batches

  function Concat<T>(batches: seq<seq<T>>): seq<T> {
    if batches == [] then [] else Concat(batches[..|batches| - 1]) + batches[|batches| - 1]
  }

  ghost predicate AllFull<T>(batches: seq<seq<T>>, size: nat) {
    forall i :: 0 <= i < |batches| ==> |batches[i]| == size
  }

  /** Full batches already sent and a buffer being filled, together the items so far. A full buffer is sent only
      when there is another item to put. */
  ghost predicate Underway<T>(batches: seq<seq<T>>, buffer: seq<T>, items: seq<T>, size: nat) {
    && Concat(batches) + buffer == items && AllFull(batches, size)
    && |buffer| <= size && (buffer == [] ==> batches == [])
  }

  /** The items cut into pieces of the size, the last one possibly shorter. */
  function Chop<T>(items: seq<T>, size: nat): seq<seq<T>>
    requires size > 0
  {
    if items == [] then []
    else if |items| <= size then [items]
    else [items[..size]] + Chop(items[size..], size)
  }

  /** The pieces together are the items, all but the last have the size, and none is empty or larger. */
  lemma {:induction false} ChopSizes<T>(items: seq<T>, size: nat, i: nat)
    requires size > 0 && i < |Chop(items, size)|
    ensures 0 < |Chop(items, size)[i]| <= size
    ensures i < |Chop(items, size)| - 1 ==> |Chop(items, size)[i]| == size
  {
    if i > 0 {
      ChopSizes(items[size..], size, i - 1);
    }
  }

  lemma {:induction false} ConcatFirst<T>(first: seq<T>, rest: seq<seq<T>>)
    ensures Concat([first] + rest) == first + Concat(rest)
  {
    var all := [first] + rest;
    if rest == [] {
      assert all[..0] == [];
    } else {
      assert all[..|all| - 1] == [first] + rest[..|rest| - 1];
      ConcatFirst(first, rest[..|rest| - 1]);
    }
  }

  lemma {:induction false} ChopConcat<T>(items: seq<T>, size: nat)
    requires size > 0
    ensures Concat(Chop(items, size)) == items
  {
    if |items| > size {
      ChopConcat(items[size..], size);
      ConcatFirst(items[..size], Chop(items[size..], size));
    } else if items != [] {
      ConcatFirst(items, []);
    }
  }

  /** What is underway, with the buffer sent unless it is empty, is the items chopped. */
  lemma {:induction false} UnderwayChops<T>(batches: seq<seq<T>>, buffer: seq<T>, items: seq<T>, size: nat)
    requires size > 0 && Underway(batches, buffer, items, size)
    ensures (if buffer == [] then batches else batches + [buffer]) == Chop(items, size)
  {
    if batches == [] {
      assert items == buffer && batches + [buffer] == [buffer];
    } else {
      var first, rest := batches[0], batches[1..];
      assert batches == [first] + rest && buffer != [];
      ConcatFirst(first, rest);
      assert items == first + (Concat(rest) + buffer);
      assert items[..size] == first && items[size..] == Concat(rest) + buffer;
      UnderwayChops(rest, buffer, items[size..], size);
      assert batches + [buffer] == [first] + (rest + [buffer]);
    }
  }

  lemma PutOne<T>(batches: seq<seq<T>>, buffer: seq<T>, items: seq<T>, size: nat, x: T)
    requires size > 0 && Underway(batches, buffer, items, size)
    ensures if |buffer| == size then Underway(batches + [buffer], [x], items + [x], size)
            else Underway(batches, buffer + [x], items + [x], size)
  {
    assert (batches + [buffer])[..|batches|] == batches;
  }

  // ------------------------------------------------- the generators

  const DEFAULT_BATCH_SIZE := 500

  class WriteWorkload {
    const rng: Random
    const replicas: nat
    const batchSize: nat
    var series: seq<Timeseries>
    var drawn: nat

    constructor (descs: seq<SeriesDesc>, replicas: nat, batchSize: nat, rng: Random, drawn: nat)
      ensures this.batchSize == (if batchSize == 0 then DEFAULT_BATCH_SIZE else batchSize) && this.batchSize > 0
      ensures this.replicas == replicas && this.rng == rng && this.drawn == drawn
      ensures |series| == |descs| && forall i :: 0 <= i < |descs| ==> series[i] == SeriesOf(descs[i])
    {
      var made, totals := SeriesDescToSeries(descs);
      this.rng, this.replicas, this.drawn := rng, replicas, drawn;
      this.batchSize := if batchSize == 0 then DEFAULT_BATCH_SIZE else batchSize;
      this.series := made;
    }

    function State(): Gen
      reads this
    {
      Gen(series, drawn)
    }

    /** The j-th series takes its next value; none for an unknown type. */
    method NextValue(j: nat) returns (value: Option<real>)
      requires j < |series|
      modifies this
      ensures value.None? ==> Advance(rng, old(State()), j) == None && State() == old(State())
      ensures value.Some? ==> Advance(rng, old(State()), j) == Some(State()) && value.value == series[j].lastValue
    {
      var ts := series[j];
      match ts.seriesType {
        case GaugeZero => value := Some(0.0);
        case GaugeRandom =>
          value := Some(rng(drawn).float);
          drawn := drawn + 1;
        case CounterOne => value := Some(ts.lastValue + 1.0);
        case CounterRandom =>
          value := Some(ts.lastValue + rng(drawn).whole as real);
          drawn := drawn + 1;
        case Other(_) => return None;
      }
      series := series[j := ts.(lastValue := value.value)];
    }

    /** The samples of one series in one replica. */
    method SeriesSamples(sets: seq<LabelSet>, replica: nat, tick: Tick, value: real) returns (samples: seq<Sample>)
      ensures samples == Samples(sets, replica, tick, value)
    {
      samples := [];
      for k := 0 to |sets|
        invariant samples == Samples(sets[..k], replica, tick, value)
      {
        assert sets[..k + 1][..k] == sets[..k];
        samples := samples + [SampleOf(sets[k], replica, tick, value)];
      }
      assert sets[..|sets|] == sets;
    }

    method GenerateReplica(replica: nat, tick: Tick) returns (samples: seq<Sample>, ok: bool)
      modifies this
      ensures Output(samples, State(), ok) == Replica(rng, old(State()), replica, tick, |old(series)|)
    {
      samples := [];
      ghost var start := State();
      for j := 0 to |series|
        invariant |series| == |start.series|
        invariant Replica(rng, start, replica, tick, j) == Output(samples, State(), true)
      {
        ghost var before := State();
        var value := NextValue(j);
        if value.None? {
          ReplicaStops(rng, start, replica, tick, j, before);
          return samples, false;
        }
        ReplicaMore(rng, start, replica, tick, j, before, State());
        var more := SeriesSamples(series[j].labelSets, replica, tick, value.value);
        samples := samples + more;
      }
      ok := true;
    }

    /** The flat generator. Fails, as by a panic, at a series of unknown type. */
    method GenerateTimeSeries(tick: Tick) returns (timeseries: seq<Sample>, ok: bool)
      modifies this
      ensures Output(timeseries, State(), ok) == Flat(rng, old(State()), tick, replicas)
    {
      timeseries := [];
      ghost var start := State();
      for replica := 0 to replicas
        invariant Flat(rng, start, tick, replica) == Output(timeseries, State(), true)
      {
        var samples, done := GenerateReplica(replica, tick);
        timeseries := timeseries + samples;
        if !done {
          FlatFails(rng, start, tick, replica + 1, replicas);
          return timeseries, false;
        }
      }
      ok := true;
    }

    /** The samples of one series put into the buffer, which is sent whenever it is full. */
    method BatchSeries(sets: seq<LabelSet>, replica: nat, tick: Tick, value: real,
                       sent: seq<seq<Sample>>, filled: seq<Sample>, ghost items: seq<Sample>)
      returns (batches: seq<seq<Sample>>, buffer: seq<Sample>)
      requires batchSize > 0 && Underway(sent, filled, items, batchSize)
      ensures Underway(batches, buffer, items + Samples(sets, replica, tick, value), batchSize)
    {
      batches, buffer := sent, filled;
      for k := 0 to |sets|
        invariant Underway(batches, buffer, items + Samples(sets[..k], replica, tick, value), batchSize)
      {
        assert sets[..k + 1][..k] == sets[..k];
        var x := SampleOf(sets[k], replica, tick, value);
        PutOne(batches, buffer, items + Samples(sets[..k], replica, tick, value), batchSize, x);
        if |buffer| == batchSize {
          batches := batches + [buffer];
          buffer := [];
        }
        buffer := buffer + [x];
        assert items + Samples(sets[..k + 1], replica, tick, value) == items + Samples(sets[..k], replica, tick, value) + [x];
      }
      assert sets[..|sets|] == sets;
    }

    method BatchOne(j: nat, replica: nat, tick: Tick, sent: seq<seq<Sample>>, filled: seq<Sample>, ghost items: seq<Sample>)
      returns (batches: seq<seq<Sample>>, buffer: seq<Sample>, ok: bool, ghost more: seq<Sample>)
      requires j < |series| && batchSize > 0 && Underway(sent, filled, items, batchSize)
      modifies this
      ensures !ok ==> Advance(rng, old(State()), j) == None && State() == old(State()) && more == []
      ensures ok ==> Advance(rng, old(State()), j) == Some(State()) && |series| == |old(series)|
                     && more == Samples(series[j].labelSets, replica, tick, series[j].lastValue)
      ensures Underway(batches, buffer, items + more, batchSize)
    {
      var value := NextValue(j);
      if value.None? {
        assert items + [] == items;
        return sent, filled, false, [];
      }
      more := Samples(series[j].labelSets, replica, tick, value.value);
      batches, buffer := BatchSeries(series[j].labelSets, replica, tick, value.value, sent, filled, items);
      ok := true;
    }

    method BatchReplica(replica: nat, tick: Tick, sent: seq<seq<Sample>>, filled: seq<Sample>, ghost items: seq<Sample>)
      returns (batches: seq<seq<Sample>>, buffer: seq<Sample>, ok: bool)
      requires batchSize > 0 && Underway(sent, filled, items, batchSize)
      modifies this
      ensures var out := Replica(rng, old(State()), replica, tick, |old(series)|);
              ok == out.ok && State() == out.gen && Underway(batches, buffer, items + out.samples, batchSize)
    {
      batches, buffer := sent, filled;
      ghost var start := State();
      ghost var samples: seq<Sample> := [];
      ghost var all := items;
      for j := 0 to |series|
        invariant |series| == |start.series| && all == items + samples
        invariant Replica(rng, start, replica, tick, j) == Output(samples, State(), true)
        invariant Underway(batches, buffer, all, batchSize)
      {
        ghost var more, before := [], State();
        batches, buffer, ok, more := BatchOne(j, replica, tick, batches, buffer, all);
        Associates(items, samples, more);
        all, samples := all + more, samples + more;
        if !ok {
          ReplicaStops(rng, start, replica, tick, j, before);
          return;
        }
        ReplicaMore(rng, start, replica, tick, j, before, State());
      }
      ok := true;
    }

    /** One tick of the batched generator: the batches it sends. At a series of unknown type it stops with an
        error, the buffer unsent. */
    method GenerateTick(tick: Tick) returns (batches: seq<seq<Sample>>, ok: bool)
      requires batchSize > 0
      modifies this
      ensures ok == Flat(rng, old(State()), tick, replicas).ok && State() == Flat(rng, old(State()), tick, replicas).gen
      ensures ok ==> batches == Chop(Flat(rng, old(State()), tick, replicas).samples, batchSize)
      ensures !ok ==> exists buffer :: Underway(batches, buffer, Flat(rng, old(State()), tick, replicas).samples, batchSize)
    {
      var buffer: seq<Sample> := [];
      batches := [];
      ghost var start := State();
      for replica := 0 to replicas
        invariant var out := Flat(rng, start, tick, replica);
                  out.ok && State() == out.gen && Underway(batches, buffer, out.samples, batchSize)
      {
        ghost var samples := Flat(rng, start, tick, replica).samples;
        var done;
        batches, buffer, done := BatchReplica(replica, tick, batches, buffer, samples);
        if !done {
          FlatFails(rng, start, tick, replica + 1, replicas);
          return batches, false;
        }
      }
      UnderwayChops(batches, buffer, Flat(rng, start, tick, replicas).samples, batchSize);
      if |buffer| > 0 {
        batches := batches + [buffer];
      }
      ok := true;
    }

    /** The batched generator over all ticks before its context ends, or up to an error: what it sends in each
        tick is what repeated calls of the flat generator return, cut into batches. `rest` are the full batches it
        had sent in the tick of the error. */
    method GenerateWriteBatch(ticks: seq<Tick>) returns (sent: seq<seq<seq<Sample>>>, rest: seq<seq<Sample>>, ok: bool)
      requires batchSize > 0
      modifies this
      ensures |sent| <= |ticks| && SentRight(rng, old(State()), ticks, replicas, batchSize, sent, |sent|)
      ensures ok ==> |sent| == |ticks| && rest == [] && State() == AfterTicks(rng, old(State()), ticks, replicas)
      ensures !ok ==> |sent| < |ticks| && BrokenOff(rng, old(State()), ticks, replicas, batchSize, rest, |sent|)
    {
      sent, rest := [], [];
      ghost var start := State();
      for k := 0 to |ticks|
        invariant State() == AfterTicks(rng, start, ticks[..k], replicas)
        invariant SentRight(rng, start, ticks, replicas, batchSize, sent, k)
      {
        assert ticks[..k + 1][..k] == ticks[..k];
        var batches, done := GenerateTick(ticks[k]);
        if !done {
          assert BrokenOff(rng, start, ticks, replicas, batchSize, batches, k);
          return sent, batches, false;
        }
        assert TickRight(rng, start, ticks, replicas, batchSize, batches, k);
        SentMore(rng, start, ticks, replicas, batchSize, sent, k, batches);
        sent := sent + [batches];
      }
      assert ticks[..|ticks|] == ticks;
      ok := true;
    }
  }

  predicate TickRight(rng: Random, g: Gen, ticks: seq<Tick>, replicas: nat, size: nat, batches: seq<seq<Sample>>, k: nat)
    requires k < |ticks| && size > 0
  {
    FlatAt(rng, g, ticks, replicas, k).ok && batches == Chop(FlatAt(rng, g, ticks, replicas, k).samples, size)
  }

  /** The flat generator fails in that tick too, and the batches are full ones of what it had by then. */
  ghost predicate BrokenOff(rng: Random, g: Gen, ticks: seq<Tick>, replicas: nat, size: nat, rest: seq<seq<Sample>>, k: nat)
    requires k < |ticks| && size > 0
  {
    && !FlatAt(rng, g, ticks, replicas, k).ok
    && exists buffer :: Underway(rest, buffer, FlatAt(rng, g, ticks, replicas, k).samples, size)
  }

  ghost predicate SentRight(rng: Random, g: Gen, ticks: seq<Tick>, replicas: nat, size: nat, sent: seq<seq<seq<Sample>>>, n: nat)
    requires n <= |ticks| && size > 0
  {
    |sent| == n && forall k :: 0 <= k < n ==> TickRight(rng, g, ticks, replicas, size, sent[k], k)
  }

  lemma SentMore(rng: Random, g: Gen, ticks: seq<Tick>, replicas: nat, size: nat, sent: seq<seq<seq<Sample>>>, n: nat,
                 batches: seq<seq<Sample>>)
    requires n < |ticks| && size > 0 && SentRight(rng, g, ticks, replicas, size, sent, n)
    requires TickRight(rng, g, ticks, replicas, size, batches, n)
    ensures SentRight(rng, g, ticks, replicas, size, sent + [batches], n + 1)
  {
  }

  /** The state after some ticks. */
  function AfterTicks(rng: Random, g: Gen, ticks: seq<Tick>, replicas: nat): Gen {
    if ticks == [] then g
    else Flat(rng, AfterTicks(rng, g, ticks[..|ticks| - 1], replicas), ticks[|ticks| - 1], replicas).gen
  }

  /** What the flat generator returns for the k-th of the ticks. */
  function FlatAt(rng: Random, g: Gen, ticks: seq<Tick>, replicas: nat, k: nat): Output
    requires k < |ticks|
  {
    Flat(rng, AfterTicks(rng, g, ticks[..k], replicas), ticks[k], replicas)
  }

  /** In one tick the batched generator sends, in order, exactly what the flat one returns from the same state
      and random numbers; as many samples as replicas times the sum over the series of the products of the
      numbers of label values. */
  lemma BatchesAreTheFlatSeries(rng: Random, descs: seq<SeriesDesc>, g: Gen, tick: Tick, replicas: nat, size: nat)
    requires size > 0 && |g.series| == |descs|
    requires forall i :: 0 <= i < |descs| ==> g.series[i].labelSets == SeriesOf(descs[i]).labelSets
    requires Flat(rng, g, tick, replicas).ok
    ensures var batches := Chop(Flat(rng, g, tick, replicas).samples, size);
            && Concat(batches) == Flat(rng, g, tick, replicas).samples
            && |Concat(batches)| == replicas * ProductSum(descs)
            && (forall i :: 0 <= i < |batches| ==> 0 < |batches[i]| <= size)
            && (forall i :: 0 <= i < |batches| - 1 ==> |batches[i]| == size)
  {
    var samples := Flat(rng, g, tick, replicas).samples;
    ChopConcat(samples, size);
    FlatSize(rng, g, tick, replicas);
    DescribedSum(descs, g.series);
    forall i | 0 <= i < |Chop(samples, size)|
      ensures 0 < |Chop(samples, size)[i]| <= size && (i < |Chop(samples, size)| - 1 ==> |Chop(samples, size)[i]| == size)
    {
      ChopSizes(samples, size, i);
    }
  }

  lemma Associates<T>(a: seq<T>, b: seq<T>, c: seq<T>)
    ensures (a + b) + c == a + (b + c)
  {
  }

  lemma ReplicaMore(rng: Random, g: Gen, replica: nat, tick: Tick, j: nat, before: Gen, after: Gen)
    requires j < |g.series| && Replica(rng, g, replica, tick, j).ok && Replica(rng, g, replica, tick, j).gen == before
    requires Advance(rng, before, j) == Some(after)
    ensures var samples := Replica(rng, g, replica, tick, j).samples;
            var more := Samples(after.series[j].labelSets, replica, tick, after.series[j].lastValue);
            Replica(rng, g, replica, tick, j + 1) == Output(samples + more, after, true)
  {
  }

  lemma ReplicaStops(rng: Random, g: Gen, replica: nat, tick: Tick, j: nat, before: Gen)
    requires j < |g.series| && Replica(rng, g, replica, tick, j).ok && Replica(rng, g, replica, tick, j).gen == before
    requires Advance(rng, before, j) == None
    ensures Replica(rng, g, replica, tick, |g.series|) == Output(Replica(rng, g, replica, tick, j).samples, before, false)
  {
    ReplicaFails(rng, g, replica, tick, j + 1);
  }

  lemma {:induction false} ReplicaFails(rng: Random, g: Gen, replica: nat, tick: Tick, n: nat)
    requires n <= |g.series| && !Replica(rng, g, replica, tick, n).ok
    ensures Replica(rng, g, replica, tick, |g.series|) == Replica(rng, g, replica, tick, n)
    decreases |g.series| - n
  {
    if n < |g.series| { ReplicaFails(rng, g, replica, tick, n + 1); }
  }

  lemma {:induction false} FlatFails(rng: Random, g: Gen, tick: Tick, n: nat, m: nat)
    requires n <= m && !Flat(rng, g, tick, n).ok
    ensures Flat(rng, g, tick, m) == Flat(rng, g, tick, n)
  {
    if n < m { FlatFails(rng, g, tick, n, m - 1); }
  }
}
