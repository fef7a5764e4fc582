/** Any number of sync attempts one after the other (pkg/agent/v2/agent.go:322-349). Each is any run of the
    concurrent operations, however far it got: with system calls failing, patches damaged, the agent dying. */
module SyncAttempts {
  import opened Common
  import opened Manifests
  import opened PluginWorld
  import opened PatchClient
  import opened Convergence
  import opened PatchSteps
  import opened PatchRuns
  import opened Retry

  /** The operations the gateway found pending, what it sent for them, and what the agent's workers did. */
  datatype Attempt = Attempt(ops: seq<Patch>, sent: seq<Patch>, run: seq<State>)

  function Last(t: Attempt): State
    requires |t.run| > 0
  {
    t.run[|t.run| - 1]
  }

  ghost predicate IsAttempt(w: World, g: Disk, d: Disk, t: Attempt) {
    ListsPending(w, g, d, t.ops) && AllServe(w, t.ops, t.sent) && IsRun(w, d, t.sent, t.run)
  }

  /** The directory after the attempts. */
  function After(d: Disk, history: seq<Attempt>): Disk
    requires forall t :: t in history ==> |t.run| > 0
  {
    if history == [] then d else Last(history[|history| - 1]).disk
  }

  ghost predicate Ran(history: seq<Attempt>) {
    forall t :: t in history ==> |t.run| > 0
  }

  /** Each attempt starts where the one before ended, with the directories still compatible. */
  ghost predicate IsHistory(w: World, g: Disk, d: Disk, history: seq<Attempt>)
    requires Ran(history)
    decreases |history|
  {
    history == [] ||
    var before := history[..|history| - 1];
    Ran(before) && IsHistory(w, g, d, before)
    && Compatible(w, g, After(d, before)) && IsAttempt(w, g, After(d, before), history[|history| - 1])
  }

  /** How many operations have finished in all. */
  function FinishedIn(history: seq<Attempt>): nat
    requires forall t :: t in history ==> |t.run| > 0
  {
    if history == [] then 0
    else FinishedIn(history[..|history| - 1]) + FinishedCount(Last(history[|history| - 1]).pcs)
  }

  /** No attempt left an unfinished write that discovery takes for another module. */
  ghost predicate LeftBenign(w: World, t: Attempt) {
    |t.run| > 0 && |t.ops| == |t.sent| == |Last(t).pcs| && AllBenign(w, t.ops, t.sent, Last(t))
  }

  lemma ListLength(w: World, g: Disk, d: Disk, a: seq<Patch>, b: seq<Patch>)
    requires ListsPending(w, g, d, a) && ListsPending(w, g, d, b)
    ensures |a| == |b|
  {
    NoDupLength(a, b);
    NoDupLength(b, a);
  }

  /** After the last attempt the directories are compatible exactly if it left no such write. */
  lemma StillCompatibleIff(w: World, g: Disk, d: Disk, history: seq<Attempt>)
    requires w.Lawful() && Ran(history) && history != [] && IsHistory(w, g, d, history)
    ensures Compatible(w, g, After(d, history)) <==> LeftBenign(w, history[|history| - 1])
  {
    var t := history[|history| - 1];
    CompatibleIffBenign(w, g, After(d, history[..|history| - 1]), t.ops, t.sent, t.run, |t.run| - 1);
  }

  /** Over any number of attempts, every operation that finishes leaves one fewer to do for good: what is
      pending now and what has finished add up to no more than what was pending at the start. */
  lemma {:induction false} PendingFalls(w: World, g: Disk, d: Disk, history: seq<Attempt>, first: seq<Patch>, now: seq<Patch>)
    requires w.Lawful() && Ran(history) && IsHistory(w, g, d, history) && Compatible(w, g, After(d, history))
    requires ListsPending(w, g, d, first) && ListsPending(w, g, After(d, history), now)
    ensures |now| + FinishedIn(history) <= |first|
    decreases |history|
  {
    if history == [] {
      ListLength(w, g, d, first, now);
    } else {
      var before, t := history[..|history| - 1], history[|history| - 1];
      PendingFalls(w, g, d, before, first, t.ops);
      RetryMeasure(w, g, After(d, before), t.ops, t.sent, t.run, |t.run| - 1, now);
    }
  }

  /** The attempt in which every operation finishes leaves the agent with exactly the gateway's plugins. */
  lemma SyncedAtLast(w: World, g: Disk, d: Disk, history: seq<Attempt>)
    requires w.Lawful() && Ran(history) && history != [] && IsHistory(w, g, d, history)
    requires AllFinished(Last(history[|history| - 1]))
    ensures w.SamePlugins(g, After(d, history)) && ListsPending(w, g, After(d, history), [])
  {
    var t := history[|history| - 1];
    EveryRunConverges(w, g, After(d, history[..|history| - 1]), t.ops, t.sent, t.run);
  }

  /** If every attempt finishes something, there are no more attempts than operations at the start. */
  lemma AttemptsBounded(w: World, g: Disk, d: Disk, history: seq<Attempt>, first: seq<Patch>, now: seq<Patch>)
    requires w.Lawful() && Ran(history) && IsHistory(w, g, d, history) && Compatible(w, g, After(d, history))
    requires ListsPending(w, g, d, first) && ListsPending(w, g, After(d, history), now)
    requires forall t :: t in history ==> FinishedCount(Last(t).pcs) > 0
    ensures |history| + |now| <= |first|
  {
    PendingFalls(w, g, d, history, first, now);
    EachFinishes(history);
  }

  lemma {:induction false} EachFinishes(history: seq<Attempt>)
    requires Ran(history) && forall t :: t in history ==> FinishedCount(Last(t).pcs) > 0
    ensures FinishedIn(history) >= |history|
    decreases |history|
  {
    if history != [] { EachFinishes(history[..|history| - 1]); }
  }

  lemma HistoryGrows(w: World, g: Disk, d: Disk, history: seq<Attempt>, t: Attempt)
    requires Ran(history) && IsHistory(w, g, d, history) && Compatible(w, g, After(d, history))
    requires IsAttempt(w, g, After(d, history), t)
    ensures Ran(history + [t]) && IsHistory(w, g, d, history + [t])
  {
    assert (history + [t])[..|history|] == history;
  }
}
