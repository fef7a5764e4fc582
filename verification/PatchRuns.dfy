/** What every run of the concurrent patch operations gives (pkg/patch/client.go:225-377): the agent converges,
    nothing fails but for system calls and damaged patches, and no file is half-changed. */
module PatchRuns {
  import opened Common
  import opened Manifests
  import opened PluginWorld
  import opened PatchClient
  import opened Convergence
  import opened PatchSteps

  ghost predicate AllFinished(s: State) {
    forall i :: 0 <= i < |s.pcs| ==> s.pcs[i].Finished?
  }

  /** In every interleaving, once all workers have finished the agent has exactly the gateway's plugins. */
  lemma EveryRunConverges(w: World, g: Disk, d0: Disk, ops: seq<Patch>, sent: seq<Patch>, run: seq<State>)
    requires Setup(w, g, d0, ops, sent) && IsRun(w, d0, sent, run) && AllFinished(run[|run| - 1])
    ensures w.SamePlugins(g, run[|run| - 1].disk)
    ensures ListsPending(w, g, run[|run| - 1].disk, [])
  {
    var s := run[|run| - 1];
    RunInv(w, g, d0, ops, sent, run, |run| - 1);
    assert TornFiles(sent, s) == {};
    assert Undone(d0, sent, s) == s.disk;
    NothingPending(w, g, s.disk);
  }

  /** At every point of every run, whatever the other workers do, no system call that succeeds makes a worker
      fail if it was sent correct data: no occupied target, missing file or wrong digest can come up. */
  lemma ProgressNeverFails(w: World, g: Disk, d0: Disk, ops: seq<Patch>, sent: seq<Patch>, run: seq<State>, k: nat, s': State, i: nat)
    requires Setup(w, g, d0, ops, sent) && IsRun(w, d0, sent, run) && k < |run| && i < |sent|
    requires Answers(w, ops[i], sent[i]) && Advance(w, sent, run[k], s', i)
    ensures !s'.pcs[i].Failed?
  {
    RunInv(w, g, d0, ops, sent, run, k);
    AdvanceKeepsInv(w, g, d0, ops, sent, run[k], s', i);
  }

  /** So a worker that has failed was sent a damaged patch, or one of its own system calls failed. */
  lemma {:induction false} OnlyOsErrorsFail(w: World, g: Disk, d0: Disk, ops: seq<Patch>, sent: seq<Patch>, run: seq<State>, k: nat, i: nat)
    requires Setup(w, g, d0, ops, sent) && IsRun(w, d0, sent, run) && k < |run| && i < |sent|
    requires run[k].pcs[i].Failed? && Answers(w, ops[i], sent[i])
    ensures exists j :: 0 <= j < k && FailsByOs(w, sent, run, j, i)
  {
    if k > 0 {
      if run[k - 1].pcs[i].Failed? {
        OnlyOsErrorsFail(w, g, d0, ops, sent, run, k - 1, i);
      } else {
        FailingStep(w, g, d0, ops, sent, run, k - 1, i);
        assert FailsByOs(w, sent, run, k - 1, i);
      }
    }
  }

  /** The step is the failure of worker i's system call, and could not have been its success. */
  ghost predicate FailsByOs(w: World, sent: seq<Patch>, run: seq<State>, j: nat, i: nat) {
    && j + 1 < |run| && i < |sent| == |run[j].pcs|
    && OsError(run[j], run[j + 1], i) && !Advance(w, sent, run[j], run[j + 1], i)
  }

  lemma FailingStep(w: World, g: Disk, d0: Disk, ops: seq<Patch>, sent: seq<Patch>, run: seq<State>, j: nat, i: nat)
    requires Setup(w, g, d0, ops, sent) && IsRun(w, d0, sent, run) && j + 1 < |run| && i < |sent|
    requires !run[j].pcs[i].Failed? && run[j + 1].pcs[i].Failed? && Answers(w, ops[i], sent[i])
    ensures FailsByOs(w, sent, run, j, i)
  {
    assert Next(w, sent, run[j], run[j + 1]);
    if Advance(w, sent, run[j], run[j + 1], i) {
      ProgressNeverFails(w, g, d0, ops, sent, run, j, run[j + 1], i);
    }
  }

  /** At every point of every run, the files of an Update, Rename or Remove are as they were before it
      or as they are after it. */
  lemma NeverHalfChanged(w: World, g: Disk, d0: Disk, ops: seq<Patch>, sent: seq<Patch>, run: seq<State>, k: nat, i: nat)
    requires Setup(w, g, d0, ops, sent) && IsRun(w, d0, sent, run) && k < |run| && i < |sent|
    requires sent[i].op == Update || sent[i].op == Rename || sent[i].op == Remove
    ensures Agree(run[k].disk, if run[k].pcs[i].Finished? then Apply(w, d0, sent[i]).1 else d0, Files(sent[i]))
  {
    var s := run[k];
    RunInv(w, g, d0, ops, sent, run, k);
    assert WorkerInv(w, d0, Undone(d0, sent, s), sent[i], s, s.pcs[i]);
    assert Files(sent[i]) !! TornFiles(sent, s) by {
      forall j | 0 <= j < |sent| && Torn(s.pcs[j]) ensures sent[j].filename !in Files(sent[i]) {
        assert WorkerInv(w, d0, Undone(d0, sent, s), sent[j], s, s.pcs[j]);
        WorkersApart(w, g, d0, ops, sent, i, j);
      }
    }
  }
}
