/** What the agent finds when it syncs again after an attempt that failed or died half way
    (pkg/agent/v2/agent.go:322-349). */
module Retry {
  import opened Common
  import opened Manifests
  import opened PluginWorld
  import opened PatchClient
  import opened Convergence
  import opened PatchSteps

  /** An unfinished write left something discovery skips, or a file it takes for the plugin being written. */
  predicate Benign(w: World, op: Patch, content: Bytes) {
    w.moduleOf(content) == None || w.moduleOf(content) == Some(op.id)
  }

  ghost predicate AllBenign(w: World, ops: seq<Patch>, sent: seq<Patch>, s: State)
    requires |ops| == |sent| == |s.pcs|
  {
    forall i :: 0 <= i < |ops| && Torn(s.pcs[i]) && sent[i].filename in s.disk ==>
      Benign(w, ops[i], s.disk[sent[i].filename])
  }

  /** The operation that remains of worker i: none if it finished, its own if it never touched its files,
      and otherwise whatever turns the unfinished file into the one wanted. */
  function Remaining(w: World, op: Patch, q: Patch, s: State, pc: Pc): Option<Patch> {
    if pc.Finished? then None
    else if !Torn(pc) || q.filename !in s.disk then Some(op)
    else
      var o, content := Entry(op.id, op.filename, op.newDigest), s.disk[q.filename];
      if w.moduleOf(content) == None then Some(CreateOf(o))
      else if w.digest(content) == op.newDigest then None
      else Some(UpdateOf(o, Entry(op.id, op.filename, w.digest(content))))
  }

  ghost predicate Remains(w: World, ops: seq<Patch>, sent: seq<Patch>, s: State, p: Patch)
    requires |ops| == |sent| == |s.pcs|
  {
    exists i :: 0 <= i < |ops| && Remaining(w, ops[i], sent[i], s, s.pcs[i]) == Some(p)
  }

  /** The gateway entry a torn worker was writing. */
  ghost predicate WritesEntry(w: World, g: Disk, v: Disk, op: Patch, q: Patch, o: Entry) {
    && w.Has(g, o) && o == Entry(op.id, op.filename, op.newDigest) && q.filename == o.filename
    && forall x :: w.Has(v, x) && x.id == o.id ==> x.filename == o.filename
  }

  lemma UpdateWrites(w: World, g: Disk, v: Disk, p: Patch, q: Patch)
    requires Compatible(w, g, v) && p.op == Update && q.filename == p.filename && Pending(w, g, v, p)
    ensures WritesEntry(w, g, v, p, q, Entry(p.id, p.filename, p.newDigest))
  {
    var o, a :| NeedsUpdate(w, g, v, o, a) && p == UpdateOf(o, a);
    assert NoClash(v, o, a);
  }

  lemma CreateWrites(w: World, g: Disk, v: Disk, p: Patch, q: Patch)
    requires p.op == Create && q.filename == p.filename && Pending(w, g, v, p)
    ensures WritesEntry(w, g, v, p, q, Entry(p.id, p.filename, p.newDigest))
  {
    var o :| NeedsCreate(w, g, v, o) && p == CreateOf(o);
  }

  lemma TornWrites(w: World, g: Disk, d0: Disk, ops: seq<Patch>, sent: seq<Patch>, s: State, i: nat) returns (o: Entry)
    requires Inv(w, g, d0, ops, sent, s) && Setup(w, g, d0, ops, sent) && i < |ops| && Torn(s.pcs[i])
    ensures WritesEntry(w, g, Undone(d0, sent, s), ops[i], sent[i], o)
    ensures sent[i].filename in s.disk && sent[i].filename in TornFiles(sent, s)
  {
    o := Entry(ops[i].id, ops[i].filename, ops[i].newDigest);
    WorkerPending(w, g, d0, ops, sent, s, i);
    assert WorkerInv(w, d0, Undone(d0, sent, s), sent[i], s, s.pcs[i]);
    assert Serves(w, ops[i], sent[i]);
    if ops[i].op == Update {
      UpdateWrites(w, g, Undone(d0, sent, s), ops[i], sent[i]);
    } else {
      CreateWrites(w, g, Undone(d0, sent, s), ops[i], sent[i]);
    }
  }

  /** Entries of ids nobody was writing are the same with and without the unfinished writes. */
  lemma OtherIdsUntouched(w: World, g: Disk, d0: Disk, ops: seq<Patch>, sent: seq<Patch>, s: State, x: Entry)
    requires Inv(w, g, d0, ops, sent, s) && Setup(w, g, d0, ops, sent) && AllBenign(w, ops, sent, s)
    requires forall i :: 0 <= i < |ops| && Torn(s.pcs[i]) ==> ops[i].id != x.id
    ensures w.Has(s.disk, x) <==> w.Has(Undone(d0, sent, s), x)
  {
    if x.filename in TornFiles(sent, s) {
      var i :| 0 <= i < |sent| && Torn(s.pcs[i]) && sent[i].filename == x.filename;
      var o := TornWrites(w, g, d0, ops, sent, s, i);
      assert w.Has(Undone(d0, sent, s), x) ==> NoClash(Undone(d0, sent, s), o, x);
    }
  }

  /** The only entry of an id being written is the unfinished file itself, if discovery takes it for a plugin. */
  lemma TornIdEntry(w: World, g: Disk, d0: Disk, ops: seq<Patch>, sent: seq<Patch>, s: State, i: nat, x: Entry)
    requires Inv(w, g, d0, ops, sent, s) && Setup(w, g, d0, ops, sent) && AllBenign(w, ops, sent, s)
    requires i < |ops| && Torn(s.pcs[i]) && x.id == ops[i].id
    ensures sent[i].filename in s.disk
    ensures w.Has(s.disk, x) <==> w.moduleOf(s.disk[sent[i].filename]).Some?
                                  && x == Entry(x.id, ops[i].filename, w.digest(s.disk[sent[i].filename]))
  {
    var v := Undone(d0, sent, s);
    var o := TornWrites(w, g, d0, ops, sent, s, i);
    if x.filename != o.filename && w.Has(s.disk, x) {
      if x.filename in TornFiles(sent, s) {
        var j :| 0 <= j < |sent| && Torn(s.pcs[j]) && sent[j].filename == x.filename;
        var o' := TornWrites(w, g, d0, ops, sent, s, j);
      } else {
        assert w.Has(v, x);
      }
    }
  }

  lemma DiskKeys(w: World, g: Disk, d0: Disk, ops: seq<Patch>, sent: seq<Patch>, s: State, f: Bytes)
    requires |sent| == |s.pcs|
    ensures f in s.disk && f !in Undone(d0, sent, s) ==> f in TornFiles(sent, s)
  {
  }

  lemma StillCompatible(w: World, g: Disk, d0: Disk, ops: seq<Patch>, sent: seq<Patch>, s: State)
    requires Inv(w, g, d0, ops, sent, s) && Setup(w, g, d0, ops, sent) && AllBenign(w, ops, sent, s)
    ensures Compatible(w, g, s.disk)
  {
    var v := Undone(d0, sent, s);
    forall a, b | w.Has(s.disk, a) && w.Has(s.disk, b) && a.id == b.id ensures a == b {
      if i :| 0 <= i < |ops| && Torn(s.pcs[i]) && ops[i].id == a.id {
        TornIdEntry(w, g, d0, ops, sent, s, i, a);
        TornIdEntry(w, g, d0, ops, sent, s, i, b);
      } else {
        OtherIdsUntouched(w, g, d0, ops, sent, s, a);
        OtherIdsUntouched(w, g, d0, ops, sent, s, b);
      }
    }
    forall o, a | w.Has(g, o) && w.Has(s.disk, a) ensures NoClash(s.disk, o, a) {
      if i :| 0 <= i < |ops| && Torn(s.pcs[i]) && ops[i].id == a.id {
        var o' := TornWrites(w, g, d0, ops, sent, s, i);
        TornIdEntry(w, g, d0, ops, sent, s, i, a);
      } else {
        OtherIdsUntouched(w, g, d0, ops, sent, s, a);
        assert NoClash(v, o, a);
        DiskKeys(w, g, d0, ops, sent, s, o.filename);
        if o.filename in TornFiles(sent, s) {
          var i :| 0 <= i < |sent| && Torn(s.pcs[i]) && sent[i].filename == o.filename;
          var o' := TornWrites(w, g, d0, ops, sent, s, i);
          assert o' == o;
        }
      }
    }
  }

  lemma PendingLocal(w: World, g: Disk, d: Disk, d': Disk, p: Patch)
    requires forall x: Entry :: x.id == p.id ==> (w.Has(d, x) <==> w.Has(d', x))
    ensures Pending(w, g, d, p) <==> Pending(w, g, d', p)
  {
  }

  lemma RemainingKeepsId(w: World, op: Patch, q: Patch, s: State, pc: Pc, p: Patch)
    requires Remaining(w, op, q, s, pc) == Some(p)
    ensures p.id == op.id
  {
  }

  lemma OneWorkerPerId(w: World, g: Disk, d0: Disk, ops: seq<Patch>, sent: seq<Patch>, i: nat, j: nat)
    requires Setup(w, g, d0, ops, sent) && i < |ops| && j < |ops| && ops[i].id == ops[j].id
    ensures i == j
  {
    assert ops[i] in ops && ops[j] in ops;
    PendingById(w, g, d0, ops[i], ops[j]);
  }

  /** What is pending for an id whose only file is the unfinished one. */
  lemma PendingForTorn(w: World, g: Disk, d: Disk, o: Entry, content: Bytes, p: Patch)
    requires w.IdsIdentify(g) && w.Has(g, o) && p.id == o.id
    requires forall x: Entry :: x.id == o.id ==>
      (w.Has(d, x) <==> w.moduleOf(content).Some? && x == Entry(o.id, o.filename, w.digest(content)))
    ensures Pending(w, g, d, p) <==>
            if w.moduleOf(content) == None then p == CreateOf(o)
            else w.digest(content) != o.digest && p == UpdateOf(o, Entry(o.id, o.filename, w.digest(content)))
  {
    var a := Entry(o.id, o.filename, w.digest(content));
    if w.moduleOf(content) == None {
      assert NeedsCreate(w, g, d, o);
    } else {
      assert w.Has(d, a);
      if w.digest(content) != o.digest { assert NeedsUpdate(w, g, d, o, a); }
    }
  }

  lemma TornPending(w: World, g: Disk, d0: Disk, ops: seq<Patch>, sent: seq<Patch>, s: State, i: nat, p: Patch)
    requires Inv(w, g, d0, ops, sent, s) && Setup(w, g, d0, ops, sent) && AllBenign(w, ops, sent, s)
    requires i < |ops| && Torn(s.pcs[i]) && p.id == ops[i].id
    ensures Pending(w, g, s.disk, p) <==> Remains(w, ops, sent, s, p)
  {
    var o := TornWrites(w, g, d0, ops, sent, s, i);
    forall x: Entry | x.id == o.id
      ensures w.Has(s.disk, x) <==> w.moduleOf(s.disk[sent[i].filename]).Some?
                                    && x == Entry(o.id, o.filename, w.digest(s.disk[sent[i].filename]))
    {
      TornIdEntry(w, g, d0, ops, sent, s, i, x);
    }
    PendingForTorn(w, g, s.disk, o, s.disk[sent[i].filename], p);
    assert Pending(w, g, s.disk, p) <==> Remaining(w, ops[i], sent[i], s, s.pcs[i]) == Some(p);
    if Remains(w, ops, sent, s, p) {
      var j :| 0 <= j < |ops| && Remaining(w, ops[j], sent[j], s, s.pcs[j]) == Some(p);
      RemainingKeepsId(w, ops[j], sent[j], s, s.pcs[j], p);
      OneWorkerPerId(w, g, d0, ops, sent, i, j);
    }
  }

  lemma UntornPending(w: World, g: Disk, d0: Disk, ops: seq<Patch>, sent: seq<Patch>, s: State, p: Patch)
    requires Inv(w, g, d0, ops, sent, s) && Setup(w, g, d0, ops, sent) && AllBenign(w, ops, sent, s)
    requires forall i :: 0 <= i < |ops| && Torn(s.pcs[i]) ==> ops[i].id != p.id
    ensures Pending(w, g, s.disk, p) <==> Remains(w, ops, sent, s, p)
  {
    forall x: Entry | x.id == p.id ensures w.Has(s.disk, x) <==> w.Has(Undone(d0, sent, s), x) {
      OtherIdsUntouched(w, g, d0, ops, sent, s, x);
    }
    PendingLocal(w, g, s.disk, Undone(d0, sent, s), p);
    if Unfinished(ops, s, p) {
      var j :| 0 <= j < |ops| && ops[j] == p && !s.pcs[j].Finished?;
      assert Remaining(w, ops[j], sent[j], s, s.pcs[j]) == Some(p);
    }
    if Remains(w, ops, sent, s, p) {
      var j :| 0 <= j < |ops| && Remaining(w, ops[j], sent[j], s, s.pcs[j]) == Some(p);
      RemainingKeepsId(w, ops[j], sent[j], s, s.pcs[j], p);
    }
  }

  /** A torn file that discovery takes for another module clashes with the plugin being written. */
  lemma StrangeFileClashes(w: World, g: Disk, d0: Disk, ops: seq<Patch>, sent: seq<Patch>, s: State, i: nat)
    requires Inv(w, g, d0, ops, sent, s) && Setup(w, g, d0, ops, sent) && i < |ops| && Torn(s.pcs[i])
    requires sent[i].filename in s.disk && !Benign(w, ops[i], s.disk[sent[i].filename])
    ensures !Compatible(w, g, s.disk)
  {
    var o := TornWrites(w, g, d0, ops, sent, s, i);
    var content := s.disk[o.filename];
    var a := Entry(w.moduleOf(content).value, o.filename, w.digest(content));
    assert w.Has(g, o) && w.Has(s.disk, a) && !NoClash(s.disk, o, a);
  }

  /** At every point of every run the directories are still compatible exactly if no unfinished write has left
      something that discovery takes for another module. */
  lemma CompatibleIffBenign(w: World, g: Disk, d0: Disk, ops: seq<Patch>, sent: seq<Patch>, run: seq<State>, k: nat)
    requires Setup(w, g, d0, ops, sent) && IsRun(w, d0, sent, run) && k < |run|
    ensures Compatible(w, g, run[k].disk) <==> AllBenign(w, ops, sent, run[k])
  {
    RunInv(w, g, d0, ops, sent, run, k);
    if AllBenign(w, ops, sent, run[k]) {
      StillCompatible(w, g, d0, ops, sent, run[k]);
    } else {
      var i :| 0 <= i < |ops| && Torn(run[k].pcs[i]) && sent[i].filename in run[k].disk
               && !Benign(w, ops[i], run[k].disk[sent[i].filename]);
      StrangeFileClashes(w, g, d0, ops, sent, run[k], i);
    }
  }

  /** While they are, what a new sync would find pending is, worker by worker, what remains of that worker's
      operation: nothing if it finished and the same operation if it never wrote to its file. */
  lemma ResyncFindsTheRest(w: World, g: Disk, d0: Disk, ops: seq<Patch>, sent: seq<Patch>, run: seq<State>, k: nat)
    requires Setup(w, g, d0, ops, sent) && IsRun(w, d0, sent, run) && k < |run|
    requires Compatible(w, g, run[k].disk)
    ensures forall p :: Pending(w, g, run[k].disk, p) <==> Remains(w, ops, sent, run[k], p)
  {
    var s := run[k];
    RunInv(w, g, d0, ops, sent, run, k);
    CompatibleIffBenign(w, g, d0, ops, sent, run, k);
    forall p ensures Pending(w, g, s.disk, p) <==> Remains(w, ops, sent, s, p) {
      if i :| 0 <= i < |ops| && Torn(s.pcs[i]) && ops[i].id == p.id {
        TornPending(w, g, d0, ops, sent, s, i, p);
      } else {
        UntornPending(w, g, d0, ops, sent, s, p);
      }
    }
  }

  function FinishedCount(pcs: seq<Pc>): nat {
    if pcs == [] then 0
    else FinishedCount(pcs[..|pcs| - 1]) + if pcs[|pcs| - 1].Finished? then 1 else 0
  }

  function RemainingList(w: World, ops: seq<Patch>, sent: seq<Patch>, s: State, n: nat): seq<Patch>
    requires n <= |ops| == |sent| == |s.pcs|
  {
    if n == 0 then []
    else
      RemainingList(w, ops, sent, s, n - 1) +
      match Remaining(w, ops[n - 1], sent[n - 1], s, s.pcs[n - 1]) case None => [] case Some(p) => [p]
  }

  lemma {:induction false} RemainingListed(w: World, ops: seq<Patch>, sent: seq<Patch>, s: State, n: nat)
    requires n <= |ops| == |sent| == |s.pcs|
    ensures |RemainingList(w, ops, sent, s, n)| <= n - FinishedCount(s.pcs[..n])
    ensures forall i, p :: 0 <= i < n && Remaining(w, ops[i], sent[i], s, s.pcs[i]) == Some(p)
                           ==> p in RemainingList(w, ops, sent, s, n)
  {
    if n > 0 {
      RemainingListed(w, ops, sent, s, n - 1);
      assert s.pcs[..n][..n - 1] == s.pcs[..n - 1];
    }
  }

  /** So the operations a later sync lists are never more than the workers that did not finish: the
      count is a measure the agent's retry loop cannot increase, and every worker that finishes lowers it. */
  lemma RetryMeasure(w: World, g: Disk, d0: Disk, ops: seq<Patch>, sent: seq<Patch>, run: seq<State>, k: nat, later: seq<Patch>)
    requires Setup(w, g, d0, ops, sent) && IsRun(w, d0, sent, run) && k < |run|
    requires Compatible(w, g, run[k].disk) && ListsPending(w, g, run[k].disk, later)
    ensures |later| <= |ops| - FinishedCount(run[k].pcs)
  {
    var s, n := run[k], |ops|;
    ResyncFindsTheRest(w, g, d0, ops, sent, run, k);
    RemainingListed(w, ops, sent, s, n);
    assert s.pcs[..n] == s.pcs;
    forall p | p in later ensures p in RemainingList(w, ops, sent, s, n) {
      assert Remains(w, ops, sent, s, p);
    }
    NoDupLength(later, RemainingList(w, ops, sent, s, n));
  }
}
