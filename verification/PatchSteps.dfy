/** Patch runs its operations concurrently (pkg/patch/client.go:225-257). Each operation is a worker that
    makes a few system calls; this module proves sync correct for every interleaving of those calls,
    with system calls failing anywhere and the agent dying at any point. */
module PatchSteps {
  import opened Common
  import opened Manifests
  import opened PluginWorld
  import opened PatchClient
  import opened Convergence

  /** Where a worker is. `Loaded` has read the old file and built its replacement in a temporary file;
      `TargetFree` has seen that a rename's target does not exist; `Writing` has opened the file in place
      and written that many bytes; `Failed` is final and says whether a write was left unfinished. */
  datatype Pc = Ready | Loaded(next: Bytes) | TargetFree | Writing(written: nat) | Finished | Failed(torn: bool)

  datatype State = State(disk: Disk, pcs: seq<Pc>)

  predicate Torn(pc: Pc) {
    pc.Writing? || (pc.Failed? && pc.torn)
  }

  /** The next system call of worker i, when it succeeds. */
  predicate Advance(w: World, sent: seq<Patch>, s: State, s': State, i: nat)
    requires i < |sent| == |s.pcs|
  {
    var q, pc := sent[i], s.pcs[i];
    match q.op
    case NoOp => pc == Ready && s' == s.(pcs := s.pcs[i := Finished])
    case Unknown => pc == Ready && s' == s.(pcs := s.pcs[i := Failed(false)])
    case Remove => pc == Ready && s' == State(s.disk - {q.filename}, s.pcs[i := Finished])
    case Create =>
      match pc {
        case Ready => s' == State(s.disk[q.filename := ""], s.pcs[i := Writing(0)])
        case Writing(n) =>
          if n < |q.data| then exists m | n < m <= |q.data| ::
              s' == State(s.disk[q.filename := q.data[..m]], s.pcs[i := Writing(m)])
          else s' == s.(pcs := s.pcs[i := Finished])
        case _ => false
      }
    case Rename =>
      match pc {
        case Ready => s' == s.(pcs := s.pcs[i := if q.data in s.disk then Failed(false) else TargetFree])
        case TargetFree =>
          s' == if q.filename in s.disk
                then State((s.disk - {q.filename})[q.data := s.disk[q.filename]], s.pcs[i := Finished])
                else s.(pcs := s.pcs[i := Failed(false)])
        case _ => false
      }
    case Update =>
      match pc {
        case Ready =>
          s' == s.(pcs := s.pcs[i := if q.filename !in s.disk then Failed(false)
                                     else var (code, next) := Patched(w, s.disk[q.filename], q);
                                          if code == OK then Loaded(next) else Failed(false)])
        case Loaded(next) => s' == State(s.disk[q.filename := next], s.pcs[i := Finished])
        case _ => false
      }
  }

  /** The next system call of worker i fails, and the worker gives up. */
  predicate OsError(s: State, s': State, i: nat)
    requires i < |s.pcs|
  {
    && !s.pcs[i].Finished? && !s.pcs[i].Failed?
    && s' == s.(pcs := s.pcs[i := Failed(s.pcs[i].Writing?)])
  }

  predicate Next(w: World, sent: seq<Patch>, s: State, s': State)
    requires |sent| == |s.pcs|
  {
    exists i: nat | i < |sent| :: Advance(w, sent, s, s', i) || OsError(s, s', i)
  }

  function Init(d: Disk, sent: seq<Patch>): State {
    State(d, seq(|sent|, i => Ready))
  }

  /** A run: the initial state followed by any number of steps of any workers. */
  ghost predicate IsRun(w: World, d: Disk, sent: seq<Patch>, run: seq<State>) {
    && |run| > 0 && run[0] == Init(d, sent)
    && (forall k :: 0 <= k < |run| ==> |run[k].pcs| == |sent|)
    && (forall k :: 0 <= k < |run| - 1 ==> Next(w, sent, run[k], run[k + 1]))
  }

  // ------------------------------------------------- the invariant

  function Files(q: Patch): set<Bytes> {
    if q.op == Rename then {q.filename, q.data} else {q.filename}
  }

  predicate Agree(d: Disk, e: Disk, files: set<Bytes>) {
    forall f :: f in files ==> (f in d <==> f in e) && (f in d && f in e ==> d[f] == e[f])
  }

  function TornFiles(sent: seq<Patch>, s: State): set<Bytes>
    requires |sent| == |s.pcs|
  {
    set i | 0 <= i < |sent| && Torn(s.pcs[i]) :: sent[i].filename
  }

  /** The directory with every unfinished write undone. */
  function Undone(d0: Disk, sent: seq<Patch>, s: State): Disk
    requires |sent| == |s.pcs|
  {
    var torn := TornFiles(sent, s);
    (s.disk - torn) + (map f | f in torn * d0.Keys :: d0[f])
  }

  /** ops are the operations pending on the directory d0 the client starts from, and sent what the
      gateway sent for them, some patches possibly damaged. */
  ghost predicate Setup(w: World, g: Disk, d0: Disk, ops: seq<Patch>, sent: seq<Patch>) {
    w.Lawful() && Compatible(w, g, d0) && ListsPending(w, g, d0, ops) && AllServe(w, ops, sent)
  }

  ghost predicate Inv(w: World, g: Disk, d0: Disk, ops: seq<Patch>, sent: seq<Patch>, s: State) {
    && |s.pcs| == |sent| == |ops|
    && var v := Undone(d0, sent, s);
    && Compatible(w, g, v)
    && (forall p :: Pending(w, g, v, p) <==> Unfinished(ops, s, p))
    && (forall i :: 0 <= i < |sent| ==> WorkerInv(w, d0, v, sent[i], s, s.pcs[i]))
  }

  predicate Unfinished(ops: seq<Patch>, s: State, p: Patch)
    requires |ops| == |s.pcs|
  {
    exists i :: 0 <= i < |ops| && ops[i] == p && !s.pcs[i].Finished?
  }

  ghost predicate WorkerInv(w: World, d0: Disk, v: Disk, q: Patch, s: State, pc: Pc) {
    && Agree(v, if pc.Finished? then Apply(w, d0, q).1 else d0, Files(q))
    && (pc.Loaded? ==> q.op == Update && q.filename in d0 && Patched(w, d0[q.filename], q) == (OK, pc.next))
    && (Torn(pc) ==> q.op == Create && q.filename in s.disk && s.disk[q.filename] <= q.data)
    && (pc.Writing? ==> |s.disk[q.filename]| == pc.written)
    && (pc.TargetFree? ==> q.op == Rename)
  }

  /** The file holds, on one side or the other, a plugin with that id. */
  ghost predicate OwnedBy(w: World, g: Disk, d: Disk, f: Bytes, id: Bytes) {
    || (exists e :: w.Has(g, e) && e.filename == f && e.id == id)
    || (exists e :: w.Has(d, e) && e.filename == f && e.id == id)
  }

  lemma OneOwner(w: World, g: Disk, d: Disk, f: Bytes, id: Bytes, id': Bytes)
    requires Compatible(w, g, d) && OwnedBy(w, g, d, f, id) && OwnedBy(w, g, d, f, id')
    ensures id == id'
  {
    if o, a :| w.Has(g, o) && w.Has(d, a) && o.filename == a.filename == f {
      assert NoClash(d, o, a);
    }
  }

  /** A file an operation touches belongs to the operation's id. */
  lemma FileOf(w: World, g: Disk, d: Disk, p: Patch, q: Patch, f: Bytes)
    requires Pending(w, g, d, p) && Serves(w, p, q) && f in Files(q)
    ensures OwnedBy(w, g, d, f, p.id)
  {
  }

  lemma FilesDisjoint(w: World, g: Disk, d: Disk, p: Patch, q: Patch, p': Patch, q': Patch)
    requires Compatible(w, g, d) && Pending(w, g, d, p) && Pending(w, g, d, p') && p != p'
    requires Serves(w, p, q) && Serves(w, p', q')
    ensures Files(q) !! Files(q')
  {
    if f :| f in Files(q) && f in Files(q') {
      FileOf(w, g, d, p, q, f);
      FileOf(w, g, d, p', q', f);
      OneOwner(w, g, d, f, p.id, p'.id);
      PendingById(w, g, d, p, p');
    }
  }

  lemma WorkersApart(w: World, g: Disk, d0: Disk, ops: seq<Patch>, sent: seq<Patch>, i: nat, j: nat)
    requires Setup(w, g, d0, ops, sent) && i < |ops| && j < |ops| && i != j
    ensures Files(sent[i]) !! Files(sent[j])
  {
    assert ops[i] in ops && ops[j] in ops;
    FilesDisjoint(w, g, d0, ops[i], sent[i], ops[j], sent[j]);
  }

  lemma WorkerPending(w: World, g: Disk, d0: Disk, ops: seq<Patch>, sent: seq<Patch>, s: State, i: nat)
    requires Inv(w, g, d0, ops, sent, s) && i < |ops| && !s.pcs[i].Finished?
    ensures Pending(w, g, Undone(d0, sent, s), ops[i])
  {
    assert Unfinished(ops, s, ops[i]);
  }

  /** No unfinished write is on a file of another unfinished worker. */
  lemma NotTorn(w: World, g: Disk, d0: Disk, ops: seq<Patch>, sent: seq<Patch>, s: State, i: nat)
    requires Inv(w, g, d0, ops, sent, s) && Setup(w, g, d0, ops, sent)
    requires i < |ops| && !s.pcs[i].Finished?
    ensures forall j :: 0 <= j < |ops| && j != i && Torn(s.pcs[j]) ==> sent[j].filename !in Files(sent[i])
    ensures !Torn(s.pcs[i]) ==> Files(sent[i]) !! TornFiles(sent, s)
  {
    forall j | 0 <= j < |ops| && j != i && Torn(s.pcs[j]) ensures sent[j].filename !in Files(sent[i]) {
      WorkersApart(w, g, d0, ops, sent, i, j);
    }
  }

  lemma ApplyFrame(w: World, d: Disk, q: Patch, files: set<Bytes>)
    requires Files(q) !! files
    ensures Agree(Apply(w, d, q).1, d, files)
  {
  }

  lemma ApplyLocal(w: World, d: Disk, e: Disk, q: Patch)
    requires Agree(d, e, Files(q))
    ensures Agree(Apply(w, d, q).1, Apply(w, e, q).1, Files(q))
  {
  }

  // ------------------------------------------------- steps keep the invariant

  lemma FinishesOne(ops: seq<Patch>, s: State, s': State, i: nat, p: Patch)
    requires NoDup(ops) && i < |ops| == |s.pcs| && !s.pcs[i].Finished? && s'.pcs == s.pcs[i := Finished]
    ensures Unfinished(ops, s', p) <==> Unfinished(ops, s, p) && p != ops[i]
  {
    if Unfinished(ops, s, p) && p != ops[i] {
      var j :| 0 <= j < |ops| && ops[j] == p && !s.pcs[j].Finished?;
      assert !s'.pcs[j].Finished?;
    }
    if Unfinished(ops, s', p) {
      var j :| 0 <= j < |ops| && ops[j] == p && !s'.pcs[j].Finished?;
      assert !s.pcs[j].Finished?;
    }
  }

  lemma FinishesNone(ops: seq<Patch>, s: State, s': State, i: nat, pc: Pc, p: Patch)
    requires i < |ops| == |s.pcs| && !s.pcs[i].Finished? && !pc.Finished? && s'.pcs == s.pcs[i := pc]
    ensures Unfinished(ops, s', p) <==> Unfinished(ops, s, p)
  {
    if Unfinished(ops, s, p) {
      var j :| 0 <= j < |ops| && ops[j] == p && !s.pcs[j].Finished?;
      assert !s'.pcs[j].Finished?;
    }
    if Unfinished(ops, s', p) {
      var j :| 0 <= j < |ops| && ops[j] == p && !s'.pcs[j].Finished?;
      assert !s.pcs[j].Finished?;
    }
  }

  lemma FinishKeepsOther(w: World, g: Disk, d0: Disk, ops: seq<Patch>, sent: seq<Patch>, s: State, s': State, i: nat, j: nat, v: Disk, v': Disk)
    requires Setup(w, g, d0, ops, sent) && i < |ops| && j < |ops| == |s.pcs| && i != j
    requires WorkerInv(w, d0, v, sent[j], s, s.pcs[j]) && v' == Apply(w, v, sent[i]).1
    requires forall f :: f !in Files(sent[i]) ==> Agree(s'.disk, s.disk, {f})
    ensures WorkerInv(w, d0, v', sent[j], s', s.pcs[j])
  {
    WorkersApart(w, g, d0, ops, sent, i, j);
    ApplyFrame(w, v, sent[i], Files(sent[j]));
    assert sent[j].filename in Files(sent[j]);
    assert Agree(s'.disk, s.disk, {sent[j].filename});
  }

  lemma FinishKeepsWorker(w: World, g: Disk, d0: Disk, ops: seq<Patch>, sent: seq<Patch>, s: State, s': State, i: nat, j: nat)
    requires Setup(w, g, d0, ops, sent) && |s.pcs| == |sent| && i < |ops| && j < |ops|
    requires WorkerInv(w, d0, Undone(d0, sent, s), sent[j], s, s.pcs[j])
    requires !s.pcs[i].Finished? && s'.pcs == s.pcs[i := Finished]
    requires Undone(d0, sent, s') == Apply(w, Undone(d0, sent, s), sent[i]).1
    requires forall f :: f !in Files(sent[i]) ==> Agree(s'.disk, s.disk, {f})
    ensures WorkerInv(w, d0, Undone(d0, sent, s'), sent[j], s', s'.pcs[j])
  {
    if j == i {
      ApplyLocal(w, Undone(d0, sent, s), d0, sent[i]);
    } else {
      FinishKeepsOther(w, g, d0, ops, sent, s, s', i, j, Undone(d0, sent, s), Undone(d0, sent, s'));
    }
  }

  /** A worker that finishes by doing to the undone directory what its operation does in one go. */
  lemma FinishKeepsInv(w: World, g: Disk, d0: Disk, ops: seq<Patch>, sent: seq<Patch>, s: State, s': State, i: nat)
    requires Inv(w, g, d0, ops, sent, s) && Setup(w, g, d0, ops, sent)
    requires i < |ops| && !s.pcs[i].Finished? && s'.pcs == s.pcs[i := Finished]
    requires Apply(w, Undone(d0, sent, s), sent[i]) == (OK, Undone(d0, sent, s'))
    requires forall f :: f !in Files(sent[i]) ==> Agree(s'.disk, s.disk, {f})
    ensures Inv(w, g, d0, ops, sent, s')
  {
    var v, v' := Undone(d0, sent, s), Undone(d0, sent, s');
    WorkerPending(w, g, d0, ops, sent, s, i);
    ServedDischarges(w, g, v, ops[i], sent[i]);
    forall p ensures Pending(w, g, v', p) <==> Unfinished(ops, s', p) {
      FinishesOne(ops, s, s', i, p);
    }
    forall j | 0 <= j < |sent| ensures WorkerInv(w, d0, v', sent[j], s', s'.pcs[j]) {
      FinishKeepsWorker(w, g, d0, ops, sent, s, s', i, j);
    }
  }

  lemma QuietKeepsWorker(w: World, g: Disk, d0: Disk, ops: seq<Patch>, sent: seq<Patch>, s: State, s': State, i: nat, j: nat, v: Disk)
    requires Setup(w, g, d0, ops, sent) && i < |ops| && j < |ops| == |s.pcs| == |s'.pcs| && i != j
    requires WorkerInv(w, d0, v, sent[j], s, s.pcs[j]) && s'.pcs[j] == s.pcs[j]
    requires s'.disk == s.disk || forall f :: f != sent[i].filename ==> Agree(s'.disk, s.disk, {f})
    ensures WorkerInv(w, d0, v, sent[j], s', s'.pcs[j])
  {
    WorkersApart(w, g, d0, ops, sent, i, j);
    assert sent[i].filename in Files(sent[i]) && sent[j].filename in Files(sent[j]);
    assert s'.disk != s.disk ==> Agree(s'.disk, s.disk, {sent[j].filename});
  }

  /** A step that does not change the undone directory or another worker's file. */
  lemma QuietKeepsInv(w: World, g: Disk, d0: Disk, ops: seq<Patch>, sent: seq<Patch>, s: State, s': State, i: nat, pc: Pc)
    requires Inv(w, g, d0, ops, sent, s) && Setup(w, g, d0, ops, sent)
    requires i < |ops| && !s.pcs[i].Finished? && !pc.Finished? && s'.pcs == s.pcs[i := pc]
    requires Undone(d0, sent, s') == Undone(d0, sent, s)
    requires s'.disk == s.disk || (Torn(pc) && forall f :: f != sent[i].filename ==> Agree(s'.disk, s.disk, {f}))
    requires WorkerInv(w, d0, Undone(d0, sent, s), sent[i], s', pc)
    ensures Inv(w, g, d0, ops, sent, s')
  {
    var v := Undone(d0, sent, s);
    forall p ensures Unfinished(ops, s', p) <==> Unfinished(ops, s, p) {
      FinishesNone(ops, s, s', i, pc, p);
    }
    forall j | 0 <= j < |sent| ensures WorkerInv(w, d0, v, sent[j], s', s'.pcs[j]) {
      if j != i { QuietKeepsWorker(w, g, d0, ops, sent, s, s', i, j, v); }
    }
  }

  lemma TornUnchanged(sent: seq<Patch>, s: State, s': State, i: nat, pc: Pc)
    requires |sent| == |s.pcs| && i < |sent| && s'.pcs == s.pcs[i := pc]
    requires Torn(pc) == Torn(s.pcs[i])
    ensures TornFiles(sent, s') == TornFiles(sent, s)
  {
    assert forall j :: 0 <= j < |sent| ==> Torn(s'.pcs[j]) == Torn(s.pcs[j]);
  }

  // What a change of one file does to the undone directory.

  lemma UndoneWrite(d0: Disk, sent: seq<Patch>, s: State, s': State, f: Bytes, c: Bytes)
    requires |sent| == |s.pcs| == |s'.pcs| && TornFiles(sent, s') == TornFiles(sent, s) && f !in TornFiles(sent, s)
    requires s'.disk == s.disk[f := c]
    ensures Undone(d0, sent, s') == Undone(d0, sent, s)[f := c]
  {
  }

  lemma UndoneRemove(d0: Disk, sent: seq<Patch>, s: State, s': State, f: Bytes)
    requires |sent| == |s.pcs| == |s'.pcs| && TornFiles(sent, s') == TornFiles(sent, s) && f !in TornFiles(sent, s)
    requires s'.disk == s.disk - {f}
    ensures Undone(d0, sent, s') == Undone(d0, sent, s) - {f}
    ensures f in s.disk <==> f in Undone(d0, sent, s)
    ensures f in s.disk ==> Undone(d0, sent, s)[f] == s.disk[f]
  {
  }

  lemma UndoneFinish(d0: Disk, sent: seq<Patch>, s: State, s': State, f: Bytes)
    requires |sent| == |s.pcs| == |s'.pcs| && TornFiles(sent, s') == TornFiles(sent, s) - {f}
    requires s'.disk == s.disk && f in s.disk
    ensures Undone(d0, sent, s') == Undone(d0, sent, s)[f := s.disk[f]]
  {
  }

  lemma UndoneOpen(d0: Disk, sent: seq<Patch>, s: State, s': State, f: Bytes, c: Bytes)
    requires |sent| == |s.pcs| == |s'.pcs| && TornFiles(sent, s') == TornFiles(sent, s) + {f}
    requires s'.disk == s.disk[f := c] && Agree(Undone(d0, sent, s), d0, {f})
    ensures Undone(d0, sent, s') == Undone(d0, sent, s)
  {
  }

  lemma TornFinished(sent: seq<Patch>, s: State, s': State, i: nat)
    requires |sent| == |s.pcs| && i < |sent| && s'.pcs == s.pcs[i := Finished]
    requires forall j :: 0 <= j < |sent| && j != i && Torn(s.pcs[j]) ==> sent[j].filename != sent[i].filename
    ensures TornFiles(sent, s') == TornFiles(sent, s) - {sent[i].filename}
  {
    var torn, torn' := TornFiles(sent, s), TornFiles(sent, s');
    forall f | f in torn && f != sent[i].filename ensures f in torn' {
      var j :| 0 <= j < |sent| && Torn(s.pcs[j]) && sent[j].filename == f;
      assert Torn(s'.pcs[j]);
    }
  }

  lemma TornOpened(sent: seq<Patch>, s: State, s': State, i: nat, m: nat)
    requires |sent| == |s.pcs| && i < |sent| && s'.pcs == s.pcs[i := Writing(m)]
    ensures TornFiles(sent, s') == TornFiles(sent, s) + {sent[i].filename}
  {
    var torn, torn' := TornFiles(sent, s), TornFiles(sent, s');
    assert Torn(s'.pcs[i]);
    forall f | f in torn ensures f in torn' {
      var j :| 0 <= j < |sent| && Torn(s.pcs[j]) && sent[j].filename == f;
      assert Torn(s'.pcs[j]);
    }
  }

  lemma UpdateCommits(w: World, g: Disk, d0: Disk, ops: seq<Patch>, sent: seq<Patch>, s: State, s': State, i: nat)
    requires Inv(w, g, d0, ops, sent, s) && Setup(w, g, d0, ops, sent)
    requires i < |ops| && s.pcs[i].Loaded? && sent[i].op == Update
    requires s' == State(s.disk[sent[i].filename := s.pcs[i].next], s.pcs[i := Finished])
    ensures Inv(w, g, d0, ops, sent, s')
  {
    assert Apply(w, Undone(d0, sent, s), sent[i]) == (OK, Undone(d0, sent, s')) by {
      assert WorkerInv(w, d0, Undone(d0, sent, s), sent[i], s, s.pcs[i]);
      assert sent[i].filename in Files(sent[i]);
      NotTorn(w, g, d0, ops, sent, s, i);
      TornUnchanged(sent, s, s', i, Finished);
      UndoneWrite(d0, sent, s, s', sent[i].filename, s.pcs[i].next);
    }
    FinishKeepsInv(w, g, d0, ops, sent, s, s', i);
  }

  lemma RenameEffect(w: World, g: Disk, v: Disk, p: Patch, q: Patch)
    requires w.Lawful() && Compatible(w, g, v) && Pending(w, g, v, p) && Serves(w, p, q) && q.op == Rename
    ensures q.filename in v && q.data !in v
    ensures Apply(w, v, q) == (OK, (v - {q.filename})[q.data := v[q.filename]])
  {
    var o, a :| NeedsRename(w, g, v, o, a) && p == RenameOf(o, a);
    RenameReplaces(w, g, v, o, a);
  }

  lemma UndoneMove(d0: Disk, sent: seq<Patch>, s: State, s': State, i: nat, f: Bytes, t: Bytes)
    requires |sent| == |s.pcs| && i < |sent| && !Torn(s.pcs[i]) && s'.pcs == s.pcs[i := Finished]
    requires {f, t} !! TornFiles(sent, s) && f in s.disk && s'.disk == (s.disk - {f})[t := s.disk[f]]
    ensures f in Undone(d0, sent, s)
    ensures Undone(d0, sent, s') == (Undone(d0, sent, s) - {f})[t := Undone(d0, sent, s)[f]]
  {
    var mid := State(s.disk - {f}, s'.pcs);
    TornUnchanged(sent, s, mid, i, Finished);
    TornUnchanged(sent, s, s', i, Finished);
    UndoneRemove(d0, sent, s, mid, f);
    UndoneWrite(d0, sent, mid, s', t, s.disk[f]);
  }

  lemma MoveFrame(d: Disk, q: Patch)
    requires q.op == Rename && q.filename in d
    ensures forall f :: f !in Files(q) ==> Agree((d - {q.filename})[q.data := d[q.filename]], d, {f})
  {
  }

  lemma RenameUndone(w: World, g: Disk, d0: Disk, ops: seq<Patch>, sent: seq<Patch>, s: State, s': State, i: nat)
    requires Inv(w, g, d0, ops, sent, s) && Setup(w, g, d0, ops, sent)
    requires i < |ops| && s.pcs[i].TargetFree? && sent[i].op == Rename && sent[i].filename in s.disk
    requires s' == State((s.disk - {sent[i].filename})[sent[i].data := s.disk[sent[i].filename]], s.pcs[i := Finished])
    ensures Apply(w, Undone(d0, sent, s), sent[i]) == (OK, Undone(d0, sent, s'))
  {
    WorkerPending(w, g, d0, ops, sent, s, i);
    RenameEffect(w, g, Undone(d0, sent, s), ops[i], sent[i]);
    NotTorn(w, g, d0, ops, sent, s, i);
    UndoneMove(d0, sent, s, s', i, sent[i].filename, sent[i].data);
  }

  lemma RenameCommits(w: World, g: Disk, d0: Disk, ops: seq<Patch>, sent: seq<Patch>, s: State, s': State, i: nat)
    requires Inv(w, g, d0, ops, sent, s) && Setup(w, g, d0, ops, sent)
    requires i < |ops| && s.pcs[i].TargetFree? && sent[i].op == Rename && sent[i].filename in s.disk
    requires s' == State((s.disk - {sent[i].filename})[sent[i].data := s.disk[sent[i].filename]], s.pcs[i := Finished])
    ensures Inv(w, g, d0, ops, sent, s')
  {
    RenameUndone(w, g, d0, ops, sent, s, s', i);
    MoveFrame(s.disk, sent[i]);
    FinishKeepsInv(w, g, d0, ops, sent, s, s', i);
  }

  lemma RemoveCommits(w: World, g: Disk, d0: Disk, ops: seq<Patch>, sent: seq<Patch>, s: State, s': State, i: nat)
    requires Inv(w, g, d0, ops, sent, s) && Setup(w, g, d0, ops, sent)
    requires i < |ops| && s.pcs[i].Ready? && sent[i].op == Remove
    requires s' == State(s.disk - {sent[i].filename}, s.pcs[i := Finished])
    ensures Inv(w, g, d0, ops, sent, s')
  {
    NotTorn(w, g, d0, ops, sent, s, i);
    TornUnchanged(sent, s, s', i, Finished);
    UndoneRemove(d0, sent, s, s', sent[i].filename);
    FinishKeepsInv(w, g, d0, ops, sent, s, s', i);
  }

  lemma CreateCommits(w: World, g: Disk, d0: Disk, ops: seq<Patch>, sent: seq<Patch>, s: State, s': State, i: nat)
    requires Inv(w, g, d0, ops, sent, s) && Setup(w, g, d0, ops, sent)
    requires i < |ops| && sent[i].op == Create && s.pcs[i].Writing? && s.pcs[i].written >= |sent[i].data|
    requires s' == s.(pcs := s.pcs[i := Finished])
    ensures Inv(w, g, d0, ops, sent, s')
  {
    var v, q := Undone(d0, sent, s), sent[i];
    assert WorkerInv(w, d0, v, q, s, s.pcs[i]);
    assert s.disk[q.filename] == q.data;
    NotTorn(w, g, d0, ops, sent, s, i);
    TornFinished(sent, s, s', i);
    UndoneFinish(d0, sent, s, s', q.filename);
    FinishKeepsInv(w, g, d0, ops, sent, s, s', i);
  }

  /** Opening the file and writing more of it leaves the undone directory alone. */
  lemma WriteKeepsInv(w: World, g: Disk, d0: Disk, ops: seq<Patch>, sent: seq<Patch>, s: State, s': State, i: nat, m: nat)
    requires Inv(w, g, d0, ops, sent, s) && Setup(w, g, d0, ops, sent)
    requires i < |ops| && sent[i].op == Create && (s.pcs[i].Ready? || s.pcs[i].Writing?) && m <= |sent[i].data|
    requires s' == State(s.disk[sent[i].filename := sent[i].data[..m]], s.pcs[i := Writing(m)])
    ensures Inv(w, g, d0, ops, sent, s')
  {
    var v, q := Undone(d0, sent, s), sent[i];
    assert WorkerInv(w, d0, v, q, s, s.pcs[i]);
    TornOpened(sent, s, s', i, m);
    assert q.filename in Files(q);
    UndoneOpen(d0, sent, s, s', q.filename, q.data[..m]);
    QuietKeepsInv(w, g, d0, ops, sent, s, s', i, Writing(m));
  }

  lemma LocalKeepsInv(w: World, g: Disk, d0: Disk, ops: seq<Patch>, sent: seq<Patch>, s: State, s': State, i: nat, pc: Pc)
    requires Inv(w, g, d0, ops, sent, s) && Setup(w, g, d0, ops, sent)
    requires i < |ops| && !s.pcs[i].Finished? && !pc.Finished? && s' == s.(pcs := s.pcs[i := pc])
    requires Torn(pc) == Torn(s.pcs[i]) && !pc.Writing?
    requires pc.Loaded? ==> sent[i].op == Update && sent[i].filename in d0
                            && Patched(w, d0[sent[i].filename], sent[i]) == (OK, pc.next)
    requires pc.TargetFree? ==> sent[i].op == Rename
    ensures Inv(w, g, d0, ops, sent, s')
  {
    var v := Undone(d0, sent, s);
    assert WorkerInv(w, d0, v, sent[i], s, s.pcs[i]);
    TornUnchanged(sent, s, s', i, pc);
    QuietKeepsInv(w, g, d0, ops, sent, s, s', i, pc);
  }

  /** A worker that is not writing sees its own files as they are in the undone directory, so its
      operation would succeed now. */
  lemma OwnFiles(w: World, g: Disk, d0: Disk, ops: seq<Patch>, sent: seq<Patch>, s: State, i: nat)
    requires Inv(w, g, d0, ops, sent, s) && Setup(w, g, d0, ops, sent)
    requires i < |ops| && !s.pcs[i].Finished? && !Torn(s.pcs[i])
    ensures Agree(s.disk, Undone(d0, sent, s), Files(sent[i]))
    ensures Answers(w, ops[i], sent[i]) ==> Apply(w, Undone(d0, sent, s), sent[i]).0 == OK
    ensures sent[i].op != NoOp && sent[i].op != Unknown
  {
    NotTorn(w, g, d0, ops, sent, s, i);
    UntornAgree(d0, sent, s, Files(sent[i]));
    WorkerPending(w, g, d0, ops, sent, s, i);
    ServedDischarges(w, g, Undone(d0, sent, s), ops[i], sent[i]);
    ServedKind(w, g, Undone(d0, sent, s), ops[i], sent[i]);
  }

  lemma UntornAgree(d0: Disk, sent: seq<Patch>, s: State, files: set<Bytes>)
    requires |sent| == |s.pcs| && files !! TornFiles(sent, s)
    ensures Agree(s.disk, Undone(d0, sent, s), files)
  {
  }

  lemma ServedKind(w: World, g: Disk, d: Disk, p: Patch, q: Patch)
    requires Pending(w, g, d, p) && Serves(w, p, q)
    ensures q.op != NoOp && q.op != Unknown
  {
  }

  lemma AdvanceKeepsInv(w: World, g: Disk, d0: Disk, ops: seq<Patch>, sent: seq<Patch>, s: State, s': State, i: nat)
    requires Inv(w, g, d0, ops, sent, s) && Setup(w, g, d0, ops, sent)
    requires i < |ops| && Advance(w, sent, s, s', i)
    ensures Inv(w, g, d0, ops, sent, s')
    ensures Answers(w, ops[i], sent[i]) ==> !s'.pcs[i].Failed?
  {
    var q, pc, v := sent[i], s.pcs[i], Undone(d0, sent, s);
    assert WorkerInv(w, d0, v, q, s, pc);
    if !Torn(pc) { OwnFiles(w, g, d0, ops, sent, s, i); }
    match q.op
    case Remove => RemoveCommits(w, g, d0, ops, sent, s, s', i);
    case Create =>
      if pc.Ready? {
        assert q.data[..0] == "";
        WriteKeepsInv(w, g, d0, ops, sent, s, s', i, 0);
      } else if pc.written < |q.data| {
        var m :| pc.written < m <= |q.data| && s' == State(s.disk[q.filename := q.data[..m]], s.pcs[i := Writing(m)]);
        WriteKeepsInv(w, g, d0, ops, sent, s, s', i, m);
      } else {
        CreateCommits(w, g, d0, ops, sent, s, s', i);
      }
    case Rename =>
      if pc.Ready? {
        LocalKeepsInv(w, g, d0, ops, sent, s, s', i, TargetFree);
      } else {
        RenameCommits(w, g, d0, ops, sent, s, s', i);
      }
    case Update =>
      if pc.Ready? {
        assert q.filename in Files(q);
        LocalKeepsInv(w, g, d0, ops, sent, s, s', i, s'.pcs[i]);
      } else {
        UpdateCommits(w, g, d0, ops, sent, s, s', i);
      }
  }

  lemma NextKeepsInv(w: World, g: Disk, d0: Disk, ops: seq<Patch>, sent: seq<Patch>, s: State, s': State)
    requires Inv(w, g, d0, ops, sent, s) && Setup(w, g, d0, ops, sent) && Next(w, sent, s, s')
    ensures Inv(w, g, d0, ops, sent, s')
  {
    var i: nat :| i < |sent| && (Advance(w, sent, s, s', i) || OsError(s, s', i));
    if Advance(w, sent, s, s', i) {
      AdvanceKeepsInv(w, g, d0, ops, sent, s, s', i);
    } else {
      LocalKeepsInv(w, g, d0, ops, sent, s, s', i, s'.pcs[i]);
    }
  }

  lemma InitInv(w: World, g: Disk, d0: Disk, ops: seq<Patch>, sent: seq<Patch>)
    requires Setup(w, g, d0, ops, sent)
    ensures Inv(w, g, d0, ops, sent, Init(d0, sent))
  {
    var s := Init(d0, sent);
    assert TornFiles(sent, s) == {};
    assert Undone(d0, sent, s) == d0;
    forall p ensures Pending(w, g, d0, p) <==> Unfinished(ops, s, p) {
      if p in ops {
        var i :| 0 <= i < |ops| && ops[i] == p;
        assert !s.pcs[i].Finished?;
      }
    }
  }

  lemma {:induction false} RunInv(w: World, g: Disk, d0: Disk, ops: seq<Patch>, sent: seq<Patch>, run: seq<State>, k: nat)
    requires Setup(w, g, d0, ops, sent) && IsRun(w, d0, sent, run) && k < |run|
    ensures Inv(w, g, d0, ops, sent, run[k])
  {
    if k == 0 {
      InitInv(w, g, d0, ops, sent);
    } else {
      RunInv(w, g, d0, ops, sent, run, k - 1);
      NextKeepsInv(w, g, d0, ops, sent, run[k - 1], run[k]);
    }
  }
}
