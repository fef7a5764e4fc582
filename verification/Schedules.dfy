/** How the workers of a Patch call are scheduled (pkg/patch/client.go:225-256), and when a schedule is long enough for
    all of them to end. */
module Schedules {
  import opened Common
  import opened Manifests
  import opened PluginWorld
  import opened PatchClient
  import opened Convergence
  import opened PatchSteps
  import opened PatchRuns

  /** One choice of the scheduler: a worker's next system call succeeds, a write by that many more bytes, or
      fails. A choice of a worker that has ended does nothing. */
  datatype Move = Go(worker: nat, more: nat) | Fail(worker: nat, permission: bool) {
    /** What the failure of a system call is reported as. */
    function Code(): PatchClient.Code { if Fail? && permission then PatchClient.Internal else PatchClient.Unavailable }
  }

  predicate Ended(pc: Pc) {
    pc.Finished? || pc.Failed?
  }

  predicate AllEnded(s: State) {
    forall i :: 0 <= i < |s.pcs| ==> Ended(s.pcs[i])
  }

  /** Where a worker can be that has not ended, by its operation. */
  predicate Fits(op: Op, pc: Pc) {
    match pc
    case Ready => true
    case Loaded(_) => op == Update
    case TargetFree => op == Rename
    case Writing(_) => op == Create
    case _ => true
  }

  ghost predicate AllFit(sent: seq<Patch>, pcs: seq<Pc>) {
    |pcs| == |sent| && forall i :: 0 <= i < |sent| ==> Fits(sent[i].op, pcs[i])
  }

  // ------------------------------------------------- how long a worker takes

  /** How often the worker is chosen. */
  function Moves(schedule: seq<Move>, i: nat): nat {
    if schedule == [] then 0
    else Moves(schedule[..|schedule| - 1], i) + if schedule[|schedule| - 1].worker == i then 1 else 0
  }

  /** How many system calls a worker makes at most until it ends. */
  function Left(q: Patch, pc: Pc): nat {
    if Ended(pc) then 0
    else match q.op
      case Create => if pc.Ready? then |q.data| + 2 else if pc.Writing? && pc.written < |q.data| then |q.data| - pc.written + 1 else 1
      case Update => if pc.Ready? then 2 else 1
      case Rename => if pc.Ready? then 2 else 1
      case _ => 1
  }

  /** Every worker has ended or is far enough on. */
  ghost predicate OnTime(sent: seq<Patch>, pcs: seq<Pc>, schedule: seq<Move>) {
    |pcs| == |sent| && forall i :: 0 <= i < |sent| ==> InTime(sent[i], pcs[i], Moves(schedule, i))
  }

  predicate InTime(q: Patch, pc: Pc, moves: nat) {
    Ended(pc) || Left(q, pc) + moves <= Left(q, Ready)
  }

  lemma AdvanceShortens(w: World, sent: seq<Patch>, s: State, s': State, i: nat)
    requires i < |sent| == |s.pcs| && !Ended(s.pcs[i]) && Fits(sent[i].op, s.pcs[i]) && Advance(w, sent, s, s', i)
    ensures |s'.pcs| == |s.pcs| && Left(sent[i], s'.pcs[i]) < Left(sent[i], s.pcs[i])
  {
  }

  lemma StillOnTime(sent: seq<Patch>, pcs: seq<Pc>, schedule: seq<Move>, n: nat, next: Pc)
    requires n < |schedule| && OnTime(sent, pcs, schedule[..n])
    ensures var i := schedule[n].worker;
            if i >= |pcs| || Ended(pcs[i]) then OnTime(sent, pcs, schedule[..n + 1])
            else Left(sent[i], next) < Left(sent[i], pcs[i]) ==> OnTime(sent, pcs[i := next], schedule[..n + 1])
  {
    assert schedule[..n + 1][..n] == schedule[..n];
    var i := schedule[n].worker;
    forall j | 0 <= j < |sent| ensures InTime(sent[j], pcs[j], Moves(schedule[..n], j)) { }
  }

  /** Every worker is chosen as often as it may have to be. */
  predicate LongEnough(schedule: seq<Move>, sent: seq<Patch>) {
    forall i :: 0 <= i < |sent| ==> Moves(schedule, i) >= Left(sent[i], Ready)
  }

  lemma AllEnd(sent: seq<Patch>, pcs: seq<Pc>, schedule: seq<Move>)
    requires OnTime(sent, pcs, schedule) && LongEnough(schedule, sent)
    ensures forall i :: 0 <= i < |pcs| ==> Ended(pcs[i])
  {
    forall i | 0 <= i < |pcs| ensures Ended(pcs[i]) { assert InTime(sent[i], pcs[i], Moves(schedule, i)); }
  }

  // ------------------------------------------------- what fails

  /** A system call fails that way in the schedule. */
  predicate FailsWith(schedule: seq<Move>, permission: bool) {
    exists n :: 0 <= n < |schedule| && schedule[n].Fail? && schedule[n].permission == permission
  }

  /** The error is that of a failing system call. */
  predicate Blamed(schedule: seq<Move>, code: PatchClient.Code) {
    (code == PatchClient.Internal && FailsWith(schedule, true)) || (code == PatchClient.Unavailable && FailsWith(schedule, false))
  }

  /** A worker fails although its system call succeeds. */
  ghost predicate GoFailed(w: World, sent: seq<Patch>, run: seq<State>) {
    exists k: nat, i: nat :: GoFailsAt(w, sent, run, k, i)
  }

  ghost predicate GoFailsAt(w: World, sent: seq<Patch>, run: seq<State>, k: nat, i: nat) {
    && k + 1 < |run| && i < |sent| == |run[k].pcs| == |run[k + 1].pcs|
    && Advance(w, sent, run[k], run[k + 1], i) && run[k + 1].pcs[i].Failed?
  }

  /** That does not happen between compatible directories if all data is correct. */
  lemma NoGoFails(w: World, g: Disk, d: Disk, ops: seq<Patch>, sent: seq<Patch>, run: seq<State>)
    requires Setup(w, g, d, ops, sent) && IsRun(w, d, sent, run)
    requires forall i :: 0 <= i < |ops| ==> Answers(w, ops[i], sent[i])
    ensures !GoFailed(w, sent, run)
  {
    if GoFailed(w, sent, run) {
      var k: nat, i: nat :| GoFailsAt(w, sent, run, k, i);
      ProgressNeverFails(w, g, d, ops, sent, run, k, run[k + 1], i);
    }
  }

  // ------------------------------------------------- long enough for two directories

  /** Enough choices, of enough workers, for whatever syncing the second directory to the first may take. */
  predicate Complete(schedule: seq<Move>, g: Disk, d: Disk) {
    forall i :: 0 <= i < |g| + |d| ==> Moves(schedule, i) >= 2 && forall f :: f in g ==> Moves(schedule, i) >= |g[f]| + 2
  }

  /** Different names in a set are no more than the set has. */
  lemma {:induction false} NamesCount(names: seq<Bytes>, all: set<Bytes>)
    requires NoDup(names) && forall i :: 0 <= i < |names| ==> names[i] in all
    ensures |names| <= |all|
  {
    if names != [] {
      var last := |names| - 1;
      NamesCount(names[..last], all - {names[last]});
    }
  }

  lemma ListedCount(w: World, d: Disk, m: seq<Entry>)
    requires NoDup(m) && forall e :: e in m ==> w.Has(d, e)
    ensures |m| <= |d|
  {
    var names := seq(|m|, i requires 0 <= i < |m| => m[i].filename);
    forall i | 0 <= i < |m| ensures w.Has(d, m[i]) { assert m[i] in m; }
    NamesCount(names, d.Keys);
    assert |d.Keys| == |d|;
  }

  lemma {:induction false} GatewayOpsLength(ours: seq<Entry>, agent: seq<Entry>)
    ensures |GatewayOps(ours, agent)| <= |ours|
  {
    if ours != [] { GatewayOpsLength(ours[..|ours| - 1], agent); }
  }

  lemma {:induction false} AgentOpsLength(theirs: seq<Entry>, gateway: seq<Entry>)
    ensures |AgentOps(theirs, gateway)| <= |theirs|
  {
    if theirs != [] { AgentOpsLength(theirs[..|theirs| - 1], gateway); }
  }

  /** There are no more operations than files. */
  lemma OpsCount(w: World, g: Disk, d: Disk, ours: seq<Entry>, theirs: seq<Entry>, ops: seq<Patch>)
    requires w.Lists(g, ours) && w.Lists(d, theirs) && Permutes(JoinOps(ours, theirs), ops)
    ensures |ops| <= |g| + |d|
  {
    ListedCount(w, g, ours);
    ListedCount(w, d, theirs);
    GatewayOpsLength(ours, theirs);
    AgentOpsLength(theirs, ours);
    assert |ops| == |multiset(ops)| == |JoinOps(ours, theirs)|;
  }

  /** A worker that writes a whole file writes one of the gateway's. */
  lemma WritesGatewayFile(w: World, g: Disk, d: Disk, p: Patch, q: Patch) returns (f: Bytes)
    requires w.Lawful() && Pending(w, g, d, p) && Answers(w, p, q) && q.op == Create
    ensures f in g && q.data == g[f]
  {
    if p.op == Create {
      var o :| NeedsCreate(w, g, d, o) && p == CreateOf(o);
      f := o.filename;
    } else {
      var o, a :| NeedsUpdate(w, g, d, o, a) && p == UpdateOf(o, a);
      f := o.filename;
    }
  }

  lemma CompleteIsLong(w: World, g: Disk, d: Disk, ops: seq<Patch>, sent: seq<Patch>, schedule: seq<Move>)
    requires Setup(w, g, d, ops, sent) && |ops| <= |g| + |d| && Complete(schedule, g, d)
    requires forall i :: 0 <= i < |ops| ==> Answers(w, ops[i], sent[i])
    ensures LongEnough(schedule, sent)
  {
    forall i | 0 <= i < |sent| ensures Moves(schedule, i) >= Left(sent[i], Ready) {
      assert ops[i] in ops;
      if sent[i].op == Create { var f := WritesGatewayFile(w, g, d, ops[i], sent[i]); }
    }
  }
}
