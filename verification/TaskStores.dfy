/** A whole task store under one controller after another (pkg/task/controller.go, pkg/task/task.go): every task
    goes through a run of its own, whatever happens to the others and however often the controller restarts. */
module TaskStores {
  import opened Common
  import opened TaskStatus
  import opened TaskRuns

  type Store = map<Bytes, State>

  const UNSEEN := State(None, Idle, false, [])

  function StateOf(store: Store, id: Bytes): State {
    if id in store then store[id] else UNSEEN
  }

  /** What a restart meets: the tasks that cannot be cleaned up, and those whose launch cannot read its status. If
      the controller dies before it is through, the tasks it did not reach, and the one whose launch it broke off
      after the first write. */
  datatype Trouble = Trouble(deleteFails: set<Bytes>, unread: set<Bytes>, unreached: set<Bytes>, halfway: Option<Bytes>)

  datatype Op = On(id: Bytes, step: Step) | Restart(trouble: Trouble)

  function AccessTo(trouble: Trouble, id: Bytes): Access {
    if id in trouble.unread then Unavailable else Answered
  }

  /** What a restart of the controller is for one task. */
  function RestartSteps(s: State, trouble: Trouble, id: Bytes): seq<Step> {
    [Crash] +
    if s.stored.None? || id in trouble.unreached then []
    else if Resumable(s.stored.value.state) then
      [Relaunch(AccessTo(trouble, id))] + if trouble.halfway == Some(id) then [] else [LogPending]
    else if Terminal(s.stored.value.state) && id !in trouble.deleteFails then [CleanUp]
    else []
  }

  /** What a restart leaves of a status. */
  function ResumedBy(prev: Status, trouble: Trouble, id: Bytes): Option<Status> {
    if id in trouble.unreached then Some(prev)
    else if trouble.halfway == Some(id) && Resumable(prev.state) then Prepared(Some(prev), prev.metadata, AccessTo(trouble, id))
    else Resumed(prev, id in trouble.deleteFails, AccessTo(trouble, id))
  }

  /** The task's own steps in an operation on the store. */
  function StepsOf(store: Store, op: Op, id: Bytes): seq<Step> {
    match op
    case On(other, step) => if other == id then [step] else []
    case Restart(trouble) => RestartSteps(StateOf(store, id), trouble, id)
  }

  ghost predicate AllEnabled(s: State, steps: seq<Step>)
    decreases |steps|
  {
    steps == [] || (Enabled(s, steps[0]) && AllEnabled(Next(s, steps[0]), steps[1..]))
  }

  function Play(s: State, steps: seq<Step>): State
    decreases |steps|
  {
    if steps == [] || !Enabled(s, steps[0]) then s else Play(Next(s, steps[0]), steps[1..])
  }

  predicate CanDo(store: Store, op: Op) {
    op.On? ==> Enabled(StateOf(store, op.id), op.step) && !op.step.Relaunch? && !op.step.CleanUp?
  }

  function NextStore(store: Store, op: Op): Store {
    match op
    case On(id, step) => store[id := Play(StateOf(store, id), [step])]
    case Restart(trouble) => map id | id in store :: Play(store[id], RestartSteps(store[id], trouble, id))
  }

  ghost predicate IsStoreRun(ops: seq<Op>, stores: seq<Store>) {
    && |stores| == |ops| + 1 && stores[0] == map[]
    && forall i :: 0 <= i < |ops| ==> CanDo(stores[i], ops[i]) && stores[i + 1] == NextStore(stores[i], ops[i])
  }

  lemma StoreRunOn(ops: seq<Op>, stores: seq<Store>, op: Op)
    requires IsStoreRun(ops, stores) && CanDo(stores[|ops|], op)
    ensures IsStoreRun(ops + [op], stores + [NextStore(stores[|ops|], op)])
  {
    var ops', stores' := ops + [op], stores + [NextStore(stores[|ops|], op)];
    forall i | 0 <= i < |ops'| ensures CanDo(stores'[i], ops'[i]) && stores'[i + 1] == NextStore(stores'[i], ops'[i]) {
      if i < |ops| { assert stores'[i] == stores[i] && stores'[i + 1] == stores[i + 1] && ops'[i] == ops[i]; }
    }
  }

  // ------------------------------------------------- each task runs on its own

  /** All steps of one task in the first n operations. */
  ghost function AllSteps(ops: seq<Op>, stores: seq<Store>, id: Bytes, n: nat): seq<Step>
    requires |stores| == |ops| + 1 && n <= |ops|
  {
    if n == 0 then [] else AllSteps(ops, stores, id, n - 1) + StepsOf(stores[n - 1], ops[n - 1], id)
  }

  /** The states a sequence of steps goes through after the first. */
  function Trace(s: State, steps: seq<Step>): (r: seq<State>)
    ensures |r| == |steps|
    decreases |steps|
  {
    if steps == [] then []
    else
      var t := if Enabled(s, steps[0]) then Next(s, steps[0]) else s;
      [t] + Trace(t, steps[1..])
  }

  ghost function AllStates(ops: seq<Op>, stores: seq<Store>, id: Bytes, n: nat): (r: seq<State>)
    requires |stores| == |ops| + 1 && n <= |ops|
    ensures |r| == |AllSteps(ops, stores, id, n)| + 1
  {
    if n == 0 then [UNSEEN]
    else AllStates(ops, stores, id, n - 1) + Trace(StateOf(stores[n - 1], id), StepsOf(stores[n - 1], ops[n - 1], id))
  }

  lemma RestartEnabled(s: State, trouble: Trouble, id: Bytes)
    ensures AllEnabled(s, RestartSteps(s, trouble, id))
  {
    var t, steps := Next(s, Crash), RestartSteps(s, trouble, id);
    assert steps[0] == Crash;
    if s.stored.None? || id in trouble.unreached {
      assert steps[1..] == [];
    } else if Resumable(s.stored.value.state) {
      var relaunch := Relaunch(AccessTo(trouble, id));
      RelaunchEnabled(t, relaunch.access);
      assert steps[1..] == if trouble.halfway == Some(id) then [relaunch] else [relaunch, LogPending];
    } else if Terminal(s.stored.value.state) && id !in trouble.deleteFails {
      assert steps[1..] == [CleanUp] && Enabled(t, CleanUp) && [CleanUp][1..] == [];
      assert AllEnabled(Next(t, CleanUp), []);
    } else {
      assert steps[1..] == [];
    }
  }

  /** The launch of a resumed task, whole or broken off. */
  lemma RelaunchEnabled(t: State, access: Access)
    requires Enabled(t, Relaunch(access))
    ensures AllEnabled(t, [Relaunch(access)]) && AllEnabled(t, [Relaunch(access), LogPending])
    ensures Play(t, [Relaunch(access)]) == Next(t, Relaunch(access))
    ensures Play(t, [Relaunch(access), LogPending]) == Next(Next(t, Relaunch(access)), LogPending)
  {
    var relaunch := Relaunch(access);
    var u := Next(t, relaunch);
    assert [relaunch][1..] == [] && AllEnabled(u, []) && Play(u, []) == u;
    assert [relaunch, LogPending][1..] == [LogPending] && Enabled(u, LogPending) && [LogPending][1..] == [];
    assert AllEnabled(Next(u, LogPending), []) && AllEnabled(u, [LogPending]);
    assert Play(Next(u, LogPending), []) == Next(u, LogPending) && Play(u, [LogPending]) == Next(u, LogPending);
  }

  lemma OpEnabled(store: Store, op: Op, id: Bytes)
    requires CanDo(store, op)
    ensures AllEnabled(StateOf(store, id), StepsOf(store, op, id))
    ensures StateOf(NextStore(store, op), id) == Play(StateOf(store, id), StepsOf(store, op, id))
  {
    match op
    case On(other, step) =>
      if other == id { assert [step][1..] == [] && AllEnabled(Next(StateOf(store, id), step), []); }
    case Restart(trouble) =>
      RestartEnabled(StateOf(store, id), trouble, id);
      if id !in store {
        assert RestartSteps(UNSEEN, trouble, id) == [Crash] && [Crash][1..] == [];
        assert Next(UNSEEN, Crash) == UNSEEN && Play(UNSEEN, [Crash]) == Play(UNSEEN, []);
      }
  }

  /** A run goes on with more steps. */
  lemma {:induction false} RunOn(steps: seq<Step>, run: seq<State>, more: seq<Step>)
    requires IsRun(steps, run) && AllEnabled(run[|run| - 1], more)
    ensures IsRun(steps + more, run + Trace(run[|run| - 1], more))
    ensures (run + Trace(run[|run| - 1], more))[|run| + |more| - 1] == Play(run[|run| - 1], more)
    decreases |more|
  {
    var s := run[|run| - 1];
    if more == [] {
      assert steps + more == steps && run + Trace(s, more) == run;
    } else {
      OneOn(steps, run, more[0]);
      RunOn(steps + [more[0]], run + [Next(s, more[0])], more[1..]);
      Regroup(steps, more);
      TraceFirst(run, s, more);
    }
  }

  lemma Regroup<T>(a: seq<T>, b: seq<T>)
    requires b != []
    ensures (a + [b[0]]) + b[1..] == a + b
  {
  }

  lemma TraceFirst(run: seq<State>, s: State, more: seq<Step>)
    requires more != [] && Enabled(s, more[0])
    ensures run + Trace(s, more) == (run + [Next(s, more[0])]) + Trace(Next(s, more[0]), more[1..])
  {
  }

  /** However many restarts and operations on other tasks come between, what happens to one task is one of the
      runs of a single task. */
  lemma {:induction false} Projects(ops: seq<Op>, stores: seq<Store>, id: Bytes, n: nat)
    requires IsStoreRun(ops, stores) && n <= |ops|
    ensures IsRun(AllSteps(ops, stores, id, n), AllStates(ops, stores, id, n))
    ensures AllStates(ops, stores, id, n)[|AllSteps(ops, stores, id, n)|] == StateOf(stores[n], id)
  {
    if n > 0 {
      Projects(ops, stores, id, n - 1);
      OpEnabled(stores[n - 1], ops[n - 1], id);
      GoesOn(AllSteps(ops, stores, id, n - 1), AllStates(ops, stores, id, n - 1), StepsOf(stores[n - 1], ops[n - 1], id),
             StateOf(stores[n - 1], id), StateOf(stores[n], id));
    }
  }

  lemma GoesOn(steps: seq<Step>, run: seq<State>, more: seq<Step>, s: State, t: State)
    requires IsRun(steps, run) && run[|steps|] == s && AllEnabled(s, more) && t == Play(s, more)
    ensures IsRun(steps + more, run + Trace(s, more)) && (run + Trace(s, more))[|steps + more|] == t
  {
    RunOn(steps, run, more);
  }

  lemma {:induction false} StepsPrefix(ops: seq<Op>, stores: seq<Store>, id: Bytes, m: nat, n: nat)
    requires |stores| == |ops| + 1 && m <= n <= |ops|
    ensures AllSteps(ops, stores, id, m) <= AllSteps(ops, stores, id, n)
  {
    if m < n {
      StepsPrefix(ops, stores, id, m, n - 1);
      PrefixMore(AllSteps(ops, stores, id, m), AllSteps(ops, stores, id, n - 1), StepsOf(stores[n - 1], ops[n - 1], id));
    }
  }

  lemma {:induction false} StatesPrefix(ops: seq<Op>, stores: seq<Store>, id: Bytes, m: nat, n: nat)
    requires |stores| == |ops| + 1 && m <= n <= |ops|
    ensures AllStates(ops, stores, id, m) <= AllStates(ops, stores, id, n)
  {
    if m < n {
      StatesPrefix(ops, stores, id, m, n - 1);
      var more := StatesMore(ops, stores, id, n);
      PrefixMore(AllStates(ops, stores, id, m), AllStates(ops, stores, id, n - 1), more);
    }
  }

  lemma StatesMore(ops: seq<Op>, stores: seq<Store>, id: Bytes, n: nat) returns (more: seq<State>)
    requires |stores| == |ops| + 1 && 0 < n <= |ops|
    ensures AllStates(ops, stores, id, n) == AllStates(ops, stores, id, n - 1) + more
  {
    more := Trace(StateOf(stores[n - 1], id), StepsOf(stores[n - 1], ops[n - 1], id));
  }

  lemma PrefixMore<T>(a: seq<T>, b: seq<T>, c: seq<T>)
    requires a <= b
    ensures a <= b + c
  {
  }

  // ------------------------------------------------- what every run of a store gives

  /** In every run of a store, every task's transitions are lawful. */
  lemma StoreHistories(ops: seq<Op>, stores: seq<Store>, id: Bytes, n: nat)
    requires IsStoreRun(ops, stores) && n <= |ops| && StateOf(stores[n], id).stored.Some?
    ensures History(StateOf(stores[n], id).stored.value.transitions)
  {
    Projects(ops, stores, id, n);
    RunInv(AllSteps(ops, stores, id, n), AllStates(ops, stores, id, n), |AllSteps(ops, stores, id, n)|);
  }

  lemma {:induction false} NoLaunchBetween(ops: seq<Op>, stores: seq<Store>, id: Bytes, m: nat, n: nat)
    requires |stores| == |ops| + 1 && m <= n <= |ops|
    requires forall k :: m <= k < n ==> !(ops[k].On? && ops[k].id == id && ops[k].step.Launch?)
    ensures forall k :: |AllSteps(ops, stores, id, m)| <= k < |AllSteps(ops, stores, id, n)| ==> !AllSteps(ops, stores, id, n)[k].Launch?
  {
    if m < n {
      NoLaunchBetween(ops, stores, id, m, n - 1);
      var more := StepsOf(stores[n - 1], ops[n - 1], id);
      assert forall k :: 0 <= k < |more| ==> !more[k].Launch?;
    }
  }

  /** A task's metadata survives any number of restarts, and anything that happens to it or to other tasks but a
      caller's launch of it, for as long as the task is stored. */
  lemma StoreMetadata(ops: seq<Op>, stores: seq<Store>, id: Bytes, m: nat, n: nat)
    requires IsStoreRun(ops, stores) && m <= n <= |ops|
    requires forall k :: m <= k < n ==> !(ops[k].On? && ops[k].id == id && ops[k].step.Launch?)
    requires StateOf(stores[m], id).stored.Some? && StateOf(stores[n], id).stored.Some?
    ensures StateOf(stores[n], id).stored.value.metadata == StateOf(stores[m], id).stored.value.metadata
  {
    Projects(ops, stores, id, m);
    Projects(ops, stores, id, n);
    StepsPrefix(ops, stores, id, m, n);
    StatesPrefix(ops, stores, id, m, n);
    NoLaunchBetween(ops, stores, id, m, n);
    MetadataSurvives(AllSteps(ops, stores, id, n), AllStates(ops, stores, id, n),
                     |AllSteps(ops, stores, id, m)|, |AllSteps(ops, stores, id, n)|);
  }

  /** The operation loses the task's logs and transitions: a clean-up, or a launch that could read a status that
      was neither Running nor Failed. */
  predicate OpClears(store: Store, op: Op, id: Bytes) {
    var s := StateOf(store, id);
    match op
    case On(other, step) => other == id && Clears(s, step)
    case Restart(trouble) =>
      s.stored.Some? && id !in trouble.unreached && ((s.stored.value.state == Pending && id !in trouble.unread)
                         || (Terminal(s.stored.value.state) && id !in trouble.deleteFails))
  }

  lemma RestartStored(s: State, trouble: Trouble, id: Bytes)
    ensures Play(s, RestartSteps(s, trouble, id)).stored ==
            if s.stored.None? then None else ResumedBy(s.stored.value, trouble, id)
  {
    var t, steps := Next(s, Crash), RestartSteps(s, trouble, id);
    if s.stored.None? || id in trouble.unreached {
      assert steps[1..] == [] && Play(t, []) == t;
    } else if Resumable(s.stored.value.state) {
      var relaunch := Relaunch(AccessTo(trouble, id));
      RelaunchEnabled(t, relaunch.access);
      assert steps[1..] == if trouble.halfway == Some(id) then [relaunch] else [relaunch, LogPending];
    } else if Terminal(s.stored.value.state) && id !in trouble.deleteFails {
      assert steps[1..] == [CleanUp] && [CleanUp][1..] == [];
      assert Play(t, [CleanUp]) == Next(t, CleanUp);
    } else {
      assert steps[1..] == [] && Play(t, []) == t;
    }
  }

  lemma OpExtends(store: Store, op: Op, id: Bytes)
    requires CanDo(store, op) && !OpClears(store, op, id) && StateOf(store, id).stored.Some?
    ensures StateOf(NextStore(store, op), id).stored.Some?
    ensures Extends(StateOf(store, id).stored.value, StateOf(NextStore(store, op), id).stored.value)
  {
    OpEnabled(store, op, id);
    var s := StateOf(store, id);
    match op
    case On(other, step) =>
      if other == id {
        assert [step][1..] == [] && Play(s, [step]) == Next(s, step);
        ExtendsUnlessClears(s, step);
      }
    case Restart(trouble) => RestartStored(s, trouble, id);
  }

  /** Over operations that do not lose them, restarts of the controller over running tasks among them, a task's
      logs and transitions only grow by extension. */
  lemma {:induction false} StoreGrows(ops: seq<Op>, stores: seq<Store>, id: Bytes, m: nat, n: nat)
    requires IsStoreRun(ops, stores) && m <= n <= |ops| && StateOf(stores[m], id).stored.Some?
    requires forall k :: m <= k < n ==> !OpClears(stores[k], ops[k], id)
    ensures StateOf(stores[n], id).stored.Some?
    ensures Extends(StateOf(stores[m], id).stored.value, StateOf(stores[n], id).stored.value)
  {
    if m < n {
      StoreGrows(ops, stores, id, m, n - 1);
      OpExtends(stores[n - 1], ops[n - 1], id);
    }
  }

  // ------------------------------------------------- the controller

  /** The statuses in the store. */
  function StatusesOf(store: Store): map<Bytes, Status> {
    map id | id in store && store[id].stored.Some? :: store[id].stored.value
  }

  /** How each round of resuming one task fails before the last one: its status cannot be looked up, or the
      launch cannot store it. */
  datatype Round = LookUpFails | LaunchFails

  /** `statuses` is what is stored. `ops` and `stores` are what has happened to it, of which `stores`' last also
      says where every instance is. */
  class Controller {
    var statuses: map<Bytes, Status>
    ghost var ops: seq<Op>
    ghost var stores: seq<Store>

    ghost predicate Valid()
      reads this
    {
      IsStoreRun(ops, stores) && statuses == StatusesOf(stores[|ops|])
    }

    ghost function Now(id: Bytes): State
      requires Valid()
      reads this
    {
      StateOf(stores[|ops|], id)
    }

    constructor ()
      ensures Valid() && statuses == map[] && ops == []
    {
      statuses, ops, stores := map[], [], [map[]];
    }

    /** What happens to one task is recorded; its status is stored if that changes it. */
    ghost method Record(id: Bytes, step: Step)
      requires IsStoreRun(ops, stores) && CanDo(stores[|ops|], On(id, step))
      modifies this`ops, this`stores
      ensures IsStoreRun(ops, stores) && ops == old(ops) + [On(id, step)]
      ensures stores[|ops|] == old(stores[|ops|])[id := Next(old(StateOf(stores[|ops|], id)), step)]
    {
      var op, store := On(id, step), stores[|ops|];
      assert [step][1..] == [] && Play(StateOf(store, id), [step]) == Next(StateOf(store, id), step);
      StoreRunOn(ops, stores, op);
      ops, stores := ops + [op], stores + [NextStore(store, op)];
    }

    ghost method RecordLaunch(id: Bytes, metadata: Bytes, access: Access)
      requires IsStoreRun(ops, stores) && StateOf(stores[|ops|], id).pc == Idle
      requires Prepared(StateOf(stores[|ops|], id).stored, metadata, access).Some?
      modifies this`ops, this`stores
      ensures IsStoreRun(ops, stores) && ops == old(ops) + [On(id, Launch(metadata, access)), On(id, LogPending)]
      ensures stores[|ops|] == old(stores[|ops|])[id := Next(Next(old(StateOf(stores[|ops|], id)), Launch(metadata, access)), LogPending)]
    {
      Record(id, Launch(metadata, access));
      Record(id, LogPending);
    }

    /** A step of one instance that leaves its status alone. */
    ghost method Happen(id: Bytes, step: Step)
      requires Valid() && Enabled(Now(id), step)
      requires step.Activate? || step.EndContext? || step.Return? || step.Enter? || step.Finish? || step.Crash?
      modifies this`ops, this`stores
      ensures Valid() && ops == old(ops) + [On(id, step)]
    {
      Record(id, step);
    }

    /** The state machine's mutator: the destination of the transition under way becomes the task's state. */
    method SetState(id: Bytes, state: TState)
      requires Valid() && Enabled(Now(id), StoreFire) && state == Now(id).pc.to
      modifies this
      ensures Valid() && ops == old(ops) + [On(id, StoreFire)]
    {
      statuses := statuses[id := statuses[id].(state := state)];
      Record(id, StoreFire);
    }

    /** Task.logTransition, for the transition under way. */
    method LogTransition(id: Bytes, state: TState)
      requires Valid() && Enabled(Now(id), LogFire) && state == Now(id).pc.to
      modifies this
      ensures Valid() && ops == old(ops) + [On(id, LogFire)]
    {
      statuses := statuses[id := WithTransition(statuses[id], state)];
      Record(id, LogFire);
    }

    method AddLogEntry(id: Bytes, level: int, msg: Bytes)
      requires Valid() && Enabled(Now(id), AddLog(LogEntry(level, msg)))
      modifies this
      ensures Valid() && ops == old(ops) + [On(id, AddLog(LogEntry(level, msg)))]
    {
      var status := statuses[id];
      statuses := statuses[id := status.(logs := status.logs + [LogEntry(level, msg)])];
      Record(id, AddLog(LogEntry(level, msg)));
    }

    method SetProgress(id: Bytes, progress: Progress)
      requires Valid() && Enabled(Now(id), Report(progress))
      modifies this
      ensures Valid() && ops == old(ops) + [On(id, Report(progress))]
    {
      statuses := statuses[id := statuses[id].(progress := Some(progress))];
      Record(id, Report(progress));
    }

    /** The first write of LaunchTask, passed over if the status cannot be read. */
    method PutLaunch(id: Bytes, metadata: Bytes, access: Access, putFails: bool) returns (ok: bool)
      requires id in statuses || access == Answered
      modifies this`statuses
      ensures ok <==> !(access == Answered && putFails)
      ensures !ok ==> statuses == old(statuses)
      ensures ok ==> var prepared := Prepared(At(old(statuses), id), metadata, access);
                     prepared.Some? && statuses == old(statuses)[id := prepared.value]
      ensures ok && access == Answered ==> Launchable(At(old(statuses), id), metadata, statuses[id])
    {
      if access == Answered {
        if putFails { return false; }
        if id !in statuses {
          statuses := statuses[id := Fresh(metadata)];
        } else {
          var prev := statuses[id];
          var state := prev.state;
          prev := prev.(state := Pending);
          match state {
            case Running =>
            case Failed =>
              prev := prev.(progress := None, metadata := metadata, logs := prev.logs + [RESTART_ENTRY]);
            case Canceled =>
              prev := prev.(metadata := metadata, logs := [], transitions := []);
            case _ =>
              prev := prev.(progress := None, metadata := metadata, logs := [], transitions := []);
          }
          statuses := statuses[id := prev];
        }
      }
      ok := true;
    }

    /** What LaunchTask does to the store: nothing if its first write fails. */
    method StoreLaunch(id: Bytes, metadata: Bytes, access: Access, putFails: bool) returns (ok: bool)
      requires id in statuses || access == Answered
      modifies this`statuses
      ensures ok <==> !(access == Answered && putFails)
      ensures !ok ==> statuses == old(statuses)
      ensures ok ==> var prepared := Prepared(At(old(statuses), id), metadata, access);
                     prepared.Some? && statuses == old(statuses)[id := WithTransition(prepared.value, Pending)]
    {
      ok := PutLaunch(id, metadata, access, putFails);
      if ok { statuses := statuses[id := WithTransition(statuses[id], Pending)]; }
    }

    /** LaunchTask up to starting the state machine. Reading for the Pending transition retries until there is
        a status. */
    method LaunchTask(id: Bytes, metadata: Bytes, access: Access, putFails: bool) returns (ok: bool)
      requires Valid() && Now(id).pc == Idle && (id in statuses || access == Answered)
      modifies this
      ensures Valid()
      ensures ok <==> !(access == Answered && putFails)
      ensures !ok ==> statuses == old(statuses) && ops == old(ops)
      ensures ok ==> ops == old(ops) + [On(id, Launch(metadata, access)), On(id, LogPending)]
    {
      ghost var was := Now(id);
      ok := StoreLaunch(id, metadata, access, putFails);
      if ok {
        LaunchStored(was, metadata, access);
        RecordLaunch(id, metadata, access);
        StatusesPut(old(stores[|ops|]), id, Next(Next(was, Launch(metadata, access)), LogPending));
      }
    }

    /** One task of NewController's loop. */
    method ResumeOne(id: Bytes, trouble: Trouble, rounds: seq<Round>)
      requires id in statuses && id !in trouble.unreached
      modifies this`statuses
      ensures statuses - {id} == old(statuses) - {id}
      ensures At(statuses, id) == ResumedBy(old(statuses)[id], trouble, id)
    {
      for n := 0 to |rounds|
        invariant statuses == old(statuses)
      {
        if rounds[n] == LaunchFails && Resumable(statuses[id].state) {
          var ok := StoreLaunch(id, statuses[id].metadata, Answered, true);
        }
      }
      var status := statuses[id];
      if status.state == Pending || status.state == Running {
        if trouble.halfway == Some(id) {
          var ok := PutLaunch(id, status.metadata, AccessTo(trouble, id), false);
        } else {
          var ok := StoreLaunch(id, status.metadata, AccessTo(trouble, id), false);
        }
      } else if Terminal(status.state) && id !in trouble.deleteFails {
        statuses := statuses - {id};
      }
    }

    /** The loop over the saved tasks, as far as it gets; the launch broken off is the last thing it does. */
    method ResumeAll(trouble: Trouble, rounds: map<Bytes, seq<Round>>)
      modifies this`statuses
      ensures AfterResume(old(statuses), statuses, trouble)
    {
      var last := if trouble.halfway.Some? then {trouble.halfway.value} * (statuses.Keys - trouble.unreached) else {};
      ResumeThese(statuses.Keys - trouble.unreached - last, trouble, rounds);
      ghost var before := statuses;
      forall id | id in last ensures At(statuses, id) == At(old(statuses), id) { }
      ResumeThese(last, trouble, rounds);
      forall id | id in old(statuses) ensures ResumedAt(old(statuses), statuses, trouble, id) {
        if id !in last { assert At(statuses, id) == At(before, id); }
        if id in last { assert before[id] == old(statuses)[id]; }
      }
    }

    method ResumeThese(ids: set<Bytes>, trouble: Trouble, rounds: map<Bytes, seq<Round>>)
      requires ids <= statuses.Keys - trouble.unreached
      modifies this`statuses
      ensures statuses.Keys <= old(statuses.Keys)
      ensures forall id :: id in ids ==> ResumedAt(old(statuses), statuses, trouble, id)
      ensures forall id :: id !in ids ==> At(statuses, id) == At(old(statuses), id)
    {
      var existing := ids;
      while existing != {}
        invariant existing <= ids && existing <= statuses.Keys <= old(statuses.Keys)
        invariant forall id :: id in ids && id !in existing ==> ResumedAt(old(statuses), statuses, trouble, id)
        invariant forall id :: id in existing || id !in ids ==> At(statuses, id) == At(old(statuses), id)
        decreases |existing|
      {
        var id :| id in existing;
        existing := existing - {id};
        ghost var before := statuses;
        assert At(before, id) == At(old(statuses), id);
        ResumeOne(id, trouble, if id in rounds then rounds[id] else []);
        SameElsewhere(before, statuses, id);
        forall other | other in existing ensures other in statuses { assert At(statuses, other) == At(before, other); }
        forall other | other in statuses ensures other in old(statuses) {
          if other != id { assert At(statuses, other) == At(before, other); }
        }
      }
    }

    /** NewController: the saved tasks are resumed, cleaned up or left, in any order, each after any number of
        failed rounds, unless the controller dies first. Every task goes through exactly the steps of a restart. */
    method Resume(trouble: Trouble, rounds: map<Bytes, seq<Round>>)
      requires Valid()
      modifies this
      ensures Valid() && ops == old(ops) + [Restart(trouble)]
    {
      ResumeAll(trouble, rounds);
      ghost var store := stores[|ops|];
      RestartStatuses(store, trouble, statuses);
      StoreRunOn(ops, stores, Restart(trouble));
      ops, stores := ops + [Restart(trouble)], stores + [NextStore(store, Restart(trouble))];
    }
  }

  /** What a launch makes of a status, by the state it was in: a running task goes on with everything it had; a failed
      one keeps its history, with an entry for the restart; a canceled one keeps its progress only; and any other starts
      afresh. All but the first take the new metadata. */
  predicate Launchable(prev: Option<Status>, metadata: Bytes, now: Status) {
    && now.state == Pending
    && (prev.None? ==> now == Status(Pending, None, metadata, [], []))
    && (prev.Some? && prev.value.state == Running ==>
          now.metadata == prev.value.metadata && now.progress == prev.value.progress
          && now.logs == prev.value.logs && now.transitions == prev.value.transitions)
    && (prev.Some? && prev.value.state != Running ==> now.metadata == metadata)
    && (prev.Some? && prev.value.state == Failed ==>
          now.progress == None && now.transitions == prev.value.transitions && |now.logs| == |prev.value.logs| + 1
          && prev.value.logs <= now.logs
          && now.logs[|prev.value.logs|] == LogEntry(0, "internal: restarting task (previous state: Failed)"))
    && (prev.Some? && prev.value.state != Running && prev.value.state != Failed ==> now.logs == [] && now.transitions == [])
    && (prev.Some? && prev.value.state == Canceled ==> now.progress == prev.value.progress)
    && (prev.Some? && (prev.value.state == Completed || prev.value.state == Pending || prev.value.state == Unknown) ==>
          now.progress == None)
  }

  predicate ResumedAt(before: map<Bytes, Status>, after: map<Bytes, Status>, trouble: Trouble, id: Bytes)
    requires id in before
  {
    At(after, id) == ResumedBy(before[id], trouble, id)
  }

  ghost predicate AfterResume(before: map<Bytes, Status>, after: map<Bytes, Status>, trouble: Trouble) {
    after.Keys <= before.Keys && forall id :: id in before ==> ResumedAt(before, after, trouble, id)
  }

  function At(statuses: map<Bytes, Status>, id: Bytes): Option<Status> {
    if id in statuses then Some(statuses[id]) else None
  }

  lemma SameElsewhere(a: map<Bytes, Status>, b: map<Bytes, Status>, id: Bytes)
    requires a - {id} == b - {id}
    ensures forall other :: other != id ==> At(a, other) == At(b, other)
  {
    forall other | other != id ensures At(a, other) == At(b, other) {
      assert other in a <==> other in a - {id};
      assert other in b <==> other in b - {id};
      if other in a { assert (a - {id})[other] == a[other] && (b - {id})[other] == b[other]; }
    }
  }

  lemma StatusesPut(store: Store, id: Bytes, t: State)
    requires t.stored.Some?
    ensures StatusesOf(store[id := t]) == StatusesOf(store)[id := t.stored.value]
  {
  }

  lemma LaunchStored(s: State, metadata: Bytes, access: Access)
    requires s.pc == Idle && Prepared(s.stored, metadata, access).Some?
    ensures Enabled(Next(s, Launch(metadata, access)), LogPending)
    ensures Next(Next(s, Launch(metadata, access)), LogPending).stored
            == Some(WithTransition(Prepared(s.stored, metadata, access).value, Pending))
  {
  }

  lemma RestartAt(store: Store, trouble: Trouble, id: Bytes)
    ensures At(StatusesOf(NextStore(store, Restart(trouble))), id) ==
            if id in StatusesOf(store) then ResumedBy(StatusesOf(store)[id], trouble, id) else None
  {
    if id in store { RestartStored(store[id], trouble, id); }
  }

  lemma SameMap(a: map<Bytes, Status>, b: map<Bytes, Status>)
    requires forall id :: At(a, id) == At(b, id)
    ensures a == b
  {
    forall id ensures id in a <==> id in b { assert At(a, id) == At(b, id); }
    forall id | id in a ensures a[id] == b[id] { assert At(a, id) == At(b, id); }
  }

  lemma RestartStatuses(store: Store, trouble: Trouble, statuses: map<Bytes, Status>)
    requires AfterResume(StatusesOf(store), statuses, trouble)
    ensures statuses == StatusesOf(NextStore(store, Restart(trouble)))
  {
    var before, after := StatusesOf(store), StatusesOf(NextStore(store, Restart(trouble)));
    forall id ensures At(statuses, id) == At(after, id) {
      RestartAt(store, trouble, id);
      if id in before { assert ResumedAt(before, statuses, trouble, id); }
    }
    SameMap(statuses, after);
  }

  /** So whatever has been done with a controller and its successors, every stored history is lawful. */
  lemma ControllerHistories(c: Controller, id: Bytes)
    requires c.Valid() && id in c.statuses
    ensures History(c.statuses[id].transitions)
  {
    StoreHistories(c.ops, c.stores, id, |c.ops|);
  }
}
