/** One task id over every run: launches, the state machine of the one live instance, handler returns,
    crashes and resumes (pkg/task/controller.go, pkg/task/task.go). */
module TaskRuns {
  import opened Common
  import opened TaskStatus

  /** Where the instance is. A transition logs its destination and stores it, in either order, before the
      entry handler of the destination starts. */
  datatype Pc =
    | Idle
    | Launched
    | Activating
    | OnPending
    | OnRunning
    | Firing(from: TState, to: TState, logged: bool, stored: bool)
    | OnCompleted

  /** `canceled` says that the instance's context was canceled. `completions` are the states the launch's
      OnTaskCompleted calls were made with. */
  datatype State = State(stored: Option<Status>, pc: Pc, canceled: bool, completions: seq<TState>)

  /** How a Pending or Running handler returns: nil, its context's error, or any other error. */
  datatype Outcome = Fine | ContextError | OtherError

  datatype Step =
    | Launch(metadata: Bytes, access: Access)
    | Relaunch(access: Access)        // by a starting controller, with the stored metadata
    | CleanUp                         // by a starting controller
    | LogPending
    | Activate
    | EndContext                      // by CancelTask, or with the controller's context
    | Return(outcome: Outcome)
    | LogFire
    | StoreFire
    | Enter
    | Finish
    | AddLog(entry: LogEntry)
    | Report(progress: Progress)
    | Crash                           // also a storage error that ends the instance

  function TriggerOf(pc: Pc, outcome: Outcome): Trigger {
    match outcome
    case Fine => if pc == OnPending then Start else End
    case ContextError => Cancel
    case OtherError => Error
  }

  predicate InHandler(pc: Pc) {
    pc == OnPending || pc == OnRunning || pc == OnCompleted
  }

  predicate Enabled(s: State, step: Step) {
    match step
    case Launch(_, _) => s.pc == Idle
    case Relaunch(_) => s.pc == Idle && s.stored.Some? && Resumable(s.stored.value.state)
    case CleanUp => s.pc == Idle && s.stored.Some? && Terminal(s.stored.value.state)
    case LogPending => s.pc == Launched && s.stored.Some?
    case Activate => s.pc == Activating && s.stored.Some?
    case EndContext => true
    case Return(outcome) => (s.pc == OnPending || s.pc == OnRunning) && s.stored.Some? && (outcome == ContextError ==> s.canceled)
    case LogFire => s.pc.Firing? && !s.pc.logged && s.stored.Some?
    case StoreFire => s.pc.Firing? && !s.pc.stored && s.stored.Some?
    case Enter => s.pc.Firing? && s.pc.logged && s.pc.stored
    case Finish => s.pc == OnCompleted
    case AddLog(_) => InHandler(s.pc) && s.stored.Some?
    case Report(_) => InHandler(s.pc) && s.stored.Some?
    case Crash => true
  }

  function NextStored(s: State, step: Step): Option<Status>
    requires Enabled(s, step)
  {
    match step
    case Launch(metadata, access) => Prepared(s.stored, metadata, access)
    case Relaunch(access) => Prepared(s.stored, s.stored.value.metadata, access)
    case CleanUp => None
    case LogPending => Some(WithTransition(s.stored.value, Pending))
    case LogFire => Some(WithTransition(s.stored.value, s.pc.to))
    case StoreFire => Some(s.stored.value.(state := s.pc.to))
    case AddLog(entry) => Some(s.stored.value.(logs := s.stored.value.logs + [entry]))
    case Report(progress) => Some(s.stored.value.(progress := Some(progress)))
    case _ => s.stored
  }

  /** A fired trigger is looked up in the stored state; one that is not permitted ends the instance. */
  function Fire(s: State, trigger: Trigger): Pc
    requires s.stored.Some?
  {
    var from := s.stored.value.state;
    var to := Permit(from, trigger);
    if to.Some? then Firing(from, to.value, false, false) else Idle
  }

  function NextPc(s: State, step: Step): Pc
    requires Enabled(s, step)
  {
    match step
    case Launch(_, _) => Launched
    case Relaunch(_) => Launched
    case LogPending => Activating
    case Activate => if s.stored.value.state == Pending then OnPending else Idle
    case Return(outcome) => Fire(s, TriggerOf(s.pc, outcome))
    case LogFire => s.pc.(logged := true)
    case StoreFire => s.pc.(stored := true)
    case Enter => if s.pc.to == Running then OnRunning else OnCompleted
    case Finish => Idle
    case Crash => Idle
    case _ => s.pc
  }

  function Next(s: State, step: Step): State
    requires Enabled(s, step)
  {
    State(
      NextStored(s, step),
      NextPc(s, step),
      if step.Launch? || step.Relaunch? then false else s.canceled || step.EndContext?,
      if step.Launch? || step.Relaunch? then []
      else if step.Enter? && s.pc.to != Running then s.completions + [s.pc.to]
      else s.completions)
  }

  ghost predicate IsRun(steps: seq<Step>, run: seq<State>) {
    && |run| == |steps| + 1 && run[0] == State(None, Idle, false, [])
    && forall i :: 0 <= i < |steps| ==> Enabled(run[i], steps[i]) && run[i + 1] == Next(run[i], steps[i])
  }

  // ------------------------------------------------- the invariant

  /** Starts with Pending, and each next state is a permitted edge away or a restart into Pending. */
  ghost predicate History(ts: seq<TState>) {
    && (ts != [] ==> ts[0] == Pending)
    && forall i :: 0 < i < |ts| ==> Edge(ts[i - 1], ts[i]) || ts[i] == Pending
  }

  /** The stored status is in the state, and so says its history. */
  predicate Is(st: Option<Status>, state: TState, last: TState) {
    && st.Some? && st.value.state == state
    && st.value.transitions != [] && st.value.transitions[|st.value.transitions| - 1] == last
  }

  ghost predicate PcInv(s: State) {
    match s.pc
    case Idle => s.completions != [] ==> |s.completions| == 1 && Terminal(s.completions[0])
    case Launched => s.completions == []
    case Activating => s.completions == [] && s.stored.Some? && Is(s.stored, s.stored.value.state, Pending)
    case OnPending => s.completions == [] && Is(s.stored, Pending, Pending)
    case OnRunning => s.completions == [] && Is(s.stored, Running, Running)
    case Firing(from, to, logged, stored) =>
      && s.completions == [] && Edge(from, to) && (to == Canceled ==> s.canceled)
      && Is(s.stored, if stored then to else from, if logged then to else from)
    case OnCompleted =>
      |s.completions| == 1 && Terminal(s.completions[0]) && Is(s.stored, s.completions[0], s.completions[0])
  }

  ghost predicate Inv(s: State) {
    && (s.stored.Some? ==> History(s.stored.value.transitions))
    && PcInv(s)
  }

  lemma HistoryGrows(ts: seq<TState>, x: TState)
    requires History(ts) && (x == Pending || (ts != [] && Edge(ts[|ts| - 1], x)))
    ensures History(ts + [x])
  {
  }

  lemma NextKeepsInv(s: State, step: Step)
    requires Inv(s) && Enabled(s, step)
    ensures Inv(Next(s, step))
  {
    match step
    case LogPending => HistoryGrows(s.stored.value.transitions, Pending);
    case LogFire => HistoryGrows(s.stored.value.transitions, s.pc.to);
    case _ =>
  }

  lemma {:induction false} RunInv(steps: seq<Step>, run: seq<State>, i: nat)
    requires IsRun(steps, run) && i < |run|
    ensures Inv(run[i])
  {
    if i > 0 {
      RunInv(steps, run, i - 1);
      NextKeepsInv(run[i - 1], steps[i - 1]);
    }
  }

  // ------------------------------------------------- theorems about runs

  predicate Launches(step: Step) {
    step.Launch? || step.Relaunch?
  }

  predicate CallsCompleted(s: State, step: Step) {
    Enabled(s, step) && step.Enter? && s.pc.to != Running
  }

  /** None of the steps from i up to j is a launch. */
  ghost predicate NoLaunch(steps: seq<Step>, i: nat, j: nat) {
    i <= j <= |steps| && forall k :: i <= k < j ==> !Launches(steps[k])
  }

  /** In every run, crashes and resumes included, the stored transitions start with Pending and each adjacent
      pair is a permitted edge or a restart into Pending; in particular Failed only ever follows Running. */
  lemma TransitionsAreLawful(steps: seq<Step>, run: seq<State>, i: nat, k: nat)
    requires IsRun(steps, run) && i < |run| && run[i].stored.Some? && k < |run[i].stored.value.transitions|
    ensures run[i].stored.value.transitions[0] == Pending
    ensures var ts := run[i].stored.value.transitions;
            k > 0 ==> Edge(ts[k - 1], ts[k]) || ts[k] == Pending
    ensures var ts := run[i].stored.value.transitions;
            ts[k] == Failed ==> k > 0 && ts[k - 1] == Running
  {
    RunInv(steps, run, i);
  }

  lemma {:induction false} CalledStays(steps: seq<Step>, run: seq<State>, i: nat, j: nat)
    requires IsRun(steps, run) && NoLaunch(steps, i, j) && run[i].completions != []
    ensures run[j].completions != []
  {
    if i < j { CalledStays(steps, run, i, j - 1); }
  }

  /** OnTaskCompleted is called on entering a terminal state, which the store then holds both as the state and
      as the last transition. */
  lemma CompletedOnTerminal(steps: seq<Step>, run: seq<State>, i: nat)
    requires IsRun(steps, run) && i < |steps| && CallsCompleted(run[i], steps[i])
    ensures Terminal(run[i].pc.to) && run[i + 1].completions == [run[i].pc.to]
    ensures Is(run[i + 1].stored, run[i].pc.to, run[i].pc.to)
  {
    RunInv(steps, run, i);
  }

  /** Between two OnTaskCompleted calls there is a launch. */
  lemma CompletedOncePerLaunch(steps: seq<Step>, run: seq<State>, i: nat, j: nat)
    requires IsRun(steps, run) && i < j < |steps|
    requires CallsCompleted(run[i], steps[i]) && CallsCompleted(run[j], steps[j])
    ensures exists k :: i < k < j && Launches(steps[k])
  {
    RunInv(steps, run, i);
    RunInv(steps, run, j);
    if NoLaunch(steps, i + 1, j) {
      CalledStays(steps, run, i + 1, j);
      assert false;
    }
  }

  lemma {:induction false} ContextEnded(steps: seq<Step>, run: seq<State>, i: nat) returns (k: nat)
    requires IsRun(steps, run) && i < |run| && run[i].canceled
    ensures k < i && steps[k] == EndContext && NoLaunch(steps, k + 1, i)
  {
    if run[i - 1].canceled && !Launches(steps[i - 1]) {
      k := ContextEnded(steps, run, i - 1);
    } else {
      k := i - 1;
    }
  }

  /** A task becomes Canceled only if its context has ended since it was last launched. */
  lemma CanceledAfterContextEnd(steps: seq<Step>, run: seq<State>, i: nat)
    requires IsRun(steps, run) && i < |steps|
    requires CallsCompleted(run[i], steps[i]) && run[i].pc.to == Canceled
    ensures exists k :: 0 <= k < i && steps[k] == EndContext && NoLaunch(steps, k + 1, i)
  {
    RunInv(steps, run, i);
    var k := ContextEnded(steps, run, i);
  }

  // ------------------------------------------------- what a return leads to

  /** After the transition under way there is nothing but entering its destination, once, or a crash. */
  ghost predicate Heading(s: State, from: TState, to: TState) {
    && (s.pc.Firing? ==> s.pc.from == from && s.pc.to == to)
    && (s.pc.Firing? || s.pc == Idle || (to != Running && s.pc == OnCompleted))
    && (s.completions == [] || (to != Running && s.completions == [to]))
    && (s.pc == OnCompleted ==> s.completions == [to]) && (s.pc.Firing? ==> s.completions == [])
  }

  lemma {:induction false} HeadingStays(steps: seq<Step>, run: seq<State>, i: nat, j: nat, from: TState, to: TState)
    requires IsRun(steps, run) && NoLaunch(steps, i, j) && run[i].pc == Firing(from, to, false, false) && to != Running
    ensures Heading(run[j], from, to)
  {
    RunInv(steps, run, i);
    if i < j {
      HeadingStays(steps, run, i, j - 1, from, to);
      HeadingStep(run[j - 1], steps[j - 1], from, to);
    }
  }

  lemma HeadingStep(s: State, step: Step, from: TState, to: TState)
    requires Heading(s, from, to) && Enabled(s, step) && !Launches(step) && to != Running
    ensures Heading(Next(s, step), from, to)
  {
  }

  /** The terminal state was entered in step j: stored, logged last, and the only one OnTaskCompleted was called with. */
  predicate Entered(s: State, to: TState) {
    && s.pc == OnCompleted && s.completions == [to] && s.stored.Some? && s.stored.value.state == to
    && s.stored.value.transitions != [] && s.stored.value.transitions[|s.stored.value.transitions| - 1] == to
  }

  /** What a Running handler's return leads to, in every run: if the launch goes on to enter a state at all, that is
      Completed after no error, Canceled after the context's error and Failed after any other. */
  lemma ReturnDecides(steps: seq<Step>, run: seq<State>, i: nat, j: nat)
    requires IsRun(steps, run) && i < j < |steps| && NoLaunch(steps, i + 1, j)
    requires run[i].pc == OnRunning && steps[i].Return? && steps[j].Enter?
    ensures steps[i].outcome == Fine ==> Entered(run[j + 1], Completed)
    ensures steps[i].outcome == ContextError ==> Entered(run[j + 1], Canceled)
    ensures steps[i].outcome == OtherError ==> Entered(run[j + 1], Failed)
  {
    RunInv(steps, run, i);
    ReturnFires(run[i], steps[i]);
    var to := run[i + 1].pc.to;
    HeadingStays(steps, run, i + 1, j, Running, to);
    RunInv(steps, run, j);
    EnterStep(run[j], to);
  }

  lemma ReturnFires(s: State, step: Step)
    requires PcInv(s) && s.pc == OnRunning && step.Return? && Enabled(s, step)
    ensures var to := match step.outcome case Fine => Completed case ContextError => Canceled case OtherError => Failed;
            Next(s, step).pc == Firing(Running, to, false, false)
  {
  }

  lemma EnterStep(s: State, to: TState)
    requires PcInv(s) && Enabled(s, Enter) && s.pc.to == to && to != Running
    ensures Entered(Next(s, Enter), to)
  {
  }

  /** A transition under way began with a handler's return. */
  lemma {:induction false} BegunBy(steps: seq<Step>, run: seq<State>, j: nat) returns (i: nat)
    requires IsRun(steps, run) && j < |run| && run[j].pc.Firing?
    ensures i < j && steps[i].Return? && NoLaunch(steps, i + 1, j)
    ensures run[i + 1].pc == Firing(run[j].pc.from, run[j].pc.to, false, false)
    ensures run[i].pc == OnPending || run[i].pc == OnRunning
  {
    FiringStep(run[j - 1], steps[j - 1]);
    if steps[j - 1].Return? {
      i := j - 1;
    } else {
      i := BegunBy(steps, run, j - 1);
    }
  }

  lemma FiringStep(s: State, step: Step)
    requires Enabled(s, step) && Next(s, step).pc.Firing?
    ensures var t := Next(s, step).pc;
            if step.Return? then (s.pc == OnPending || s.pc == OnRunning) && t == Firing(t.from, t.to, false, false)
            else s.pc.Firing? && s.pc.from == t.from && s.pc.to == t.to && !Launches(step)
  {
  }

  /** And conversely: Completed is entered only after a Running handler returned without error, Failed only after it
      returned another error than its context's, Canceled only after a handler returned its context's error, and
      Running only after a Pending handler returned without error. */
  lemma EnteredBecause(steps: seq<Step>, run: seq<State>, j: nat) returns (i: nat)
    requires IsRun(steps, run) && j < |steps| && steps[j].Enter?
    ensures i < j && steps[i].Return? && NoLaunch(steps, i + 1, j)
    ensures run[j + 1].completions == [Completed] <==> run[i].pc == OnRunning && steps[i].outcome == Fine
    ensures run[j + 1].completions == [Failed] <==> run[i].pc == OnRunning && steps[i].outcome == OtherError
    ensures run[j + 1].completions == [Canceled] <==> steps[i].outcome == ContextError
    ensures run[j + 1].pc == OnRunning <==> run[i].pc == OnPending && steps[i].outcome == Fine
  {
    i := BegunBy(steps, run, j);
    RunInv(steps, run, i);
    FiresTo(run[i], steps[i]);
    RunInv(steps, run, j);
    EntersOnly(run[j]);
  }

  lemma FiresTo(s: State, step: Step)
    requires PcInv(s) && Enabled(s, step) && step.Return? && Next(s, step).pc.Firing?
    ensures var to := Next(s, step).pc.to;
            && (to == Completed <==> s.pc == OnRunning && step.outcome == Fine)
            && (to == Failed <==> s.pc == OnRunning && step.outcome == OtherError)
            && (to == Canceled <==> step.outcome == ContextError)
            && (to == Running <==> s.pc == OnPending && step.outcome == Fine)
  {
  }

  lemma EntersOnly(s: State)
    requires PcInv(s) && Enabled(s, Enter)
    ensures var t, to := Next(s, Enter), s.pc.to;
            && (t.pc == OnRunning <==> to == Running)
            && (t.completions == [Completed] <==> to == Completed)
            && (t.completions == [Failed] <==> to == Failed) && (t.completions == [Canceled] <==> to == Canceled)
  {
    var t, to := Next(s, Enter), s.pc.to;
    assert t.completions == if to == Running then [] else [to];
    assert t.completions != [] ==> t.completions[0] == to;
  }

  /** Launches by a starting controller and everything else but a caller's Launch leave the metadata alone. */
  lemma {:induction false} MetadataSurvives(steps: seq<Step>, run: seq<State>, i: nat, j: nat)
    requires IsRun(steps, run) && i <= j < |run| && run[i].stored.Some?
    requires forall k :: i <= k < j ==> !steps[k].Launch?
    ensures run[j].stored.Some? ==> run[j].stored.value.metadata == run[i].stored.value.metadata
    ensures run[j].stored.None? <==> exists k :: i <= k < j && steps[k].CleanUp?
  {
    if i < j {
      MetadataSurvives(steps, run, i, j - 1);
    }
  }

  /** The step clears the history: a clean-up, or a launch that could read a status that was neither Running
      nor Failed. */
  predicate Clears(s: State, step: Step) {
    || step.CleanUp?
    || (s.stored.Some? && (step.Relaunch? || step.Launch?) && step.access == Answered
        && s.stored.value.state != Running && s.stored.value.state != Failed)
  }

  /** A step extends logs and transitions exactly if it does not clear them, or is a launch with none to clear. */
  lemma ExtendsUnlessClears(s: State, step: Step)
    requires Enabled(s, step) && s.stored.Some?
    ensures var t := Next(s, step);
            (t.stored.Some? && Extends(s.stored.value, t.stored.value)) <==>
            !Clears(s, step) || (!step.CleanUp? && s.stored.value.logs == [] && s.stored.value.transitions == [])
  {
    var st := s.stored.value;
    if Clears(s, step) && !step.CleanUp? {
      RestartExtends(st, if step.Launch? then step.metadata else st.metadata);
    }
  }

  /** Along any part of a run without clean-ups whose relaunches start from Running or Failed, logs and
      transitions only grow by extension. */
  lemma {:induction false} HistoryOnlyGrows(steps: seq<Step>, run: seq<State>, i: nat, j: nat)
    requires IsRun(steps, run) && i <= j < |run| && run[i].stored.Some?
    requires forall k :: i <= k < j ==> !Clears(run[k], steps[k])
    ensures run[j].stored.Some? && Extends(run[i].stored.value, run[j].stored.value)
  {
    if i < j {
      HistoryOnlyGrows(steps, run, i, j - 1);
      ExtendsUnlessClears(run[j - 1], steps[j - 1]);
    }
  }

  /** A Pending handler that fails leaves the task Pending: it is not moved to Failed, its OnTaskCompleted is
      not called, and nothing happens until it is launched again. */
  lemma {:induction false} PendingErrorStrands(steps: seq<Step>, run: seq<State>, i: nat, j: nat)
    requires IsRun(steps, run) && i < j < |run| && NoLaunch(steps, i + 1, j)
    requires run[i].pc == OnPending && steps[i] == Return(OtherError)
    ensures run[j].pc == Idle && run[j].stored == run[i].stored && run[j].completions == []
    ensures run[j].stored.Some? && run[j].stored.value.state == Pending
  {
    RunInv(steps, run, i);
    if i + 1 < j { PendingErrorStrands(steps, run, i, j - 1); }
  }

  /** A launch whose first read fails passes over the restart. If the task was not Pending, nothing runs it: its
      state stays what it was, and OnTaskCompleted is not called, until it is launched again or cleaned up. */
  lemma {:induction false} UnreadLaunchStrands(steps: seq<Step>, run: seq<State>, i: nat, j: nat)
    requires IsRun(steps, run) && i < j < |run| && NoLaunch(steps, i + 1, j)
    requires Launches(steps[i]) && steps[i].access == Unavailable
    requires run[i].stored.Some? && run[i].stored.value.state != Pending
    requires forall k :: i < k < j ==> !steps[k].CleanUp?
    ensures run[j].pc == Launched || run[j].pc == Activating || run[j].pc == Idle
    ensures run[j].stored.Some? && run[j].stored.value.state == run[i].stored.value.state && run[j].completions == []
  {
    if i + 1 < j { UnreadLaunchStrands(steps, run, i, j - 1); }
  }

  // ------------------------------------------------- a stranded task

  function Stranded(metadata: Bytes): Status {
    Status(Pending, None, metadata, [], [Pending])
  }

  /** A launched task whose Pending handler fails: it is not Failed, and was not reported as completed. */
  lemma PendingErrorHappens(metadata: Bytes) returns (steps: seq<Step>, run: seq<State>)
    ensures IsRun(steps, run) && |steps| == 4 && run[3].pc == OnPending && steps[3] == Return(OtherError)
    ensures run[4] == State(Some(Stranded(metadata)), Idle, false, [])
  {
    steps := [Launch(metadata, Answered), LogPending, Activate, Return(OtherError)];
    run := [State(None, Idle, false, []), State(Some(Fresh(metadata)), Launched, false, []),
            State(Some(Stranded(metadata)), Activating, false, []), State(Some(Stranded(metadata)), OnPending, false, []),
            State(Some(Stranded(metadata)), Idle, false, [])];
    assert WithTransition(Fresh(metadata), Pending) == Stranded(metadata);
    assert Next(run[0], steps[0]) == run[1];
    assert Next(run[1], steps[1]) == run[2];
    assert Next(run[2], steps[2]) == run[3];
    assert Next(run[3], steps[3]) == run[4];
  }

  lemma OneOn(steps: seq<Step>, run: seq<State>, step: Step)
    requires IsRun(steps, run) && Enabled(run[|run| - 1], step)
    ensures IsRun(steps + [step], run + [Next(run[|run| - 1], step)])
  {
    var steps', run' := steps + [step], run + [Next(run[|run| - 1], step)];
    forall i | 0 <= i < |steps'| ensures Enabled(run'[i], steps'[i]) && run'[i + 1] == Next(run'[i], steps'[i]) {
      if i < |steps| { assert run'[i] == run[i] && run'[i + 1] == run[i + 1] && steps'[i] == steps[i]; }
    }
  }

  ghost predicate Reachable(s: State) {
    exists steps, run :: IsRun(steps, run) && run[|run| - 1] == s
  }

  lemma ReachNext(s: State, step: Step, t: State)
    requires Reachable(s) && Enabled(s, step) && t == Next(s, step)
    ensures Reachable(t)
  {
    var steps, run :| IsRun(steps, run) && run[|run| - 1] == s;
    OneOn(steps, run, step);
    assert (run + [t])[|run + [t]| - 1] == t;
  }

  function RunningOnce(metadata: Bytes, transitions: seq<TState>): Status {
    Status(Running, None, metadata, [], transitions)
  }

  lemma PendingReached(metadata: Bytes)
    ensures Reachable(State(Some(Stranded(metadata)), OnPending, false, []))
  {
    var s0 := State(None, Idle, false, []);
    assert IsRun([], [s0]) && Reachable([s0][0]);
    var s1 := State(Some(Fresh(metadata)), Launched, false, []);
    ReachNext(s0, Launch(metadata, Answered), s1);
    var s2 := State(Some(Stranded(metadata)), Activating, false, []);
    assert [] + [Pending] == [Pending];
    ReachNext(s1, LogPending, s2);
    ReachNext(s2, Activate, State(Some(Stranded(metadata)), OnPending, false, []));
  }

  /** The task is running when its controller dies. */
  lemma RunningReached(metadata: Bytes)
    ensures Reachable(State(Some(RunningOnce(metadata, [Pending, Running])), Idle, false, []))
  {
    PendingReached(metadata);
    var s := State(Some(Stranded(metadata)), OnPending, false, []);
    var s1 := s.(pc := Firing(Pending, Running, false, false));
    ReachNext(s, Return(Fine), s1);
    var s2 := State(Some(Stranded(metadata).(transitions := [Pending, Running])), Firing(Pending, Running, true, false), false, []);
    assert [Pending] + [Running] == [Pending, Running];
    ReachNext(s1, LogFire, s2);
    var s3 := State(Some(RunningOnce(metadata, [Pending, Running])), Firing(Pending, Running, true, true), false, []);
    ReachNext(s2, StoreFire, s3);
    ReachNext(s3, Crash, s3.(pc := Idle));
  }

  /** And the next controller cannot read its status: then it stays Running, and nothing runs it. */
  lemma UnreadLaunchHappens(metadata: Bytes)
    ensures var s := State(Some(RunningOnce(metadata, [Pending, Running])), Idle, false, []);
            Reachable(s) && Enabled(s, Relaunch(Unavailable))
    ensures Reachable(State(Some(RunningOnce(metadata, [Pending, Running, Pending])), Idle, false, []))
  {
    RunningReached(metadata);
    var s := State(Some(RunningOnce(metadata, [Pending, Running])), Idle, false, []);
    var s1 := s.(pc := Launched);
    ReachNext(s, Relaunch(Unavailable), s1);
    var s2 := State(Some(RunningOnce(metadata, [Pending, Running, Pending])), Activating, false, []);
    assert [Pending, Running] + [Pending] == [Pending, Running, Pending];
    ReachNext(s1, LogPending, s2);
    ReachNext(s2, Activate, s2.(pc := Idle));
  }
}
