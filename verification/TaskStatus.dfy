/** The persisted status of a task, and what a launch makes of it (pkg/task/controller.go). */
module TaskStatus {
  import opened Common

  datatype TState = Unknown | Pending | Running | Completed | Failed | Canceled

  datatype Trigger = Start | End | Cancel | Error

  datatype LogEntry = LogEntry(level: int, msg: Bytes)

  datatype Progress = Progress(current: nat, total: nat)

  datatype Status = Status(
    state: TState, progress: Option<Progress>, metadata: Bytes, logs: seq<LogEntry>, transitions: seq<TState>)

  const INFO_LEVEL := 0

  /** The configured edges. Pending has none for Error. */
  function Permit(from: TState, trigger: Trigger): Option<TState> {
    match (from, trigger)
    case (Pending, Start) => Some(Running)
    case (Pending, Cancel) => Some(Canceled)
    case (Running, End) => Some(Completed)
    case (Running, Cancel) => Some(Canceled)
    case (Running, Error) => Some(Failed)
    case _ => None
  }

  predicate Terminal(x: TState) {
    x == Completed || x == Failed || x == Canceled
  }

  /** Some trigger leads there. */
  predicate Edge(x: TState, y: TState) {
    exists trigger :: Permit(x, trigger) == Some(y)
  }

  /** The log entry of a restart, which only a failed task gets. */
  const RESTART_ENTRY := LogEntry(INFO_LEVEL, "internal: restarting task (previous state: Failed)")

  function Fresh(metadata: Bytes): Status {
    Status(Pending, None, metadata, [], [])
  }

  function WithTransition(st: Status, x: TState): Status {
    st.(transitions := st.transitions + [x])
  }

  /** A launch over a saved status that could be read. */
  function Restarted(prev: Status, metadata: Bytes): Status {
    match prev.state
    case Running => prev.(state := Pending)
    case Failed => Status(Pending, None, metadata, prev.logs + [RESTART_ENTRY], prev.transitions)
    case Canceled => Status(Pending, prev.progress, metadata, [], [])
    case _ => Fresh(metadata)
  }

  /** What the first read of a launch gave: the saved status or its absence, or some other failure. The
      latter is passed over. */
  datatype Access = Answered | Unavailable

  /** The saved status when a launch comes to log its Pending transition. */
  function Prepared(prev: Option<Status>, metadata: Bytes, access: Access): Option<Status> {
    if access == Unavailable then prev
    else Some(if prev.None? then Fresh(metadata) else Restarted(prev.value, metadata))
  }

  /** Logs and transitions of the first continue in the second. */
  predicate Extends(st: Status, later: Status) {
    st.logs <= later.logs && st.transitions <= later.transitions
  }

  predicate Resumable(x: TState) {
    x == Pending || x == Running
  }

  /** A relaunch keeps the history exactly if it starts from Running or Failed, or there was none. */
  lemma RestartExtends(prev: Status, metadata: Bytes)
    ensures Extends(prev, Restarted(prev, metadata)) <==>
            prev.state == Running || prev.state == Failed || (prev.logs == [] && prev.transitions == [])
  {
  }

  /** The status a task is left with when the controller starts: resumed, cleaned away, or left alone. */
  function Resumed(prev: Status, deleteFails: bool, access: Access): Option<Status> {
    if Resumable(prev.state) then Some(WithTransition(Prepared(Some(prev), prev.metadata, access).value, Pending))
    else if Terminal(prev.state) && !deleteFails then None
    else Some(prev)
  }
}
