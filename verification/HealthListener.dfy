/** The gateway's health listener (pkg/health/listener.go): any number of connection handlers, each a
    goroutine, running against one another, against UpdateHealth calls and against Close. */
module HealthListener {
  import opened Common

  type AgentId = Bytes
  type HandlerId = nat

  datatype Health = Health(time: nat, value: nat)

  /** Where a handler is in HandleConnection; the comment is what it does next. */
  datatype Pc =
    | Start          // look whether the listener is closed
    | Checked        // acquire one permit
    | Permitted      // lock the agent's mutex
    | Locked         // enter its channel in the incoming-update map
    | Registered     // publish "connected"
    | Greeting       // ask the agent for its health, publish it if it answers
    | Looping        // wait for updates; on cancellation or close, leave
    | Leaving        // publish "not ready"
    | Farewell       // publish "disconnected"
    | Disconnected   // remove the incoming-update entry
    | Unregistered   // unlock the agent's mutex
    | Unlocked       // release the permit
    | Gone

  /** `cur` is the last health accepted, `inbox` the handler's channel of incoming updates. */
  datatype Handler = Handler(id: AgentId, pc: Pc, cur: Option<Health>, inbox: seq<Health>)

  /** How far the goroutine started by Close has got. */
  datatype Closer = Idle | Waiting | Holding | StatusClosed | AllClosed

  datatype Published = Published(sender: HandlerId, id: AgentId, health: Health, looped: bool)

  datatype State = State(
    handlers: map<HandlerId, Handler>,
    locks: map<AgentId, HandlerId>,          // who holds each agent's mutex
    incoming: map<AgentId, HandlerId>,       // whose channel is registered for each agent
    closer: Closer,
    statusLog: seq<(AgentId, bool)>,         // everything sent on the status channel
    healthLog: seq<Published>)               // everything sent on the health channel
  {
    predicate Closed() { closer != Idle }

    predicate StatusOpen() { closer != StatusClosed && closer != AllClosed }

    predicate HealthOpen() { closer != AllClosed }

    function PermitsHeld(): nat { |set h | h in handlers && HasPermit(handlers[h].pc)| }
  }

  predicate HasPermit(pc: Pc) {
    pc != Start && pc != Checked && pc != Gone
  }

  predicate HasLock(pc: Pc) {
    pc.Locked? || HasEntry(pc) || pc.Unregistered?
  }

  predicate HasEntry(pc: Pc) {
    pc.Registered? || pc.Disconnected? || IsConnected(pc)
  }

  /** Between publishing "connected" and publishing "disconnected". */
  predicate IsConnected(pc: Pc) {
    pc.Greeting? || pc.Looping? || pc.Leaving? || pc.Farewell?
  }

  datatype Step =
    | Connect(h: HandlerId, agent: AgentId)
    | CheckClosed(h: HandlerId)
    | Acquire(h: HandlerId)
    | Cancelled(h: HandlerId)                        // the context ends while waiting for a permit
    | Lock(h: HandlerId)
    | Register(h: HandlerId)
    | PublishConnected(h: HandlerId)
    | Greet(h: HandlerId, answer: Option<Health>, now: nat)
    | Poll(h: HandlerId, health: Health)             // the timer fires and the agent answers
    | Receive(h: HandlerId)                          // an incoming update is taken from the channel
    | Leave(h: HandlerId)
    | PublishNotReady(h: HandlerId, now: nat)
    | PublishDisconnected(h: HandlerId)
    | Unregister(h: HandlerId)
    | Unlock(h: HandlerId)
    | Release(h: HandlerId)
    | UpdateHealth(agent: AgentId, health: Health)
    | Close
    | CloserAcquires
    | CloseStatus
    | CloseHealth

  const INBOX_CAPACITY := 10

  /** The state a handler must be in for its step. */
  function PcOf(step: Step): Option<Pc> {
    match step
    case CheckClosed(_) => Some(Start)
    case Acquire(_) => Some(Checked)
    case Cancelled(_) => Some(Checked)
    case Lock(_) => Some(Permitted)
    case Register(_) => Some(Locked)
    case PublishConnected(_) => Some(Registered)
    case Greet(_, _, _) => Some(Greeting)
    case Poll(_, _) => Some(Looping)
    case Receive(_) => Some(Looping)
    case Leave(_) => Some(Looping)
    case PublishNotReady(_, _) => Some(Leaving)
    case PublishDisconnected(_) => Some(Farewell)
    case Unregister(_) => Some(Disconnected)
    case Unlock(_) => Some(Unregistered)
    case Release(_) => Some(Unlocked)
    case _ => None
  }

  predicate At(s: State, step: Step)
    requires PcOf(step).Some?
  {
    step.h in s.handlers && s.handlers[step.h].pc == PcOf(step).value
  }

  /** `max` is the number of permits. A step that sends is enabled whether or not its channel is closed. */
  predicate Enabled(max: nat, s: State, step: Step) {
    match step
    case Connect(h, _) => h !in s.handlers
    case UpdateHealth(a, _) =>
      a in s.incoming && s.incoming[a] in s.handlers ==> |s.handlers[s.incoming[a]].inbox| < INBOX_CAPACITY
    case Close => s.closer == Idle
    case CloserAcquires => s.closer == Waiting && s.PermitsHeld() == 0
    case CloseStatus => s.closer == Holding
    case CloseHealth => s.closer == StatusClosed
    case Acquire(h) => At(s, step) && (s.closer == Idle || s.closer == Waiting) && s.PermitsHeld() < max
    case Lock(h) => At(s, step) && s.handlers[h].id !in s.locks
    case Receive(h) => At(s, step) && s.handlers[h].inbox != []
    case _ => At(s, step)
  }

  /** The loop publishes a health only when it differs from the current one and is newer. */
  predicate Accepts(cur: Option<Health>, health: Health) {
    match cur
    case None => health.time > 0
    case Some(c) => health.value != c.value && health.time > c.time
  }

  /** The handler a step changes, if any. */
  function Target(s: State, step: Step): Option<HandlerId> {
    match step
    case Connect(h, _) => Some(h)
    case UpdateHealth(a, _) => if a in s.incoming && s.incoming[a] in s.handlers then Some(s.incoming[a]) else None
    case Close => None
    case CloserAcquires => None
    case CloseStatus => None
    case CloseHealth => None
    case _ => Some(step.h)
  }

  function Offered(x: Handler, health: Health): Handler {
    if Accepts(x.cur, health) then x.(cur := Some(health)) else x
  }

  /** What the handler becomes. */
  function Changed(max: nat, s: State, step: Step): Handler
    requires Enabled(max, s, step) && Target(s, step).Some?
  {
    if step.Connect? then Handler(step.agent, Start, None, [])
    else
      var x := s.handlers[Target(s, step).value];
      match step
      case CheckClosed(_) => x.(pc := if s.Closed() then Gone else Checked)
      case Acquire(_) => x.(pc := Permitted)
      case Cancelled(_) => x.(pc := Gone)
      case Lock(_) => x.(pc := Locked)
      case Register(_) => x.(pc := Registered, inbox := [])
      case PublishConnected(_) => x.(pc := Greeting)
      case Greet(_, answer, _) => x.(pc := Looping, cur := if answer.Some? then answer else x.cur)
      case Poll(_, health) => Offered(x, health)
      case Receive(_) => Offered(x.(inbox := x.inbox[1..]), x.inbox[0])
      case Leave(_) => x.(pc := Leaving)
      case PublishNotReady(_, _) => x.(pc := Farewell)
      case PublishDisconnected(_) => x.(pc := Disconnected)
      case Unregister(_) => x.(pc := Unregistered)
      case Unlock(_) => x.(pc := Unlocked)
      case Release(_) => x.(pc := Gone)
      case UpdateHealth(_, health) => x.(inbox := x.inbox + [health])
  }

  function StatusSent(max: nat, s: State, step: Step): seq<(AgentId, bool)>
    requires Enabled(max, s, step)
  {
    match step
    case PublishConnected(h) => [(s.handlers[h].id, true)]
    case PublishDisconnected(h) => [(s.handlers[h].id, false)]
    case _ => []
  }

  function HealthSent(max: nat, s: State, step: Step): seq<Published>
    requires Enabled(max, s, step)
  {
    match step
    case Greet(h, answer, now) =>
      if answer.Some? then [Published(h, s.handlers[h].id, Health(now, answer.value.value), false)] else []
    case Poll(h, health) =>
      if Accepts(s.handlers[h].cur, health) then [Published(h, s.handlers[h].id, health, true)] else []
    case Receive(h) =>
      var x := s.handlers[h];
      if Accepts(x.cur, x.inbox[0]) then [Published(h, x.id, x.inbox[0], true)] else []
    case PublishNotReady(h, now) => [Published(h, s.handlers[h].id, Health(now, 0), false)]
    case _ => []
  }

  function Next(max: nat, s: State, step: Step): State
    requires Enabled(max, s, step)
  {
    State(
      if Target(s, step).Some? then s.handlers[Target(s, step).value := Changed(max, s, step)] else s.handlers,
      match step
      case Lock(h) => s.locks[s.handlers[h].id := h]
      case Unlock(h) => s.locks - {s.handlers[h].id}
      case _ => s.locks,
      match step
      case Register(h) => s.incoming[s.handlers[h].id := h]
      case Unregister(h) => s.incoming - {s.handlers[h].id}
      case _ => s.incoming,
      match step
      case Close => Waiting
      case CloserAcquires => Holding
      case CloseStatus => StatusClosed
      case CloseHealth => AllClosed
      case _ => s.closer,
      s.statusLog + StatusSent(max, s, step),
      s.healthLog + HealthSent(max, s, step))
  }

  function Init(): State {
    State(map[], map[], map[], Idle, [], [])
  }

  ghost predicate IsRun(max: nat, steps: seq<Step>, run: seq<State>) {
    && |run| == |steps| + 1 && run[0] == Init()
    && forall i :: 0 <= i < |steps| ==> Enabled(max, run[i], steps[i]) && run[i + 1] == Next(max, run[i], steps[i])
  }

  // ------------------------------------------------- the invariant

  /** The statuses published for one agent, in order. */
  function StatusesOf(log: seq<(AgentId, bool)>, a: AgentId): seq<bool> {
    if log == [] then []
    else
      var rest, last := StatusesOf(log[..|log| - 1], a), log[|log| - 1];
      if last.0 == a then rest + [last.1] else rest
  }

  /** Connected, disconnected, connected, and so on. */
  predicate Alternates(statuses: seq<bool>) {
    forall i :: 0 <= i < |statuses| ==> statuses[i] == (i % 2 == 0)
  }

  predicate AgentConnected(s: State, a: AgentId) {
    a in s.locks && s.locks[a] in s.handlers && IsConnected(s.handlers[s.locks[a]].pc)
  }

  /** The last status published says whether a handler is connected. */
  ghost predicate StatusInv(s: State) {
    forall a :: AgentStatus(s, a)
  }

  predicate AgentStatus(s: State, a: AgentId) {
    && Alternates(StatusesOf(s.statusLog, a))
    && (|StatusesOf(s.statusLog, a)| % 2 == 1 <==> AgentConnected(s, a))
  }

  /** Mutexes and map entries belong to the handlers that took them. */
  ghost predicate LockInv(s: State) {
    && (forall h :: h in s.handlers ==> HandlerOwns(s, h))
    && (forall a :: a in s.locks ==> LockOwned(s, a))
    && (forall a :: a in s.incoming ==> EntryOwned(s, a))
  }

  predicate HandlerOwns(s: State, h: HandlerId)
    requires h in s.handlers
  {
    var x := s.handlers[h];
    && (HasLock(x.pc) ==> x.id in s.locks && s.locks[x.id] == h)
    && (HasEntry(x.pc) ==> x.id in s.incoming && s.incoming[x.id] == h)
  }

  predicate LockOwned(s: State, a: AgentId)
    requires a in s.locks
  {
    var h := s.locks[a];
    h in s.handlers && HasLock(s.handlers[h].pc) && s.handlers[h].id == a
  }

  predicate EntryOwned(s: State, a: AgentId)
    requires a in s.incoming
  {
    var h := s.incoming[a];
    h in s.handlers && HasEntry(s.handlers[h].pc) && s.handlers[h].id == a
  }

  /** The goroutine of Close keeps every permit from the moment it has them. */
  ghost predicate CloseInv(s: State) {
    s.closer == Holding || s.closer == StatusClosed || s.closer == AllClosed ==>
      forall h :: h in s.handlers ==> !HasPermit(s.handlers[h].pc)
  }

  /** What a handler's loop has published is for its own agent and no newer than its current health, and
      its updates are newer one after another. */
  ghost predicate HealthInv(s: State) {
    && (forall i :: 0 <= i < |s.healthLog| && s.healthLog[i].looped ==> PublishedBefore(s, s.healthLog[i]))
    && Ordered(s.healthLog)
  }

  predicate PublishedBefore(s: State, p: Published) {
    && p.sender in s.handlers && Past(s.handlers[p.sender].pc) && p.id == s.handlers[p.sender].id
    && s.handlers[p.sender].cur.Some? && p.health.time <= s.handlers[p.sender].cur.value.time
  }

  ghost predicate Ordered(log: seq<Published>) {
    forall i, j :: 0 <= i < j < |log| && log[i].looped && log[j].looped && log[i].sender == log[j].sender ==>
      log[i].health.time < log[j].health.time
  }

  /** The handler has been through its loop. */
  predicate Past(pc: Pc) {
    pc.Looping? || pc.Leaving? || pc.Farewell? || pc.Disconnected? || pc.Unregistered? || pc.Unlocked? || pc.Gone?
  }

  ghost predicate Inv(s: State) {
    StatusInv(s) && LockInv(s) && CloseInv(s) && HealthInv(s)
  }

  // ------------------------------------------------- steps keep it

  /** A handler changes without taking or giving up a mutex or a map entry. */
  lemma PutLock(s: State, t: State, h: HandlerId, x: Handler)
    requires LockInv(s) && t.handlers == s.handlers[h := x] && t.locks == s.locks && t.incoming == s.incoming
    requires if h in s.handlers then x.id == s.handlers[h].id && HasLock(x.pc) == HasLock(s.handlers[h].pc)
                                     && HasEntry(x.pc) == HasEntry(s.handlers[h].pc)
             else !HasLock(x.pc) && !HasEntry(x.pc)
    ensures LockInv(t)
  {
    forall k | k in t.handlers ensures HandlerOwns(t, k) {
      if k != h || h in s.handlers { assert HandlerOwns(s, k); }
    }
    forall a | a in t.locks ensures LockOwned(t, a) { assert LockOwned(s, a); }
    forall a | a in t.incoming ensures EntryOwned(t, a) { assert EntryOwned(s, a); }
  }

  predicate Takes(step: Step) {
    step.Lock? || step.Register? || step.Unregister? || step.Unlock?
  }

  lemma TakeOwns(max: nat, s: State, step: Step, k: HandlerId)
    requires LockInv(s) && Enabled(max, s, step) && Takes(step) && k in Next(max, s, step).handlers
    ensures HandlerOwns(Next(max, s, step), k)
  {
    assert HandlerOwns(s, step.h) && HandlerOwns(s, k);
  }

  /** Taking or giving up the agent's mutex or map entry. */
  lemma TakeLock(max: nat, s: State, step: Step)
    requires LockInv(s) && Enabled(max, s, step) && Takes(step)
    ensures LockInv(Next(max, s, step))
  {
    var t, a := Next(max, s, step), s.handlers[step.h].id;
    assert HandlerOwns(s, step.h);
    forall k | k in t.handlers ensures HandlerOwns(t, k) { TakeOwns(max, s, step, k); }
    forall b | b in t.locks ensures LockOwned(t, b) {
      if b != a { assert LockOwned(s, b); }
    }
    forall b | b in t.incoming ensures EntryOwned(t, b) {
      if b != a { assert EntryOwned(s, b); }
    }
  }

  lemma ChangedLocks(max: nat, s: State, step: Step)
    requires Enabled(max, s, step) && Target(s, step).Some? && !Takes(step)
    ensures var h, x := Target(s, step).value, Changed(max, s, step);
            if h in s.handlers then x.id == s.handlers[h].id && HasLock(x.pc) == HasLock(s.handlers[h].pc)
                                    && HasEntry(x.pc) == HasEntry(s.handlers[h].pc)
            else !HasLock(x.pc) && !HasEntry(x.pc)
  {
  }

  lemma NextLock(max: nat, s: State, step: Step)
    requires LockInv(s) && Enabled(max, s, step)
    ensures LockInv(Next(max, s, step))
  {
    if Takes(step) {
      TakeLock(max, s, step);
    } else if Target(s, step).Some? {
      ChangedLocks(max, s, step);
      PutLock(s, Next(max, s, step), Target(s, step).value, Changed(max, s, step));
    } else {
      SameLocks(s, Next(max, s, step));
    }
  }

  lemma SameLocks(s: State, t: State)
    requires LockInv(s) && t.handlers == s.handlers && t.locks == s.locks && t.incoming == s.incoming
    ensures LockInv(t)
  {
    forall h | h in t.handlers ensures HandlerOwns(t, h) { assert HandlerOwns(s, h); }
    forall a | a in t.locks ensures LockOwned(t, a) { assert LockOwned(s, a); }
    forall a | a in t.incoming ensures EntryOwned(t, a) { assert EntryOwned(s, a); }
  }

  lemma NonePermitted(s: State)
    requires s.PermitsHeld() == 0
    ensures forall h :: h in s.handlers ==> !HasPermit(s.handlers[h].pc)
  {
    var holders := set h | h in s.handlers && HasPermit(s.handlers[h].pc);
    assert holders == {};
    assert forall h :: h in s.handlers && HasPermit(s.handlers[h].pc) ==> h in holders;
  }

  lemma NextClose(max: nat, s: State, step: Step)
    requires CloseInv(s) && Enabled(max, s, step)
    ensures CloseInv(Next(max, s, step))
  {
    if step.CloserAcquires? {
      NonePermitted(s);
    } else if Target(s, step).Some? {
      ChangedPermit(max, s, step);
      PutClose(s, Next(max, s, step), Target(s, step).value, Changed(max, s, step));
    }
  }

  /** A handler changes without getting a permit while the goroutine of Close holds them all. */
  lemma PutClose(s: State, t: State, h: HandlerId, x: Handler)
    requires CloseInv(s) && t.handlers == s.handlers[h := x] && t.closer == s.closer
    requires HasPermit(x.pc) ==> s.closer == Idle || s.closer == Waiting || (h in s.handlers && HasPermit(s.handlers[h].pc))
    ensures CloseInv(t)
  {
  }

  /** A handler gets a permit only by acquiring it. */
  lemma ChangedPermit(max: nat, s: State, step: Step)
    requires Enabled(max, s, step) && Target(s, step).Some?
    ensures HasPermit(Changed(max, s, step).pc) ==>
              step.Acquire? || (Target(s, step).value in s.handlers && HasPermit(s.handlers[Target(s, step).value].pc))
  {
  }

  lemma StatusAppend(log: seq<(AgentId, bool)>, a: AgentId, up: bool)
    ensures forall b :: StatusesOf(log + [(a, up)], b) == if b == a then StatusesOf(log, b) + [up] else StatusesOf(log, b)
  {
    assert (log + [(a, up)])[..|log|] == log;
  }

  lemma ChangedConnected(max: nat, s: State, step: Step)
    requires Enabled(max, s, step) && Target(s, step).Some?
    ensures var h, x := Target(s, step).value, Changed(max, s, step);
            IsConnected(x.pc) == if step.PublishConnected? then true else if step.PublishDisconnected? then false
                                 else h in s.handlers && IsConnected(s.handlers[h].pc)
  {
  }

  /** Only publishing a status changes whether an agent is connected. */
  lemma SameConnected(max: nat, s: State, step: Step, a: AgentId)
    requires LockInv(s) && Enabled(max, s, step)
    ensures AgentConnected(Next(max, s, step), a) ==
            if step.PublishConnected? && s.handlers[step.h].id == a then true
            else if step.PublishDisconnected? && s.handlers[step.h].id == a then false
            else AgentConnected(s, a)
  {
    if Target(s, step).Some? {
      TargetConnected(max, s, step, a);
    }
  }

  lemma TargetConnected(max: nat, s: State, step: Step, a: AgentId)
    requires LockInv(s) && Enabled(max, s, step) && Target(s, step).Some?
    ensures AgentConnected(Next(max, s, step), a) ==
            if step.PublishConnected? && s.handlers[step.h].id == a then true
            else if step.PublishDisconnected? && s.handlers[step.h].id == a then false
            else AgentConnected(s, a)
  {
    var h := Target(s, step).value;
    ChangedConnected(max, s, step);
    if h in s.handlers { assert HandlerOwns(s, h); }
    if a in s.locks {
      assert LockOwned(s, a);
      if s.locks[a] != h { assert Next(max, s, step).handlers[s.locks[a]] == s.handlers[s.locks[a]]; }
    }
  }

  lemma NextAgentStatus(max: nat, s: State, step: Step, a: AgentId)
    requires LockInv(s) && AgentStatus(s, a) && Enabled(max, s, step)
    ensures AgentStatus(Next(max, s, step), a)
  {
    SameConnected(max, s, step, a);
    if step.PublishConnected? || step.PublishDisconnected? {
      assert HandlerOwns(s, step.h);
      PublishedStatus(s, Next(max, s, step), a, s.handlers[step.h].id, step.PublishConnected?);
    } else {
      assert Next(max, s, step).statusLog == s.statusLog;
    }
  }

  lemma PublishedStatus(s: State, t: State, a: AgentId, b: AgentId, up: bool)
    requires AgentStatus(s, a) && t.statusLog == s.statusLog + [(b, up)] && (a == b ==> AgentConnected(s, a) == !up)
    requires AgentConnected(t, a) == if a == b then up else AgentConnected(s, a)
    ensures AgentStatus(t, a)
  {
    StatusAppend(s.statusLog, b, up);
  }

  lemma NextStatus(max: nat, s: State, step: Step)
    requires LockInv(s) && StatusInv(s) && Enabled(max, s, step)
    ensures StatusInv(Next(max, s, step))
  {
    forall a ensures AgentStatus(Next(max, s, step), a) {
      assert AgentStatus(s, a);
      NextAgentStatus(max, s, step, a);
    }
  }

  predicate NotOlder(x: Option<Health>, y: Option<Health>) {
    y.Some? ==> x.Some? && y.value.time <= x.value.time
  }

  /** A handler that has reached its loop keeps its agent and never goes back to an older health. */
  lemma ChangedHealth(max: nat, s: State, step: Step)
    requires Enabled(max, s, step) && Target(s, step).Some?
    ensures var h, x := Target(s, step).value, Changed(max, s, step);
            h in s.handlers && Past(s.handlers[h].pc) ==>
              Past(x.pc) && x.id == s.handlers[h].id && NotOlder(x.cur, s.handlers[h].cur)
  {
  }

  /** An update the loop publishes is newer than everything it published before. */
  lemma SentNewer(max: nat, s: State, step: Step)
    requires HealthInv(s) && Enabled(max, s, step) && HealthSent(max, s, step) != []
    requires HealthSent(max, s, step)[0].looped
    ensures var p := HealthSent(max, s, step)[0];
            && PublishedBefore(Next(max, s, step), p)
            && forall i :: 0 <= i < |s.healthLog| && s.healthLog[i].looped && s.healthLog[i].sender == p.sender ==>
                 s.healthLog[i].health.time < p.health.time
  {
    var p := HealthSent(max, s, step)[0];
    forall i | 0 <= i < |s.healthLog| && s.healthLog[i].looped && s.healthLog[i].sender == p.sender
      ensures s.healthLog[i].health.time < p.health.time
    {
      assert PublishedBefore(s, s.healthLog[i]);
    }
  }

  lemma NextHealth(max: nat, s: State, step: Step)
    requires HealthInv(s) && Enabled(max, s, step)
    ensures HealthInv(Next(max, s, step))
  {
    var t, sent := Next(max, s, step), HealthSent(max, s, step);
    if Target(s, step).Some? { ChangedHealth(max, s, step); }
    if sent != [] && sent[0].looped { SentNewer(max, s, step); }
    forall i | 0 <= i < |t.healthLog| && t.healthLog[i].looped ensures PublishedBefore(t, t.healthLog[i]) {
      if i < |s.healthLog| { assert PublishedBefore(s, s.healthLog[i]); }
    }
  }

  lemma NextKeepsInv(max: nat, s: State, step: Step)
    requires Inv(s) && Enabled(max, s, step)
    ensures Inv(Next(max, s, step))
  {
    NextLock(max, s, step);
    NextClose(max, s, step);
    NextStatus(max, s, step);
    NextHealth(max, s, step);
  }

  lemma {:induction false} RunInv(max: nat, steps: seq<Step>, run: seq<State>, i: nat)
    requires IsRun(max, steps, run) && i < |run|
    ensures Inv(run[i])
  {
    if i > 0 {
      RunInv(max, steps, run, i - 1);
      NextKeepsInv(max, run[i - 1], steps[i - 1]);
    }
  }

  // ------------------------------------------------- what every run gives

  predicate SendsStatus(step: Step) {
    step.PublishConnected? || step.PublishDisconnected?
  }

  predicate SendsHealth(step: Step) {
    step.Greet? || step.Poll? || step.Receive? || step.PublishNotReady?
  }

  /** In every interleaving of Close with any number of connections, nothing is sent on a channel that has
      been closed. */
  lemma NoSendAfterClose(max: nat, steps: seq<Step>, run: seq<State>, i: nat)
    requires IsRun(max, steps, run) && i < |steps|
    ensures SendsStatus(steps[i]) ==> run[i].StatusOpen()
    ensures SendsHealth(steps[i]) ==> run[i].HealthOpen()
  {
    RunInv(max, steps, run, i);
    assert Enabled(max, run[i], steps[i]);
  }

  /** For each agent the published statuses alternate, starting with connected, over all its reconnects. */
  lemma StatusesAlternate(max: nat, steps: seq<Step>, run: seq<State>, i: nat, a: AgentId)
    requires IsRun(max, steps, run) && i < |run|
    ensures Alternates(StatusesOf(run[i].statusLog, a))
    ensures |StatusesOf(run[i].statusLog, a)| % 2 == 1 <==> AgentConnected(run[i], a)
  {
    RunInv(max, steps, run, i);
    assert AgentStatus(run[i], a);
  }

  /** The incoming-update entry of an agent belongs to the one handler that holds the agent's mutex. */
  lemma EntryBelongsToLockHolder(max: nat, steps: seq<Step>, run: seq<State>, i: nat, a: AgentId)
    requires IsRun(max, steps, run) && i < |run| && a in run[i].incoming
    ensures a in run[i].locks && run[i].incoming[a] == run[i].locks[a]
    ensures forall h :: h in run[i].handlers && HasLock(run[i].handlers[h].pc) && run[i].handlers[h].id == a ==>
              h == run[i].incoming[a]
  {
    RunInv(max, steps, run, i);
    assert EntryOwned(run[i], a);
    assert HandlerOwns(run[i], run[i].incoming[a]);
    forall h | h in run[i].handlers && HasLock(run[i].handlers[h].pc) && run[i].handlers[h].id == a
      ensures h == run[i].incoming[a]
    {
      assert HandlerOwns(run[i], h);
    }
  }

  /** What one connection's loop publishes is newer each time, and always about its own agent. */
  lemma UpdatesGetNewer(max: nat, steps: seq<Step>, run: seq<State>, i: nat)
    requires IsRun(max, steps, run) && i < |run|
    ensures Ordered(run[i].healthLog)
    ensures forall n :: 0 <= n < |run[i].healthLog| && run[i].healthLog[n].looped ==>
              run[i].healthLog[n].sender in run[i].handlers
              && run[i].healthLog[n].id == run[i].handlers[run[i].healthLog[n].sender].id
  {
    RunInv(max, steps, run, i);
    assert forall n :: 0 <= n < |run[i].healthLog| && run[i].healthLog[n].looped ==> PublishedBefore(run[i], run[i].healthLog[n]);
  }
}
