/** The series buffers between the batch generator and the write workers (internal/bench/workload.go,
    internal/bench/write_runner.go), also when the context ends. */
module BenchBuffers {
  import opened Common

  type BufferId = nat
  type WorkerId = nat
  type Contents = seq<int>

  /** A batch request: which buffer, and what it held when it was sent. */
  datatype Batch = Batch(buffer: BufferId, sent: Contents)

  /** A worker puts the buffer back, then counts the request as done. */
  datatype Worker = Idle | Sending(batch: Batch) | PuttingBack

  /** The generator fills and sends buffers, waits at the end of a tick, and stops once the context has ended. */
  datatype Phase = Filling | Waiting | Stopped

  datatype State = State(
    phase: Phase,
    canceled: bool,
    made: nat,                      // buffers made by the generator after the end of the context
    free: seq<BufferId>,            // the buffer channel, with room for all buffers
    queue: seq<Batch>,              // the batch channel
    workers: map<WorkerId, Worker>,
    current: Option<BufferId>,      // the generator's buffer
    pending: nat,                   // the wait group
    contents: map<BufferId, Contents>)

  const QUEUE_SIZE := 10

  datatype Step =
    | TakeBuffer
    | Make(x: int)                  // no buffer is waited for any more: the next sample goes into a new one
    | Fill(x: int)
    | SendBatch
    | Wait
    | Resume
    | Cancel
    | Receive(w: WorkerId)
    | PutBack(w: WorkerId)
    | Done(w: WorkerId)

  predicate Holds(s: State, w: WorkerId) {
    w in s.workers && s.workers[w].Sending?
  }

  /** Channel operations that would block are not enabled. */
  predicate Enabled(buffers: nat, s: State, step: Step) {
    match step
    case TakeBuffer => s.phase.Filling? && s.current.None? && s.free != []
    case Make(_) => s.phase.Filling? && s.canceled && s.current.None?
    case Fill(_) => s.phase.Filling? && s.current.Some? && s.current.value in s.contents
    case SendBatch => s.phase.Filling? && s.current.Some? && |s.queue| < QUEUE_SIZE && s.current.value in s.contents
    case Wait => s.phase.Filling? && (if s.current.None? then s.canceled
                                      else s.current.value in s.contents && s.contents[s.current.value] == [])
    case Resume => s.phase.Waiting? && s.pending == 0
    case Cancel => !s.canceled
    case Receive(w) => w in s.workers && s.workers[w].Idle? && s.queue != []
    case PutBack(w) => Holds(s, w) && |s.free| < buffers
    case Done(w) => w in s.workers && s.workers[w].PuttingBack? && s.pending > 0
  }

  function NextWorkers(s: State, step: Step): map<WorkerId, Worker> {
    match step
    case Receive(w) => if s.queue != [] then s.workers[w := Sending(s.queue[0])] else s.workers
    case PutBack(w) => s.workers[w := PuttingBack]
    case Done(w) => s.workers[w := Idle]
    case _ => s.workers
  }

  function Next(buffers: nat, s: State, step: Step): State
    requires Enabled(buffers, s, step)
  {
    State(
      if step.Wait? then Waiting else if step.Resume? then (if s.canceled then Stopped else Filling) else s.phase,
      s.canceled || step.Cancel?,
      if step.Make? then s.made + 1 else s.made,
      match step
      case TakeBuffer => s.free[1..]
      case PutBack(w) => s.free + [s.workers[w].batch.buffer]
      case _ => s.free,
      match step
      case SendBatch => s.queue + [Batch(s.current.value, s.contents[s.current.value])]
      case Receive(_) => s.queue[1..]
      case _ => s.queue,
      NextWorkers(s, step),
      match step
      case TakeBuffer => Some(s.free[0])
      case Make(_) => Some(buffers + s.made)
      case SendBatch => None
      case _ => s.current,
      if step.SendBatch? then s.pending + 1 else if step.Done? then s.pending - 1 else s.pending,
      match step
      case TakeBuffer => s.contents[s.free[0] := []]
      case Make(x) => s.contents[buffers + s.made := [x]]
      case Fill(x) => s.contents[s.current.value := s.contents[s.current.value] + [x]]
      case _ => s.contents)
  }

  function Count(n: nat): seq<BufferId> {
    if n == 0 then [] else Count(n - 1) + [n - 1]
  }

  ghost predicate Init(buffers: nat, s: State) {
    && s.phase.Filling? && !s.canceled && s.made == 0
    && s.free == Count(buffers) && s.queue == [] && s.current.None? && s.pending == 0
    && (forall w :: w in s.workers ==> s.workers[w].Idle?)
    && (forall b :: b in s.free <==> b in s.contents)
  }

  ghost predicate IsRun(buffers: nat, steps: seq<Step>, run: seq<State>) {
    && |run| == |steps| + 1 && Init(buffers, run[0])
    && forall i :: 0 <= i < |steps| ==> Enabled(buffers, run[i], steps[i]) && run[i + 1] == Next(buffers, run[i], steps[i])
  }

  // ------------------------------------------------- no buffer is lost

  function Holders(s: State): set<WorkerId> {
    set w | w in s.workers && s.workers[w].Sending?
  }

  function Returning(s: State): set<WorkerId> {
    set w | w in s.workers && s.workers[w].PuttingBack?
  }

  function InHand(s: State): nat {
    if s.current.Some? then 1 else 0
  }

  ghost predicate Conserved(buffers: nat, s: State) {
    && |s.free| + |s.queue| + |Holders(s)| + InHand(s) == buffers + s.made
    && |s.free| <= buffers
    && (s.made > 0 ==> s.canceled)
    && s.pending == |s.queue| + |Holders(s)| + |Returning(s)|
  }

  lemma WorkerMoves(buffers: nat, s: State, step: Step)
    requires Enabled(buffers, s, step)
    ensures var t := Next(buffers, s, step);
            && Holders(t) == (match step case Receive(w) => Holders(s) + {w} case PutBack(w) => Holders(s) - {w} case _ => Holders(s))
            && Returning(t) == (match step case PutBack(w) => Returning(s) + {w} case Done(w) => Returning(s) - {w} case _ => Returning(s))
  {
  }

  lemma NextConserved(buffers: nat, s: State, step: Step)
    requires Conserved(buffers, s) && Enabled(buffers, s, step)
    ensures Conserved(buffers, Next(buffers, s, step))
  {
    WorkerMoves(buffers, s, step);
    match step
    case Receive(w) => assert w !in Holders(s) && w !in Returning(s);
    case PutBack(w) => assert w in Holders(s) && w !in Returning(s);
    case Done(w) => assert w in Returning(s) && w !in Holders(s);
    case _ =>
  }

  // ------------------------------------------------- nobody else has a buffer

  function Queued(q: seq<Batch>): (r: seq<BufferId>)
    ensures |r| == |q|
    ensures forall i :: 0 <= i < |q| ==> r[i] == q[i].buffer
  {
    if q == [] then [] else [q[0].buffer] + Queued(q[1..])
  }

  predicate InChannel(s: State, b: BufferId) {
    b in s.free || b in Queued(s.queue)
  }

  ghost predicate ChannelsInv(s: State) {
    && NoDup(s.free) && NoDup(Queued(s.queue))
    && (forall b :: b in s.free ==> b !in Queued(s.queue))
  }

  ghost predicate CurrentInv(s: State) {
    s.current.Some? ==> !InChannel(s, s.current.value) && s.current.value in s.contents
  }

  /** The worker's buffer is in no channel, is not the generator's, and still holds what was sent. */
  ghost predicate WorkerInv(s: State, w: WorkerId) {
    Holds(s, w) ==>
      var batch := s.workers[w].batch;
      && !InChannel(s, batch.buffer) && s.current != Some(batch.buffer) && Unchanged(s, batch)
  }

  predicate Unchanged(s: State, batch: Batch) {
    batch.buffer in s.contents && s.contents[batch.buffer] == batch.sent
  }

  ghost predicate Apart(s: State, w: WorkerId, v: WorkerId) {
    Holds(s, w) && Holds(s, v) && w != v ==> s.workers[w].batch.buffer != s.workers[v].batch.buffer
  }

  ghost predicate QueueInv(s: State) {
    && (forall b :: b in s.free ==> b in s.contents)
    && (forall batch :: batch in s.queue ==> Unchanged(s, batch))
  }

  /** A buffer still to be made is none of those there are. */
  ghost predicate NewInv(buffers: nat, s: State) {
    forall b :: b in s.contents ==> b < buffers + s.made
  }

  ghost predicate OwnInv(buffers: nat, s: State) {
    && NewInv(buffers, s)
    && ChannelsInv(s) && CurrentInv(s) && QueueInv(s)
    && (forall w :: WorkerInv(s, w)) && (forall w, v :: Apart(s, w, v))
  }

  lemma QueuedAppend(q: seq<Batch>, batch: Batch)
    ensures Queued(q + [batch]) == Queued(q) + [batch.buffer]
  {
  }

  lemma QueuedIn(q: seq<Batch>, batch: Batch)
    requires batch in q
    ensures batch.buffer in Queued(q)
  {
    var i :| 0 <= i < |q| && q[i] == batch;
    assert Queued(q)[i] == batch.buffer;
  }

  lemma TailMembers<T>(s: seq<T>, x: T)
    requires s != [] && NoDup(s)
    ensures x in s[1..] <==> x in s && x != s[0]
  {
    if x in s[1..] {
      var i :| 0 <= i < |s| - 1 && s[1..][i] == x;
      assert s[i + 1] == x && s[0] != s[i + 1];
    }
    if x in s && x != s[0] {
      var i :| 0 <= i < |s| && s[i] == x;
      assert s[1..][i - 1] == x;
    }
  }

  /** What a step does to the ids in the two channels. */
  lemma ChannelIds(buffers: nat, s: State, step: Step, b: BufferId)
    requires ChannelsInv(s) && Enabled(buffers, s, step)
    ensures b in Next(buffers, s, step).free <==>
            (match step
             case TakeBuffer => b in s.free && b != s.free[0]
             case PutBack(w) => b in s.free || b == s.workers[w].batch.buffer
             case _ => b in s.free)
    ensures b in Queued(Next(buffers, s, step).queue) <==>
            (match step
             case SendBatch => b in Queued(s.queue) || b == s.current.value
             case Receive(_) => b in Queued(s.queue) && b != s.queue[0].buffer
             case _ => b in Queued(s.queue))
  {
    match step
    case TakeBuffer => TailMembers(s.free, b);
    case SendBatch => QueuedAppend(s.queue, Batch(s.current.value, s.contents[s.current.value]));
    case Receive(_) =>
      assert Queued(s.queue)[1..] == Queued(s.queue[1..]);
      TailMembers(Queued(s.queue), b);
    case _ =>
  }

  lemma NextChannels(buffers: nat, s: State, step: Step)
    requires OwnInv(buffers, s) && Enabled(buffers, s, step)
    ensures ChannelsInv(Next(buffers, s, step))
  {
    var t := Next(buffers, s, step);
    forall b | b in t.free ensures b !in Queued(t.queue) {
      ChannelIds(buffers, s, step, b);
      if step.PutBack? { assert WorkerInv(s, step.w); }
    }
    match step
    case SendBatch => QueuedAppend(s.queue, Batch(s.current.value, s.contents[s.current.value]));
    case Receive(_) => assert Queued(s.queue)[1..] == Queued(t.queue);
    case PutBack(w) => assert WorkerInv(s, w);
    case _ =>
  }

  lemma InChannelThere(buffers: nat, s: State, b: BufferId)
    requires OwnInv(buffers, s) && InChannel(s, b)
    ensures b in s.contents
  {
    if b in Queued(s.queue) {
      var i :| 0 <= i < |s.queue| && Queued(s.queue)[i] == b;
      assert s.queue[i] in s.queue;
    }
  }

  lemma NextNew(buffers: nat, s: State, step: Step)
    requires OwnInv(buffers, s) && Enabled(buffers, s, step)
    ensures NewInv(buffers, Next(buffers, s, step))
  {
    if step.TakeBuffer? { assert s.free[0] in s.free; }
  }

  lemma NextCurrent(buffers: nat, s: State, step: Step)
    requires OwnInv(buffers, s) && Enabled(buffers, s, step)
    ensures CurrentInv(Next(buffers, s, step))
  {
    var t := Next(buffers, s, step);
    if t.current.Some? {
      ChannelIds(buffers, s, step, t.current.value);
      if step.PutBack? { assert WorkerInv(s, step.w); }
      if step.TakeBuffer? { assert s.free[0] in s.free; }
      if step.Make? && InChannel(s, t.current.value) { InChannelThere(buffers, s, t.current.value); }
    }
  }

  /** Only the generator writes, and only to its own buffer. */
  lemma OthersUnchanged(buffers: nat, s: State, step: Step, batch: Batch)
    requires OwnInv(buffers, s) && Enabled(buffers, s, step) && Unchanged(s, batch)
    requires s.current != Some(batch.buffer) && batch.buffer !in s.free
    ensures Unchanged(Next(buffers, s, step), batch)
  {
  }

  lemma NextQueue(buffers: nat, s: State, step: Step)
    requires OwnInv(buffers, s) && Enabled(buffers, s, step)
    ensures QueueInv(Next(buffers, s, step))
  {
    var t := Next(buffers, s, step);
    forall b | b in t.free ensures b in t.contents {
      ChannelIds(buffers, s, step, b);
      if step.PutBack? { assert WorkerInv(s, step.w); }
    }
    forall batch | batch in t.queue ensures Unchanged(t, batch) {
      if batch in s.queue {
        QueuedIn(s.queue, batch);
        OthersUnchanged(buffers, s, step, batch);
      }
    }
  }

  lemma NextWorker(buffers: nat, s: State, step: Step, w: WorkerId)
    requires OwnInv(buffers, s) && Enabled(buffers, s, step)
    ensures WorkerInv(Next(buffers, s, step), w)
  {
    var t := Next(buffers, s, step);
    if Holds(t, w) {
      var batch := t.workers[w].batch;
      ChannelIds(buffers, s, step, batch.buffer);
      if step == Receive(w) {
        QueuedIn(s.queue, batch);
        OthersUnchanged(buffers, s, step, batch);
      } else {
        assert WorkerInv(s, w);
        OthersUnchanged(buffers, s, step, batch);
        if step.PutBack? { assert Apart(s, w, step.w); }
      }
    }
  }

  lemma NextApart(buffers: nat, s: State, step: Step, w: WorkerId, v: WorkerId)
    requires OwnInv(buffers, s) && Enabled(buffers, s, step)
    ensures Apart(Next(buffers, s, step), w, v)
  {
    assert Apart(s, w, v) && WorkerInv(s, w) && WorkerInv(s, v);
    if step.Receive? { QueuedIn(s.queue, s.queue[0]); }
  }

  lemma NextOwn(buffers: nat, s: State, step: Step)
    requires OwnInv(buffers, s) && Enabled(buffers, s, step)
    ensures OwnInv(buffers, Next(buffers, s, step))
  {
    NextNew(buffers, s, step);
    NextChannels(buffers, s, step);
    NextCurrent(buffers, s, step);
    NextQueue(buffers, s, step);
    forall w ensures WorkerInv(Next(buffers, s, step), w) { NextWorker(buffers, s, step, w); }
    forall w, v ensures Apart(Next(buffers, s, step), w, v) { NextApart(buffers, s, step, w, v); }
  }

  // ------------------------------------------------- theorems about runs

  lemma {:induction false} CountAll(n: nat)
    ensures |Count(n)| == n && forall k :: 0 <= k < n ==> Count(n)[k] == k
  {
    if n > 0 { CountAll(n - 1); }
  }

  lemma {:induction false} RunInv(buffers: nat, steps: seq<Step>, run: seq<State>, i: nat)
    requires IsRun(buffers, steps, run) && i < |run|
    ensures Conserved(buffers, run[i]) && OwnInv(buffers, run[i])
  {
    if i == 0 {
      CountAll(buffers);
      assert Holders(run[0]) == {} && Returning(run[0]) == {};
    } else {
      RunInv(buffers, steps, run, i - 1);
      NextConserved(buffers, run[i - 1], steps[i - 1]);
      NextOwn(buffers, run[i - 1], steps[i - 1]);
    }
  }

  /** In every run the free buffers, the queued batches, the batches the workers hold and the generator's buffer
      add up to all buffers and those made after the end of the context. */
  lemma BuffersConserved(buffers: nat, steps: seq<Step>, run: seq<State>, i: nat, w: WorkerId)
    requires IsRun(buffers, steps, run) && i < |run|
    ensures |run[i].free| + |run[i].queue| + |Holders(run[i])| + InHand(run[i]) == buffers + run[i].made
    ensures run[i].made > 0 ==> run[i].canceled
    ensures run[i].pending == 0 ==> |run[i].free| + InHand(run[i]) == buffers + run[i].made
    ensures w in run[i].workers && run[i].workers[w].PuttingBack? ==> Enabled(buffers, run[i], Done(w))
  {
    RunInv(buffers, steps, run, i);
    if w in run[i].workers && run[i].workers[w].PuttingBack? { assert w in Returning(run[i]); }
  }

  /** The exact condition: a worker is kept from handing its buffer back if and only if as many buffers were made
      as there are batches queued and held and a buffer in the generator's hands. */
  lemma BlockedIff(buffers: nat, steps: seq<Step>, run: seq<State>, i: nat, w: WorkerId)
    requires IsRun(buffers, steps, run) && i < |run| && Holds(run[i], w)
    ensures !Enabled(buffers, run[i], PutBack(w)) <==>
            run[i].made == |run[i].queue| + |Holders(run[i])| + InHand(run[i])
    ensures !run[i].canceled ==> Enabled(buffers, run[i], PutBack(w))
  {
    RunInv(buffers, steps, run, i);
    assert w in Holders(run[i]);
  }

  // ------------------------------------------------- the end of a tick

  /** While the generator waits, nothing but its workers moves, and their work gets less. */
  function Work(s: State): nat {
    3 * |s.queue| + 2 * |Holders(s)| + |Returning(s)|
  }

  lemma WaitingStep(buffers: nat, s: State, step: Step)
    requires Conserved(buffers, s) && s.phase.Waiting? && Enabled(buffers, s, step) && !step.Resume?
    ensures var t := Next(buffers, s, step);
            && t.phase.Waiting? && t.made == s.made && InHand(t) == InHand(s)
            && (if step.Cancel? then Work(t) == Work(s) else Work(t) < Work(s))
  {
    WorkerMoves(buffers, s, step);
    match step
    case Receive(w) => assert w !in Holders(s) && w !in Returning(s);
    case PutBack(w) => assert w in Holders(s) && w !in Returning(s);
    case Done(w) => assert w in Returning(s) && w !in Holders(s);
    case _ =>
  }

  /** More buffers were made than the generator holds. */
  predicate Overfull(s: State) {
    s.made > InHand(s)
  }

  /** If so when the wait begins, it never ends. */
  lemma {:induction false} WaitNeverEnds(buffers: nat, steps: seq<Step>, run: seq<State>, i: nat, j: nat)
    requires IsRun(buffers, steps, run) && i <= j < |run| && run[i].phase.Waiting? && Overfull(run[i])
    ensures run[j].phase.Waiting? && Overfull(run[j]) && run[j].pending > 0
  {
    RunInv(buffers, steps, run, j);
    if i < j {
      WaitNeverEnds(buffers, steps, run, i, j - 1);
      RunInv(buffers, steps, run, j - 1);
      WaitingStep(buffers, run[j - 1], steps[j - 1]);
    }
  }

  /** If not, some worker can go on until the wait is over, and each step of one leaves less work; so the wait
      ends if and only if no more buffers were made than the generator holds. */
  lemma WaitGoesOn(buffers: nat, steps: seq<Step>, run: seq<State>, i: nat, v: WorkerId) returns (step: Step)
    requires IsRun(buffers, steps, run) && i < |run| && run[i].phase.Waiting? && !Overfull(run[i]) && v in run[i].workers
    ensures Enabled(buffers, run[i], step) && !step.Cancel? && (step.Resume? <==> run[i].pending == 0)
    ensures !step.Resume? ==> Work(Next(buffers, run[i], step)) < Work(run[i]) && !Overfull(Next(buffers, run[i], step))
  {
    var s := run[i];
    RunInv(buffers, steps, run, i);
    if w :| w in Returning(s) {
      step := Done(w);
    } else if w :| w in Holders(s) {
      step := PutBack(w);
    } else if s.queue != [] {
      assert v !in Holders(s) && v !in Returning(s);
      step := Receive(v);
    } else {
      assert Holders(s) == {} && Returning(s) == {};
      step := Resume;
    }
    if !step.Resume? { WaitingStep(buffers, s, step); }
  }

  /** A buffer a worker reads is not the one being filled, is in no channel and with no other worker, and holds
      exactly what the generator sent. */
  lemma NeverFilledWhileRead(buffers: nat, steps: seq<Step>, run: seq<State>, i: nat, w: WorkerId, v: WorkerId)
    requires IsRun(buffers, steps, run) && i < |run| && Holds(run[i], w)
    ensures var batch := run[i].workers[w].batch;
            && run[i].current != Some(batch.buffer) && !InChannel(run[i], batch.buffer)
            && (Holds(run[i], v) && v != w ==> run[i].workers[v].batch.buffer != batch.buffer)
            && Unchanged(run[i], batch)
  {
    RunInv(buffers, steps, run, i);
    assert WorkerInv(run[i], w) && Apart(run[i], w, v);
  }

  // ------------------------------------------------- a wait that never ends

  const TWO_IDLE: map<WorkerId, Worker> := Both(Idle, Idle)

  function Fresh(buffers: nat): State {
    State(Filling, false, 0, Count(buffers), [], TWO_IDLE, None, 0, map b | b in Count(buffers) :: [])
  }

  function Contents0(buffers: nat): map<BufferId, Contents> {
    Fresh(buffers).contents[0 := []][0 := [3]]
  }

  /** The generator has sent its first buffer. */
  function SentOne(buffers: nat, canceled: bool): State
    requires buffers > 0
  {
    State(Filling, canceled, 0, Count(buffers)[1..], [Batch(0, [3])], TWO_IDLE, None, 1, Contents0(buffers))
  }

  /** And then one it made itself, and waits while the workers are where they are. */
  function SentTwo(buffers: nat, free: seq<BufferId>, queue: seq<Batch>, workers: map<WorkerId, Worker>, pending: nat): State {
    State(Waiting, true, 1, free, queue, workers, None, pending, Contents0(buffers)[buffers := [7]])
  }

  ghost predicate Reachable(buffers: nat, s: State) {
    exists steps, run :: IsRun(buffers, steps, run) && run[|run| - 1] == s
  }

  lemma ReachNext(buffers: nat, s: State, step: Step, t: State)
    requires Reachable(buffers, s) && Enabled(buffers, s, step) && t == Next(buffers, s, step)
    ensures Reachable(buffers, t)
  {
    var steps, run :| IsRun(buffers, steps, run) && run[|run| - 1] == s;
    var steps', run' := steps + [step], run + [t];
    forall i | 0 <= i < |steps'|
      ensures Enabled(buffers, run'[i], steps'[i]) && run'[i + 1] == Next(buffers, run'[i], steps'[i])
    {
      if i < |steps| { assert run'[i] == run[i] && run'[i + 1] == run[i + 1] && steps'[i] == steps[i]; }
    }
    assert IsRun(buffers, steps', run') && run'[|run'| - 1] == t;
  }

  function Taken(buffers: nat): State
    requires buffers > 0
  {
    CountAll(buffers);
    State(Filling, false, 0, Count(buffers)[1..], [], TWO_IDLE, Some(0), 0, Fresh(buffers).contents[0 := []])
  }

  lemma ReachFresh(buffers: nat)
    ensures Reachable(buffers, Fresh(buffers))
  {
    var s := Fresh(buffers);
    assert IsRun(buffers, [], [s]) && Reachable(buffers, [s][0]);
  }

  lemma TakesOne(buffers: nat)
    requires buffers > 0
    ensures Reachable(buffers, Taken(buffers))
  {
    ReachFresh(buffers);
    CountAll(buffers);
    ReachNext(buffers, Fresh(buffers), TakeBuffer, Taken(buffers));
  }

  lemma SendsOne(buffers: nat)
    requires buffers > 0
    ensures Reachable(buffers, SentOne(buffers, true))
  {
    TakesOne(buffers);
    var t := Taken(buffers);
    var u := t.(contents := Contents0(buffers));
    assert t.contents[0] + [3] == [3];
    ReachNext(buffers, t, Fill(3), u);
    ReachNext(buffers, u, SendBatch, SentOne(buffers, false));
    ReachNext(buffers, SentOne(buffers, false), Cancel, SentOne(buffers, true));
  }

  lemma SendsTwo(buffers: nat)
    requires buffers > 0
    ensures Reachable(buffers, SentTwo(buffers, Count(buffers)[1..], [Batch(0, [3]), Batch(buffers, [7])], TWO_IDLE, 2))
  {
    SendsOne(buffers);
    var s, contents := SentOne(buffers, true), Contents0(buffers)[buffers := [7]];
    var t := s.(made := 1, current := Some(buffers), contents := contents);
    ReachNext(buffers, s, Make(7), t);
    var u := t.(queue := [Batch(0, [3]), Batch(buffers, [7])], current := None, pending := 2);
    assert s.queue + [Batch(buffers, [7])] == u.queue;
    ReachNext(buffers, t, SendBatch, u);
    ReachNext(buffers, u, Wait, SentTwo(buffers, s.free, u.queue, TWO_IDLE, 2));
  }

  /** Where the two workers are. */
  function Both(x: Worker, y: Worker): map<WorkerId, Worker> {
    map[0 := x, 1 := y]
  }

  lemma BothMove(x: Worker, y: Worker, z: Worker)
    ensures Both(x, y)[0 := z] == Both(z, y) && Both(x, y)[1 := z] == Both(x, z)
  {
  }

  lemma BothReceive(buffers: nat)
    requires buffers > 0
    ensures Reachable(buffers, SentTwo(buffers, Count(buffers)[1..], [],
                                       Both(Sending(Batch(0, [3])), Sending(Batch(buffers, [7]))), 2))
  {
    SendsTwo(buffers);
    var free, a, b := Count(buffers)[1..], Batch(0, [3]), Batch(buffers, [7]);
    var s, t := SentTwo(buffers, free, [a, b], Both(Idle, Idle), 2), SentTwo(buffers, free, [b], Both(Sending(a), Idle), 2);
    BothMove(Idle, Idle, Sending(a));
    assert [a, b][1..] == [b] && s.queue[0] == a;
    ReachNext(buffers, s, Receive(0), t);
    BothMove(Sending(a), Idle, Sending(b));
    ReachNext(buffers, t, Receive(1), SentTwo(buffers, free, [], Both(Sending(a), Sending(b)), 2));
  }

  /** Whatever the number of buffers, the end of the context can leave a worker unable to hand its buffer back and
      the generator waiting for it. */
  lemma BlockedHappens(buffers: nat)
    requires buffers > 0
    ensures var s := SentTwo(buffers, Count(buffers)[1..] + [0], [], Both(Idle, Sending(Batch(buffers, [7]))), 1);
            Reachable(buffers, s) && Holds(s, 1) && !Enabled(buffers, s, PutBack(1)) && Overfull(s)
  {
    CountAll(buffers);
    BothReceive(buffers);
    var free, a, b := Count(buffers)[1..], Batch(0, [3]), Batch(buffers, [7]);
    var s := SentTwo(buffers, free, [], Both(Sending(a), Sending(b)), 2);
    var t := SentTwo(buffers, free + [0], [], Both(PuttingBack, Sending(b)), 2);
    BothMove(Sending(a), Sending(b), PuttingBack);
    assert s.workers[0] == Sending(a);
    ReachNext(buffers, s, PutBack(0), t);
    BothMove(PuttingBack, Sending(b), Idle);
    ReachNext(buffers, t, Done(0), SentTwo(buffers, free + [0], [], Both(Idle, Sending(b)), 1));
  }
}
