/** The gateway's health monitor (pkg/health/monitor.go): the Run loop, watchers that replay a snapshot and
    then updates, and the closing of their channels, interleaved in every way the mutex allows. */
module HealthMonitor {
  import opened Common

  type Id = Bytes
  type Value = nat
  type WatcherId = nat

  /** Health and status updates travel separately but alike. */
  datatype Kind = Health | Status

  /** One kind's current values, the watchers whose channels are listed for it, and the channels closed. */
  datatype Topic = Topic(current: map<Id, Value>, listeners: seq<WatcherId>, closed: set<WatcherId>)

  /** A watcher's copy of the values and its channel of updates. */
  datatype Feed = Feed(cur: map<Id, Value>, queue: seq<(Id, Value)>)

  datatype Event = Event(id: Id, health: Option<Value>, status: Option<Value>)

  /** `Snapshot` still has to emit these ids; `Emitting` is about to emit what it has for an id. */
  datatype Pc = Snapshot(todo: set<Id>) | Looping | Emitting(id: Id) | CleaningUp | Ended

  datatype Watcher = Watcher(pc: Pc, alive: bool, health: Feed, status: Feed, emitted: seq<Event>) {
    function Of(k: Kind): Feed { if k == Health then health else status }

    function With(k: Kind, f: Feed): Watcher { if k == Health then this.(health := f) else this.(status := f) }
  }

  /** While Run holds the mutex to deliver an update: how many listeners have it, and the values before it. */
  datatype Delivery = Idle | Delivering(kind: Kind, id: Id, value: Value, sent: nat, before: map<Id, Value>)

  datatype State = State(health: Topic, status: Topic, delivery: Delivery, watchers: map<WatcherId, Watcher>) {
    function Of(k: Kind): Topic { if k == Health then health else status }

    function With(k: Kind, t: Topic): State { if k == Health then this.(health := t) else this.(status := t) }
  }

  const CAPACITY := 10

  function Get(m: map<Id, Value>, id: Id): Option<Value> {
    if id in m then Some(m[id]) else None
  }

  /** GetHealthStatus. */
  function Current(s: State, id: Id): Event {
    Event(id, Get(s.health.current, id), Get(s.status.current, id))
  }

  /** What a watcher would emit for an id. */
  function View(w: Watcher, id: Id): Event {
    Event(id, Get(w.health.cur, id), Get(w.status.cur, id))
  }

  datatype Step =
    | Update(kind: Kind, id: Id, value: Value)  // Run takes an update, locks and stores it
    | Send                                      // Run sends it to the next listener
    | Delivered                                 // Run unlocks
    | Exit                                      // Run returns: clear the maps, close and drop all listeners
    | Watch(w: WatcherId)                       // lock, list two new channels, copy the maps, unlock
    | EmitSnapshot(w: WatcherId, id: Id)
    | EndSnapshot(w: WatcherId)
    | Take(w: WatcherId, kind: Kind)            // receive an update
    | Emit(w: WatcherId)
    | Cancel(w: WatcherId)                      // the watcher's context ends
    | DropEvent(w: WatcherId)                   // after that, an event may be dropped
    | Break(w: WatcherId)                       // leave the loop: context ended or a channel is closed and empty
    | CleanUp(w: WatcherId)                     // lock, unlist and close the channels that are still listed

  predicate PcIs(s: State, w: WatcherId, pc: Pc) {
    w in s.watchers && s.watchers[w].pc == pc
  }

  predicate Enabled(s: State, step: Step) {
    match step
    case Update(_, _, _) => s.delivery == Idle
    case Send =>
      && s.delivery != Idle && s.delivery.sent < |s.Of(s.delivery.kind).listeners|
      && var w := s.Of(s.delivery.kind).listeners[s.delivery.sent];
         w in s.watchers && |s.watchers[w].Of(s.delivery.kind).queue| < CAPACITY
    case Delivered => s.delivery != Idle && s.delivery.sent >= |s.Of(s.delivery.kind).listeners|
    case Exit => s.delivery == Idle
    case Watch(w) => s.delivery == Idle && w !in s.watchers
    case EmitSnapshot(w, id) => w in s.watchers && s.watchers[w].pc.Snapshot? && id in s.watchers[w].pc.todo
    case EndSnapshot(w) => PcIs(s, w, Snapshot({}))
    case Take(w, k) => PcIs(s, w, Looping) && s.watchers[w].Of(k).queue != []
    case Emit(w) => w in s.watchers && s.watchers[w].pc.Emitting?
    case Cancel(w) => w in s.watchers
    case DropEvent(w) => w in s.watchers && s.watchers[w].pc.Emitting? && !s.watchers[w].alive
    case Break(w) =>
      PcIs(s, w, Looping) && (!s.watchers[w].alive || SeesClosed(s, w, Health) || SeesClosed(s, w, Status))
    case CleanUp(w) => PcIs(s, w, CleaningUp) && s.delivery == Idle
  }

  predicate SeesClosed(s: State, w: WatcherId, k: Kind)
    requires w in s.watchers
  {
    w in s.Of(k).closed && s.watchers[w].Of(k).queue == []
  }

  /** The watcher a step changes, if any. */
  function Target(s: State, step: Step): Option<WatcherId>
    requires Enabled(s, step)
  {
    match step
    case Update(_, _, _) => None
    case Delivered => None
    case Exit => None
    case Send => Some(s.Of(s.delivery.kind).listeners[s.delivery.sent])
    case _ => Some(step.w)
  }

  function Changed(s: State, step: Step): Watcher
    requires Enabled(s, step) && Target(s, step).Some?
  {
    if step.Watch? then
      Watcher(Snapshot(s.health.current.Keys), true, Feed(s.health.current, []), Feed(s.status.current, []), [])
    else
      var x := s.watchers[Target(s, step).value];
      match step
      case Send =>
        var k, f := s.delivery.kind, x.Of(s.delivery.kind);
        x.With(k, f.(queue := f.queue + [(s.delivery.id, s.delivery.value)]))
      case EmitSnapshot(_, id) => x.(emitted := x.emitted + [View(x, id)], pc := Snapshot(x.pc.todo - {id}))
      case EndSnapshot(_) => x.(pc := Looping)
      case Take(_, k) =>
        var f := x.Of(k);
        x.With(k, Feed(f.cur[f.queue[0].0 := f.queue[0].1], f.queue[1..])).(pc := Emitting(f.queue[0].0))
      case Emit(_) => x.(emitted := x.emitted + [View(x, x.pc.id)], pc := Looping)
      case Cancel(_) => x.(alive := false)
      case DropEvent(_) => x.(pc := Looping)
      case Break(_) => x.(pc := CleaningUp)
      case CleanUp(_) => x.(pc := Ended)
  }

  /** The list without the first occurrence of w. */
  function Unlist(s: seq<WatcherId>, w: WatcherId): seq<WatcherId> {
    if s == [] then [] else if s[0] == w then s[1..] else [s[0]] + Unlist(s[1..], w)
  }

  function NextTopic(s: State, step: Step, k: Kind): Topic
    requires Enabled(s, step)
  {
    var t := s.Of(k);
    match step
    case Update(kind, id, v) => if kind == k then t.(current := t.current[id := v]) else t
    case Exit => Topic(map[], [], t.closed + Elems(t.listeners))
    case Watch(w) => t.(listeners := t.listeners + [w])
    case CleanUp(w) =>
      if w in t.listeners then t.(listeners := Unlist(t.listeners, w), closed := t.closed + {w}) else t
    case _ => t
  }

  function NextDelivery(s: State, step: Step): Delivery
    requires Enabled(s, step)
  {
    match step
    case Update(k, id, v) => Delivering(k, id, v, 0, s.Of(k).current)
    case Send => s.delivery.(sent := s.delivery.sent + 1)
    case Delivered => Idle
    case _ => s.delivery
  }

  function Next(s: State, step: Step): State
    requires Enabled(s, step)
  {
    State(NextTopic(s, step, Health), NextTopic(s, step, Status), NextDelivery(s, step),
      if Target(s, step).Some? then s.watchers[Target(s, step).value := Changed(s, step)] else s.watchers)
  }

  function Init(): State {
    State(Topic(map[], [], {}), Topic(map[], [], {}), Idle, map[])
  }

  ghost predicate IsRun(steps: seq<Step>, run: seq<State>) {
    && |run| == |steps| + 1 && run[0] == Init()
    && forall i :: 0 <= i < |steps| ==> Enabled(run[i], steps[i]) && run[i + 1] == Next(run[i], steps[i])
  }

  // ------------------------------------------------- the invariant

  /** The values after the queued updates. */
  function Replay(cur: map<Id, Value>, queue: seq<(Id, Value)>): map<Id, Value> {
    if queue == [] then cur
    else Replay(cur, queue[..|queue| - 1])[queue[|queue| - 1].0 := queue[|queue| - 1].1]
  }

  /** A listed channel is listed once, is open, and belongs to a watcher that has not cleaned up. */
  ghost predicate ListInv(s: State, k: Kind) {
    && NoDup(s.Of(k).listeners)
    && (forall w :: w in s.Of(k).listeners ==> w in s.watchers && w !in s.Of(k).closed && !s.watchers[w].pc.Ended?)
    && (forall w :: w in s.Of(k).closed ==> w in s.watchers)
  }

  /** What listener number n should have seen: everything, except an update still on its way to it. */
  function Expected(s: State, k: Kind, n: nat): map<Id, Value> {
    if s.delivery != Idle && s.delivery.kind == k && s.delivery.sent <= n then s.delivery.before else s.Of(k).current
  }

  ghost predicate ReplayInv(s: State, k: Kind) {
    && (forall n :: 0 <= n < |s.Of(k).listeners| && s.Of(k).listeners[n] in s.watchers ==>
         CaughtUp(s, k, n))
    && (s.delivery != Idle && s.delivery.kind == k ==>
         s.delivery.sent <= |s.Of(k).listeners|
         && s.Of(k).current == s.delivery.before[s.delivery.id := s.delivery.value])
  }

  predicate CaughtUp(s: State, k: Kind, n: nat)
    requires n < |s.Of(k).listeners| && s.Of(k).listeners[n] in s.watchers
  {
    var f := s.watchers[s.Of(k).listeners[n]].Of(k);
    Replay(f.cur, f.queue) == Expected(s, k, n)
  }

  function LastEvent(emitted: seq<Event>, id: Id): Option<Event> {
    if emitted == [] then None
    else if emitted[|emitted| - 1].id == id then Some(emitted[|emitted| - 1])
    else LastEvent(emitted[..|emitted| - 1], id)
  }

  /** A live watcher has emitted its present view of every id with a health record, except those it is
      still about to emit. */
  ghost predicate EmitInv(w: Watcher) {
    w.alive ==> forall id :: id in w.health.cur && !(w.pc.Snapshot? && id in w.pc.todo) && w.pc != Emitting(id) ==>
      LastEvent(w.emitted, id) == Some(View(w, id))
  }

  ghost predicate Inv(s: State) {
    && ListInv(s, Health) && ListInv(s, Status)
    && ReplayInv(s, Health) && ReplayInv(s, Status)
    && forall w :: w in s.watchers ==> EmitInv(s.watchers[w])
  }

  // ------------------------------------------------- steps keep it

  lemma {:induction false} UnlistMembers(s: seq<WatcherId>, w: WatcherId)
    requires NoDup(s)
    ensures NoDup(Unlist(s, w))
    ensures forall x :: x in Unlist(s, w) <==> x in s && x != w
  {
    if s != [] {
      assert s == [s[0]] + s[1..];
      assert s[0] !in s[1..];
      UnlistMembers(s[1..], w);
      assert s[0] !in Unlist(s[1..], w);
    }
  }

  /** Apart from cleaning up, a step leaves a watcher that has not ended as it is in that respect. */
  lemma ChangedPc(s: State, step: Step)
    requires Enabled(s, step) && Target(s, step).Some? && !step.CleanUp?
    ensures var w := Target(s, step).value;
            w in s.watchers && !s.watchers[w].pc.Ended? ==> !Changed(s, step).pc.Ended?
  {
  }

  lemma NextList(s: State, step: Step, k: Kind)
    requires ListInv(s, k) && Enabled(s, step)
    ensures ListInv(Next(s, step), k)
  {
    var t := Next(s, step);
    assert t.Of(k) == NextTopic(s, step, k);
    if step.CleanUp? {
      UnlistMembers(s.Of(k).listeners, step.w);
    } else if Target(s, step).Some? {
      ChangedPc(s, step);
    }
  }

  lemma {:induction false} ReplayHead(cur: map<Id, Value>, queue: seq<(Id, Value)>)
    requires queue != []
    ensures Replay(cur[queue[0].0 := queue[0].1], queue[1..]) == Replay(cur, queue)
  {
    var init := queue[..|queue| - 1];
    if |queue| > 1 {
      ReplayHead(cur, init);
      assert queue[1..][..|queue| - 2] == init[1..];
    } else {
      assert init == [];
    }
  }

  lemma ReplayAppend(cur: map<Id, Value>, queue: seq<(Id, Value)>, u: (Id, Value))
    ensures Replay(cur, queue + [u]) == Replay(cur, queue)[u.0 := u.1]
  {
    assert (queue + [u])[..|queue|] == queue;
  }

  /** What a feed replays to changes only when an update is sent to it. */
  lemma ChangedReplay(s: State, step: Step, k: Kind)
    requires Enabled(s, step) && Target(s, step).Some? && Target(s, step).value in s.watchers && !step.Watch?
    ensures var f, f' := s.watchers[Target(s, step).value].Of(k), Changed(s, step).Of(k);
            Replay(f'.cur, f'.queue) ==
            if step.Send? && s.delivery.kind == k then Replay(f.cur, f.queue)[s.delivery.id := s.delivery.value]
            else Replay(f.cur, f.queue)
  {
    var f := s.watchers[Target(s, step).value].Of(k);
    if step.Send? {
      ReplayAppend(f.cur, f.queue, (s.delivery.id, s.delivery.value));
    } else if step.Take? && step.kind == k {
      ReplayHead(f.cur, f.queue);
    }
  }

  /** With no delivery in progress every listener has been sent everything. */
  lemma IdleReplay(s: State, k: Kind, w: WatcherId)
    requires ListInv(s, k) && ReplayInv(s, k) && s.delivery == Idle && w in s.Of(k).listeners
    ensures Replay(s.watchers[w].Of(k).cur, s.watchers[w].Of(k).queue) == s.Of(k).current
  {
    var n :| 0 <= n < |s.Of(k).listeners| && s.Of(k).listeners[n] == w;
    assert CaughtUp(s, k, n);
  }

  lemma RelistReplay(s: State, step: Step, k: Kind)
    requires ListInv(s, k) && ReplayInv(s, k) && Enabled(s, step) && (step.CleanUp? || step.Watch? || step.Exit?)
    ensures ReplayInv(Next(s, step), k)
  {
    var t := Next(s, step);
    assert t.Of(k) == NextTopic(s, step, k);
    if step.CleanUp? { UnlistMembers(s.Of(k).listeners, step.w); }
    forall n | 0 <= n < |t.Of(k).listeners| && t.Of(k).listeners[n] in t.watchers ensures CaughtUp(t, k, n) {
      var w := t.Of(k).listeners[n];
      if !(step.Watch? && n == |s.Of(k).listeners|) {
        assert w in s.Of(k).listeners;
        IdleReplay(s, k, w);
      }
    }
  }

  lemma NextReplay(s: State, step: Step, k: Kind)
    requires ListInv(s, k) && ReplayInv(s, k) && Enabled(s, step)
    ensures ReplayInv(Next(s, step), k)
  {
    if step.CleanUp? || step.Watch? || step.Exit? {
      RelistReplay(s, step, k);
    } else {
      var t := Next(s, step);
      assert t.Of(k).listeners == s.Of(k).listeners;
      if Target(s, step).Some? { ChangedReplay(s, step, k); }
      forall n | 0 <= n < |t.Of(k).listeners| && t.Of(k).listeners[n] in t.watchers ensures CaughtUp(t, k, n) {
        assert s.Of(k).listeners[n] in s.Of(k).listeners;
        assert CaughtUp(s, k, n);
      }
    }
  }

  lemma EventAppend(emitted: seq<Event>, e: Event)
    ensures forall id :: LastEvent(emitted + [e], id) == if id == e.id then Some(e) else LastEvent(emitted, id)
  {
    assert (emitted + [e])[..|emitted|] == emitted;
  }

  lemma NextEmit(s: State, step: Step)
    requires Enabled(s, step) && Target(s, step).Some?
    requires Target(s, step).value in s.watchers ==> EmitInv(s.watchers[Target(s, step).value])
    ensures EmitInv(Changed(s, step))
  {
    if step.EmitSnapshot? {
      var x := s.watchers[step.w];
      EventAppend(x.emitted, View(x, step.id));
    } else if step.Emit? {
      var x := s.watchers[step.w];
      EventAppend(x.emitted, View(x, x.pc.id));
    }
  }

  lemma NextKeepsInv(s: State, step: Step)
    requires Inv(s) && Enabled(s, step)
    ensures Inv(Next(s, step))
  {
    NextList(s, step, Health);
    NextList(s, step, Status);
    NextReplay(s, step, Health);
    NextReplay(s, step, Status);
    if Target(s, step).Some? { NextEmit(s, step); }
  }

  lemma {:induction false} RunInv(steps: seq<Step>, run: seq<State>, i: nat)
    requires IsRun(steps, run) && i < |run|
    ensures Inv(run[i])
  {
    if i > 0 {
      RunInv(steps, run, i - 1);
      NextKeepsInv(run[i - 1], steps[i - 1]);
    }
  }

  // ------------------------------------------------- what every run gives

  /** The channels of one kind a step closes. */
  function Closes(s: State, step: Step, k: Kind): seq<WatcherId> {
    match step
    case Exit => s.Of(k).listeners
    case CleanUp(w) => if w in s.Of(k).listeners then [w] else []
    case _ => []
  }

  /** In every interleaving of Run, its exit and watcher clean-up, no channel is closed twice, whether by
      one step or by two, and no update is sent on a closed channel. */
  lemma ChannelsUsedOpen(steps: seq<Step>, run: seq<State>, i: nat, k: Kind)
    requires IsRun(steps, run) && i < |steps|
    ensures NoDup(Closes(run[i], steps[i], k))
    ensures forall w :: w in Closes(run[i], steps[i], k) ==> w !in run[i].Of(k).closed && w in run[i + 1].Of(k).closed
    ensures steps[i] == Send && run[i].delivery.kind == k ==>
              run[i].Of(k).listeners[run[i].delivery.sent] !in run[i].Of(k).closed
  {
    RunInv(steps, run, i);
    assert Enabled(run[i], steps[i]);
    assert run[i + 1].Of(k) == NextTopic(run[i], steps[i], k);
    if steps[i] == Send && run[i].delivery.kind == k {
      assert run[i].Of(k).listeners[run[i].delivery.sent] in run[i].Of(k).listeners;
    }
  }

  /** A listed watcher's snapshot with the updates it has taken, followed by those queued for it, is always
      the monitor's current map, up to an update that is just being delivered. */
  lemma WatcherTracksMonitor(steps: seq<Step>, run: seq<State>, i: nat, k: Kind, n: nat)
    requires IsRun(steps, run) && i < |run| && n < |run[i].Of(k).listeners|
    ensures run[i].Of(k).listeners[n] in run[i].watchers
    ensures var f := run[i].watchers[run[i].Of(k).listeners[n]].Of(k);
            Replay(f.cur, f.queue) == Expected(run[i], k, n)
  {
    RunInv(steps, run, i);
    assert run[i].Of(k).listeners[n] in run[i].Of(k).listeners;
    assert CaughtUp(run[i], k, n);
  }

  /** Once a live, listed watcher has drained both channels, its last event for every id with a health
      record is what GetHealthStatus returns. */
  lemma DrainedWatcherIsCurrent(steps: seq<Step>, run: seq<State>, i: nat, w: WatcherId, id: Id)
    requires IsRun(steps, run) && i < |run| && run[i].delivery == Idle
    requires w in run[i].health.listeners && w in run[i].status.listeners
    requires w in run[i].watchers && run[i].watchers[w].alive && run[i].watchers[w].pc == Looping
    requires run[i].watchers[w].health.queue == [] && run[i].watchers[w].status.queue == []
    requires id in run[i].health.current
    ensures LastEvent(run[i].watchers[w].emitted, id) == Some(Current(run[i], id))
  {
    RunInv(steps, run, i);
    IdleReplay(run[i], Health, w);
    IdleReplay(run[i], Status, w);
    assert EmitInv(run[i].watchers[w]);
  }

  // ------------------------------------------------- what was received last

  predicate Updates(step: Step, kind: Kind, id: Id) {
    step.Update? && step.kind == kind && step.id == id
  }

  /** Step j is the last update of that kind for the id before state i, and Run has not returned since. */
  ghost predicate LastUpdate(steps: seq<Step>, i: nat, j: nat, kind: Kind, id: Id, v: Value) {
    && j < i <= |steps| && steps[j] == Update(kind, id, v)
    && forall n :: j < n < i ==> steps[n] != Exit && !Updates(steps[n], kind, id)
  }

  /** There is no such update before state i since the start or the last return of Run. */
  ghost predicate NoUpdate(steps: seq<Step>, i: nat, start: nat, kind: Kind, id: Id) {
    && start <= i <= |steps| && (start == 0 || steps[start - 1] == Exit)
    && forall n :: start <= n < i ==> !Updates(steps[n], kind, id)
  }

  lemma {:induction false} StoredLast(steps: seq<Step>, run: seq<State>, i: nat, j: nat, kind: Kind, id: Id, v: Value)
    requires IsRun(steps, run) && LastUpdate(steps, i, j, kind, id, v)
    ensures id in run[i].Of(kind).current && run[i].Of(kind).current[id] == v
  {
    assert run[i].Of(kind) == NextTopic(run[i - 1], steps[i - 1], kind);
    if j < i - 1 { StoredLast(steps, run, i - 1, j, kind, id, v); }
  }

  lemma {:induction false} StoredNone(steps: seq<Step>, run: seq<State>, i: nat, start: nat, kind: Kind, id: Id)
    requires IsRun(steps, run) && NoUpdate(steps, i, start, kind, id)
    ensures id !in run[i].Of(kind).current
  {
    if i > 0 { assert run[i].Of(kind) == NextTopic(run[i - 1], steps[i - 1], kind); }
    if start < i { StoredNone(steps, run, i - 1, start, kind, id); }
  }

  /** In every run GetHealthStatus answers with the health, and with the status, last received for the id. */
  lemma AnswersLastReceived(steps: seq<Step>, run: seq<State>, i: nat, j: nat, id: Id, v: Value)
    requires IsRun(steps, run)
    ensures LastUpdate(steps, i, j, Health, id, v) ==> Current(run[i], id).health == Some(v)
    ensures LastUpdate(steps, i, j, Status, id, v) ==> Current(run[i], id).status == Some(v)
  {
    if LastUpdate(steps, i, j, Health, id, v) { StoredLast(steps, run, i, j, Health, id, v); }
    if LastUpdate(steps, i, j, Status, id, v) { StoredLast(steps, run, i, j, Status, id, v); }
  }

  /** And with neither if none was received since Run last returned. */
  lemma AnswersNothing(steps: seq<Step>, run: seq<State>, i: nat, start: nat, id: Id)
    requires IsRun(steps, run)
    ensures NoUpdate(steps, i, start, Health, id) ==> Current(run[i], id).health == None
    ensures NoUpdate(steps, i, start, Status, id) ==> Current(run[i], id).status == None
  {
    if NoUpdate(steps, i, start, Health, id) { StoredNone(steps, run, i, start, Health, id); }
    if NoUpdate(steps, i, start, Status, id) { StoredNone(steps, run, i, start, Status, id); }
  }

  /** Once a live, listed watcher has drained both channels, its last event for an id carries the health last
      received for it, and the status last received or none. */
  lemma DrainedWatcherHasLast(steps: seq<Step>, run: seq<State>, i: nat, j: nat, w: WatcherId, id: Id, v: Value)
    requires IsRun(steps, run) && i < |run| && run[i].delivery == Idle && LastUpdate(steps, i, j, Health, id, v)
    requires w in run[i].health.listeners && w in run[i].status.listeners
    requires w in run[i].watchers && run[i].watchers[w].alive && run[i].watchers[w].pc == Looping
    requires run[i].watchers[w].health.queue == [] && run[i].watchers[w].status.queue == []
    ensures var e := LastEvent(run[i].watchers[w].emitted, id);
            && e.Some? && e.value in run[i].watchers[w].emitted && e.value.id == id && e.value.health == Some(v)
            && (forall n: nat, u: Value :: LastUpdate(steps, i, n, Status, id, u) ==> e.value.status == Some(u))
            && (forall n: nat :: NoUpdate(steps, i, n, Status, id) ==> e.value.status == None)
  {
    StoredLast(steps, run, i, j, Health, id, v);
    DrainedWatcherIsCurrent(steps, run, i, w, id);
    LastEventIn(run[i].watchers[w].emitted, id);
    AnswersLastReceived(steps, run, i, j, id, v);
    forall n: nat, u: Value | LastUpdate(steps, i, n, Status, id, u) ensures Current(run[i], id).status == Some(u) {
      AnswersLastReceived(steps, run, i, n, id, u);
    }
    forall n: nat | NoUpdate(steps, i, n, Status, id) ensures Current(run[i], id).status == None {
      AnswersNothing(steps, run, i, n, id);
    }
  }

  /** The last event is the last one emitted for the id. */
  lemma {:induction false} LastEventIn(emitted: seq<Event>, id: Id)
    ensures var e := LastEvent(emitted, id);
            if e.None? then forall n :: 0 <= n < |emitted| ==> emitted[n].id != id
            else exists n :: 0 <= n < |emitted| && emitted[n] == e.value && e.value.id == id
                             && forall m :: n < m < |emitted| ==> emitted[m].id != id
  {
    if emitted != [] && emitted[|emitted| - 1].id != id { LastEventIn(emitted[..|emitted| - 1], id); }
  }

  // ------------------------------------------------- a watcher that leaves

  lemma {:induction false} GoneForGood(steps: seq<Step>, run: seq<State>, i: nat, j: nat, w: WatcherId)
    requires IsRun(steps, run) && i <= j < |run| && w in run[i].watchers
    requires run[i].watchers[w].pc == CleaningUp || run[i].watchers[w].pc == Ended
    ensures w in run[j].watchers && (run[j].watchers[w].pc == CleaningUp || run[j].watchers[w].pc == Ended)
  {
    if i < j { GoneForGood(steps, run, i, j - 1, w); }
  }

  /** A watcher that has left its loop takes and emits nothing more. */
  lemma LeavesForGood(steps: seq<Step>, run: seq<State>, i: nat, j: nat, w: WatcherId)
    requires IsRun(steps, run) && i < j < |steps| && steps[i] == Break(w)
    ensures !(steps[j].Take? && steps[j].w == w) && !(steps[j].Emit? && steps[j].w == w)
    ensures !(steps[j].EmitSnapshot? && steps[j].w == w)
  {
    assert Enabled(run[i], steps[i]);
    GoneForGood(steps, run, i + 1, j, w);
    assert Enabled(run[j], steps[j]);
  }
}
