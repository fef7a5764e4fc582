/** Where the health updates a listener publishes come from, and that none is passed over (pkg/health/listener.go). */
module HealthUpdates {
  import opened Common
  import opened HealthListener

  /** The step that publishes it: the loop polled that health or took an incoming update, the handler was greeted with
      that value, or it leaves and says "not ready". */
  predicate PublishedBy(step: Step, p: Published) {
    match step
    case Poll(h, health) => p.looped && h == p.sender && health == p.health
    case Receive(h) => p.looped && h == p.sender
    case Greet(h, answer, now) => !p.looped && h == p.sender && answer.Some? && p.health == Health(now, answer.value.value)
    case PublishNotReady(h, now) => !p.looped && h == p.sender && p.health == Health(now, 0)
    case _ => false
  }

  /** It was published in a step before i; an incoming update was sent in by UpdateHealth for that agent before. */
  ghost predicate Origin(steps: seq<Step>, i: nat, j: nat, p: Published) {
    && j < i <= |steps| && PublishedBy(steps[j], p)
    && (steps[j].Receive? ==> exists m :: 0 <= m < j && steps[m] == UpdateHealth(p.id, p.health))
  }

  lemma HandlerStep(max: nat, s: State, step: Step, h: HandlerId)
    requires Enabled(max, s, step) && h in Next(max, s, step).handlers
    ensures Target(s, step) != Some(h) ==> h in s.handlers && Next(max, s, step).handlers[h] == s.handlers[h]
    ensures Target(s, step) == Some(h) ==> Next(max, s, step).handlers[h] == Changed(max, s, step)
    ensures Target(s, step) == Some(h) && !step.Connect? ==> h in s.handlers && Changed(max, s, step).id == s.handlers[h].id
  {
  }

  /** The step sends that health into the handler's channel. */
  predicate SendsIn(s: State, step: Step, h: HandlerId, health: Health) {
    step.UpdateHealth? && step.agent in s.incoming && s.incoming[step.agent] == h && step.health == health
  }

  /** A health in a handler's channel was there before or has just been sent in. */
  lemma InboxStep(max: nat, s: State, step: Step, h: HandlerId, n: nat) returns (k: Option<nat>)
    requires Enabled(max, s, step) && h in Next(max, s, step).handlers && n < |Next(max, s, step).handlers[h].inbox|
    ensures var t := Next(max, s, step).handlers[h];
            && h in s.handlers && t.id == s.handlers[h].id
            && (if k.Some? then k.value < |s.handlers[h].inbox| && s.handlers[h].inbox[k.value] == t.inbox[n]
                else SendsIn(s, step, h, t.inbox[n]))
  {
    HandlerStep(max, s, step, h);
    if Target(s, step) == Some(h) && step.UpdateHealth? && n == |s.handlers[h].inbox| {
      k := None;
    } else {
      k := Some(if Target(s, step) == Some(h) && step.Receive? then n + 1 else n);
    }
  }

  /** What is in a handler's channel was sent in for its agent. */
  lemma {:induction false} SentIn(max: nat, steps: seq<Step>, run: seq<State>, i: nat, h: HandlerId, n: nat) returns (m: nat)
    requires IsRun(max, steps, run) && i < |run| && h in run[i].handlers && n < |run[i].handlers[h].inbox|
    ensures m < i && steps[m] == UpdateHealth(run[i].handlers[h].id, run[i].handlers[h].inbox[n])
  {
    var k := InboxStep(max, run[i - 1], steps[i - 1], h, n);
    if k.Some? {
      m := SentIn(max, steps, run, i - 1, h, k.value);
    } else {
      RunInv(max, steps, run, i - 1);
      assert EntryOwned(run[i - 1], steps[i - 1].agent);
      m := i - 1;
    }
  }

  /** Everything published was polled, received, answered at the greeting or is the farewell, with that value. */
  lemma {:induction false} PublishedFrom(max: nat, steps: seq<Step>, run: seq<State>, i: nat, n: nat) returns (j: nat)
    requires IsRun(max, steps, run) && i < |run| && n < |run[i].healthLog|
    ensures Origin(steps, i, j, run[i].healthLog[n])
  {
    var s, step := run[i - 1], steps[i - 1];
    if n < |s.healthLog| {
      j := PublishedFrom(max, steps, run, i - 1, n);
    } else {
      j := i - 1;
      if step.Receive? { var m := SentIn(max, steps, run, i - 1, step.h, 0); }
    }
  }

  /** The last health a handler's loop has published. */
  function LastLooped(log: seq<Published>, h: HandlerId): Option<Health> {
    if log == [] then None
    else if log[|log| - 1].looped && log[|log| - 1].sender == h then Some(log[|log| - 1].health)
    else LastLooped(log[..|log| - 1], h)
  }

  lemma LastLoopedMore(log: seq<Published>, sent: seq<Published>, h: HandlerId)
    requires |sent| <= 1
    ensures LastLooped(log + sent, h) ==
            if sent != [] && sent[0].looped && sent[0].sender == h then Some(sent[0].health) else LastLooped(log, h)
  {
    if sent == [] {
      assert log + sent == log;
    } else {
      assert (log + sent)[..|log|] == log;
    }
  }

  /** What the agent answered last when greeted by the handler. */
  ghost predicate Greeted(steps: seq<Step>, i: nat, h: HandlerId, health: Option<Health>) {
    health.None? || exists j :: 0 <= j < i <= |steps| && steps[j].Greet? && steps[j].h == h && steps[j].answer == health
  }

  /** A step changes what a handler compares with only to what its loop publishes, or to a greeting's answer. */
  lemma CurrentStep(max: nat, s: State, step: Step, h: HandlerId)
    requires Enabled(max, s, step) && h in s.handlers && h in Next(max, s, step).handlers
    ensures var t, sent := Next(max, s, step), HealthSent(max, s, step);
            && |sent| <= 1 && (Past(s.handlers[h].pc) ==> Past(t.handlers[h].pc))
            && (if sent != [] && sent[0].looped && sent[0].sender == h
                then Past(t.handlers[h].pc) && t.handlers[h].cur == Some(sent[0].health)
                else t.handlers[h].cur == s.handlers[h].cur
                     || (!Past(s.handlers[h].pc) && step.Greet? && step.h == h && t.handlers[h].cur == step.answer))
  {
    HandlerStep(max, s, step, h);
    if Target(s, step) == Some(h) { ChangedHealth(max, s, step); }
  }

  /** The health a handler compares with is the last its loop published, or else its greeting's. */
  lemma {:induction false} CurrentIsPublished(max: nat, steps: seq<Step>, run: seq<State>, i: nat, h: HandlerId)
    requires IsRun(max, steps, run) && i < |run| && h in run[i].handlers
    ensures LastLooped(run[i].healthLog, h).Some? ==> Past(run[i].handlers[h].pc)
    ensures if LastLooped(run[i].healthLog, h).Some? then run[i].handlers[h].cur == LastLooped(run[i].healthLog, h)
            else Greeted(steps, i, h, run[i].handlers[h].cur)
  {
    var s, step := run[i - 1], steps[i - 1];
    LastLoopedMore(s.healthLog, HealthSent(max, s, step), h);
    if h in s.handlers {
      CurrentStep(max, s, step, h);
      CurrentIsPublished(max, steps, run, i - 1, h);
    } else {
      HandlerStep(max, s, step, h);
      NoneBefore(max, steps, run, i - 1, h, |s.healthLog|);
      assert s.healthLog[..|s.healthLog|] == s.healthLog;
    }
  }

  lemma {:induction false} NoneBefore(max: nat, steps: seq<Step>, run: seq<State>, i: nat, h: HandlerId, n: nat)
    requires IsRun(max, steps, run) && i < |run| && h !in run[i].handlers && n <= |run[i].healthLog|
    ensures LastLooped(run[i].healthLog[..n], h).None?
  {
    RunInv(max, steps, run, i);
    var log := run[i].healthLog;
    if n > 0 {
      assert log[n - 1].looped ==> PublishedBefore(run[i], log[n - 1]);
      assert log[..n][..n - 1] == log[..n - 1];
      NoneBefore(max, steps, run, i, h, n - 1);
    }
  }

  /** The health offered to a handler's loop by a poll or an incoming update. */
  function Offer(s: State, step: Step): Option<(HandlerId, Health)> {
    match step
    case Poll(h, health) => Some((h, health))
    case Receive(h) => if h in s.handlers && s.handlers[h].inbox != [] then Some((h, s.handlers[h].inbox[0])) else None
    case _ => None
  }

  /** Nothing newer and different is passed over: after it is offered a health, the handler's loop has last published
      one that is no older or says the same, or it was greeted with such a one, or there is none and the health is
      without a time. */
  lemma NothingPassedOver(max: nat, steps: seq<Step>, run: seq<State>, i: nat, h: HandlerId, health: Health)
    requires IsRun(max, steps, run) && i < |steps| && Offer(run[i], steps[i]) == Some((h, health))
    ensures var last := LastLooped(run[i + 1].healthLog, h);
            exists c: Option<Health> ::
              && (if last.Some? then c == last else Greeted(steps, i + 1, h, c))
              && (if c.Some? then health.time <= c.value.time || health.value == c.value.value else health.time == 0)
  {
    assert Enabled(max, run[i], steps[i]);
    CurrentIsPublished(max, steps, run, i + 1, h);
    var c := run[i + 1].handlers[h].cur;
    assert if c.Some? then health.time <= c.value.time || health.value == c.value.value else health.time == 0;
  }

  /** What the loop publishes is newer than what it published before, and says something else. */
  lemma PublishedDiffers(max: nat, steps: seq<Step>, run: seq<State>, i: nat, h: HandlerId)
    requires IsRun(max, steps, run) && i < |steps| && h in run[i].handlers
    requires HealthSent(max, run[i], steps[i]) != [] && HealthSent(max, run[i], steps[i])[0].looped
    requires HealthSent(max, run[i], steps[i])[0].sender == h && LastLooped(run[i].healthLog, h).Some?
    ensures var last, p := LastLooped(run[i].healthLog, h).value, HealthSent(max, run[i], steps[i])[0];
            p.health.time > last.time && p.health.value != last.value
  {
    CurrentIsPublished(max, steps, run, i, h);
  }

  // ------------------------------------------------- in the order of the program

  /** The places in HandleConnection, from the first to the last. */
  function Place(pc: Pc): nat {
    match pc
    case Start => 0
    case Checked => 1
    case Permitted => 2
    case Locked => 3
    case Registered => 4
    case Greeting => 5
    case Looping => 6
    case Leaving => 7
    case Farewell => 8
    case Disconnected => 9
    case Unregistered => 10
    case Unlocked => 11
    case Gone => 12
  }

  function CloserPlace(c: Closer): nat {
    match c case Idle => 0 case Waiting => 1 case Holding => 2 case StatusClosed => 3 case AllClosed => 4
  }

  predicate Moves(a: Pc, b: Pc) {
    b == a || Place(b) == Place(a) + 1 || (b == Gone && Place(a) <= 1)
  }

  /** In every run each handler goes through the places one after another, and may leave early only before it has a
      permit; and Close closes the two channels one after the other once it has every permit. */
  lemma InProgramOrder(max: nat, steps: seq<Step>, run: seq<State>, i: nat, h: HandlerId)
    requires IsRun(max, steps, run) && i < |steps|
    ensures h in run[i].handlers ==> h in run[i + 1].handlers && Moves(run[i].handlers[h].pc, run[i + 1].handlers[h].pc)
    ensures h !in run[i].handlers && h in run[i + 1].handlers ==> run[i + 1].handlers[h].pc == Start
    ensures var a, b := run[i].closer, run[i + 1].closer; b == a || CloserPlace(b) == CloserPlace(a) + 1
    ensures run[i + 1].closer == Holding && run[i].closer != Holding ==> run[i].PermitsHeld() == 0
  {
    assert Enabled(max, run[i], steps[i]);
    if h in run[i + 1].handlers { HandlerStep(max, run[i], steps[i], h); }
  }
}
