/** Concurrent RequestPatch calls (pkg/patch/filesystem.go:132-180): calls for one key share one flight. */
module SingleFlight {
  import opened Common

  /** The digests a patch leads from and to. */
  datatype Key = Key(from: Bytes, to: Bytes)

  type Files = map<Key, Bytes>

  predicate Touches(k: Key, h: Bytes) {
    k.from == h || k.to == h
  }

  /** `Broken` is a write that failed, `Served` a file found and returned. */
  datatype Event =
    | Generated(key: Key)
    | Cleaned(digest: Bytes)
    | Broken(key: Key, write: WriteOutcome)
    | Served(key: Key, data: Bytes)

  /** The leader of each flight in progress is in exactly one of four stages: it has entered, it has found
      no patch file (a miss), it has generated the patch, or it has found the file (a hit). `waiting` are
      the calls that joined a flight, `released` and `turnedAway` those whose leader returned a patch or an
      error. `answers` are the calls that returned a patch, with it. */
  datatype State = State(
    entered: set<Key>, missed: set<Key>, generated: set<Key>, found: set<Key>,
    waiting: multiset<Key>, released: multiset<(Key, Bytes)>, turnedAway: nat,
    patches: Files,
    hits: nat, misses: nat, calls: nat, failedLeaders: nat, failedWaiters: nat, failedGenerations: nat,
    answers: seq<(Key, Bytes)>, log: seq<Event>,
    plugins: set<Bytes>,   // the digests with a plugin file
    init: Files)           // the patch files there were at the start
  {
    function InFlight(): set<Key> { entered + missed + generated + found }
  }

  datatype Step =
    | Call(key: Key)       // enter the group: lead a new flight or join the one in progress
    | Stat(key: Key)       // the leader looks for the patch file and counts a hit or a miss
    | Generate(key: Key)
    | GenerateFails(key: Key)
    | Write(key: Key)      // the leader writes the file and returns
    | WriteFails(key: Key, write: WriteOutcome)  // in place, so that it may leave some of the bytes
    | Read(key: Key)       // the leader reads the file it found and returns, or fails if it is gone
    | Wake(key: Key, data: Bytes)
    | WakeFailed
    | Clean(digest: Bytes) // removes the plugin and the patches touching it
    | Archive(digest: Bytes)

  /** The flight ends with a patch: the leader has its answer and the calls that joined are released. */
  function Land(s: State, k: Key, data: Bytes): State {
    s.(waiting := s.waiting[k := 0],
       released := s.released[(k, data) := s.released[(k, data)] + s.waiting[k]],
       answers := s.answers + [(k, data)])
  }

  function Crash(s: State, k: Key): State {
    s.(waiting := s.waiting[k := 0], turnedAway := s.turnedAway + s.waiting[k], failedLeaders := s.failedLeaders + 1)
  }

  predicate Enabled(s: State, step: Step) {
    match step
    case Call(k) => true
    case Stat(k) => k in s.entered
    case Generate(k) => k in s.missed && k.from in s.plugins && k.to in s.plugins
    case GenerateFails(k) => k in s.missed
    case Write(k) => k in s.generated
    case WriteFails(k, write) => k in s.generated && write != Written
    case Read(k) => k in s.found
    case Wake(k, data) => (k, data) in s.released
    case WakeFailed => s.turnedAway > 0
    case Clean(h) => true
    case Archive(h) => true
  }

  /** `gen` is what generating the patch with a given key produces. */
  function Next(gen: Key -> Bytes, s: State, step: Step): State
    requires Enabled(s, step)
  {
    match step
    case Call(k) =>
      if k in s.InFlight() then s.(calls := s.calls + 1, waiting := s.waiting[k := s.waiting[k] + 1])
      else s.(calls := s.calls + 1, entered := s.entered + {k})
    case Stat(k) =>
      if k in s.patches then s.(entered := s.entered - {k}, found := s.found + {k}, hits := s.hits + 1)
      else s.(entered := s.entered - {k}, missed := s.missed + {k}, misses := s.misses + 1)
    case Generate(k) =>
      s.(missed := s.missed - {k}, generated := s.generated + {k}, log := s.log + [Generated(k)])
    case GenerateFails(k) =>
      Crash(s.(missed := s.missed - {k}, failedGenerations := s.failedGenerations + 1), k)
    case Write(k) =>
      Land(s.(generated := s.generated - {k}, patches := s.patches[k := gen(k)]), k, gen(k))
    case WriteFails(k, write) =>
      Crash(s.(generated := s.generated - {k}, log := s.log + [Broken(k, write)],
               patches := if write.Cut? then s.patches[k := Kept(gen(k), write.kept)] else s.patches), k)
    case Read(k) =>
      if k in s.patches then Land(s.(found := s.found - {k}, log := s.log + [Served(k, s.patches[k])]), k, s.patches[k])
      else Crash(s.(found := s.found - {k}), k)
    case Wake(k, data) =>
      s.(released := s.released[(k, data) := s.released[(k, data)] - 1], hits := s.hits + 1, answers := s.answers + [(k, data)])
    case WakeFailed =>
      s.(turnedAway := s.turnedAway - 1, failedWaiters := s.failedWaiters + 1)
    case Clean(h) =>
      s.(plugins := s.plugins - {h}, patches := map k | k in s.patches && !Touches(k, h) :: s.patches[k],
         log := s.log + [Cleaned(h)])
    case Archive(h) =>
      s.(plugins := s.plugins + {h})
  }

  /** The gateway starts over whatever files are there, some of them perhaps torn by an earlier run. */
  function Init(files: Files, plugins: set<Bytes>): State {
    State({}, {}, {}, {}, multiset{}, multiset{}, 0, files, 0, 0, 0, 0, 0, 0, [], [], plugins, files)
  }

  ghost predicate IsRun(gen: Key -> Bytes, steps: seq<Step>, run: seq<State>) {
    && |run| == |steps| + 1 && run[0] == Init(run[0].patches, run[0].plugins)
    && forall i :: 0 <= i < |steps| ==> Enabled(run[i], steps[i]) && run[i + 1] == Next(gen, run[i], steps[i])
  }

  // ------------------------------------------------- the invariant

  function Generations(log: seq<Event>): nat {
    if log == [] then 0
    else Generations(log[..|log| - 1]) + if log[|log| - 1].Generated? then 1 else 0
  }

  /** The file is gone or was never there. */
  predicate Undoes(e: Event, k: Key) {
    (e.Cleaned? && Touches(k, e.digest)) || e == Broken(k, Unopened)
  }

  /** The key has been generated, and its file has not been lost since. */
  predicate Standing(log: seq<Event>, k: Key) {
    log != [] && !Undoes(log[|log| - 1], k) && (log[|log| - 1] == Generated(k) || Standing(log[..|log| - 1], k))
  }

  /** Between two generations of a key there is a cleaning of it or a write of it that did not begin. */
  ghost predicate OncePerFile(log: seq<Event>) {
    forall i, j :: 0 <= i < j < |log| && log[i].Generated? && log[i] == log[j] ==> UndoneBetween(log, i, j, log[i].key)
  }

  predicate UndoneBetween(log: seq<Event>, i: nat, j: nat, k: Key)
    requires j <= |log|
  {
    exists m :: i < m < j && Undoes(log[m], k)
  }

  /** The last write of the key that began was broken off early, or there was none and the file was not right at
      the start; and the key was not cleaned since. */
  predicate TornIn(gen: Key -> Bytes, init: Files, log: seq<Event>, k: Key) {
    if log == [] then k in init && init[k] != gen(k)
    else
    var e := log[|log| - 1];
    if e.Cleaned? && Touches(k, e.digest) then false
    else if e.Broken? && e.key == k && e.write.Cut? then e.write.kept < |gen(k)|
    else TornIn(gen, init, log[..|log| - 1], k)
  }

  /** A flight has one leader, calls wait only for flights in progress, and a leader that missed still misses. */
  ghost predicate Flights(s: State) {
    && s.entered !! s.missed !! s.generated !! s.found
    && (forall k :: k in s.waiting ==> k in s.InFlight())
    && (forall k :: k in s.missed || k in s.generated ==> k !in s.patches)
  }

  ghost predicate Logged(s: State) {
    && (forall k :: Standing(s.log, k) ==> k in s.patches || k in s.generated)
    && OncePerFile(s.log)
  }

  /** The file is there and is not what generating gives. */
  predicate Spoiled(gen: Key -> Bytes, s: State, k: Key) {
    k in s.patches && s.patches[k] != gen(k)
  }

  /** A file was served while it was torn. */
  predicate ServedTorn(gen: Key -> Bytes, init: Files, log: seq<Event>, k: Key, data: Bytes) {
    exists m :: 0 <= m < |log| && log[m] == Served(k, data) && TornIn(gen, init, log[..m], k)
  }

  predicate Fine(gen: Key -> Bytes, init: Files, log: seq<Event>, k: Key, data: Bytes) {
    data == gen(k) || ServedTorn(gen, init, log, k, data)
  }

  /** Serving a file gives the right patch exactly if the file is not torn. */
  ghost predicate ServedRight(gen: Key -> Bytes, init: Files, log: seq<Event>) {
    forall m :: 0 <= m < |log| && log[m].Served? ==> ServedAt(gen, init, log, m)
  }

  predicate ServedAt(gen: Key -> Bytes, init: Files, log: seq<Event>, m: nat)
    requires m < |log| && log[m].Served?
  {
    log[m].data == gen(log[m].key) <==> !TornIn(gen, init, log[..m], log[m].key)
  }

  ghost predicate Right(gen: Key -> Bytes, s: State) {
    && (forall k :: TornIn(gen, s.init, s.log, k) <==> Spoiled(gen, s, k))
    && ServedRight(gen, s.init, s.log)
    && (forall k, data :: (k, data) in s.released ==> Fine(gen, s.init, s.log, k, data))
    && (forall i :: 0 <= i < |s.answers| ==> Fine(gen, s.init, s.log, s.answers[i].0, s.answers[i].1))
  }

  ghost predicate Inv(gen: Key -> Bytes, s: State) {
    Flights(s) && Logged(s) && Right(gen, s) && Accounts(s)
  }

  ghost predicate Accounts(s: State) {
    && s.hits + s.misses == |s.answers| + s.failedLeaders + |s.missed| + |s.generated| + |s.found|
    && s.misses == Generations(s.log) + s.failedGenerations + |s.missed|
    && s.calls == |s.answers| + s.failedLeaders + s.failedWaiters + s.turnedAway
                  + |s.InFlight()| + |s.waiting| + |s.released|
  }

  // ------------------------------------------------- steps keep it

  lemma LandAccounts(s: State, k: Key, data: Bytes)
    ensures var t := Land(s, k, data);
            && |t.waiting| + |t.released| == |s.waiting| + |s.released|
            && |t.answers| == |s.answers| + 1
  {
  }

  lemma CrashAccounts(s: State, k: Key)
    ensures var t := Crash(s, k);
            && |t.waiting| + t.turnedAway == |s.waiting| + s.turnedAway
            && t.failedLeaders == s.failedLeaders + 1
  {
  }

  lemma LogAppend(log: seq<Event>, e: Event)
    ensures Generations(log + [e]) == Generations(log) + if e.Generated? then 1 else 0
  {
    assert (log + [e])[..|log|] == log;
  }

  lemma {:induction false} StandingFrom(log: seq<Event>, i: nat, k: Key)
    requires i < |log| && log[i] == Generated(k)
    requires forall m :: i < m < |log| ==> !Undoes(log[m], k)
    ensures Standing(log, k)
  {
    if i < |log| - 1 {
      StandingFrom(log[..|log| - 1], i, k);
    }
  }

  lemma UndoneStays(log: seq<Event>, e: Event, i: nat, j: nat, k: Key)
    requires j <= |log| && UndoneBetween(log, i, j, k)
    ensures UndoneBetween(log + [e], i, j, k)
  {
    var m :| i < m < j && Undoes(log[m], k);
    assert Undoes((log + [e])[m], k);
  }

  lemma UndoneSince(log: seq<Event>, i: nat, k: Key)
    requires i < |log| && log[i] == Generated(k) && !Standing(log, k)
    ensures UndoneBetween(log, i, |log|, k)
  {
    if forall m :: i < m < |log| ==> !Undoes(log[m], k) { StandingFrom(log, i, k); }
  }

  /** Generations stay apart if only a key that is not standing is generated. */
  lemma StillApart(log: seq<Event>, e: Event)
    requires OncePerFile(log) && (e.Generated? ==> !Standing(log, e.key))
    ensures OncePerFile(log + [e])
  {
    var log' := log + [e];
    forall i, j | 0 <= i < j < |log'| && log'[i].Generated? && log'[i] == log'[j]
      ensures UndoneBetween(log', i, j, log'[i].key)
    {
      if j == |log| { UndoneSince(log, i, log[i].key); }
      UndoneStays(log, e, i, j, log[i].key);
    }
  }

  lemma NextLeaders(gen: Key -> Bytes, s: State, step: Step)
    requires Flights(s) && Enabled(s, step)
    ensures var t := Next(gen, s, step); t.entered !! t.missed !! t.generated !! t.found
  {
  }

  lemma NextWaits(gen: Key -> Bytes, s: State, step: Step, k: Key)
    requires Flights(s) && Enabled(s, step) && k in Next(gen, s, step).waiting
    ensures k in Next(gen, s, step).InFlight()
  {
    NextInFlight(gen, s, step);
  }

  lemma NextMisses(gen: Key -> Bytes, s: State, step: Step, k: Key)
    requires Flights(s) && Enabled(s, step)
    ensures var t := Next(gen, s, step); k in t.missed || k in t.generated ==> k !in t.patches
  {
  }

  lemma NextFlights(gen: Key -> Bytes, s: State, step: Step)
    requires Flights(s) && Enabled(s, step)
    ensures Flights(Next(gen, s, step))
  {
    var t := Next(gen, s, step);
    NextLeaders(gen, s, step);
    forall k | k in t.waiting ensures k in t.InFlight() { NextWaits(gen, s, step, k); }
    forall k | k in t.missed || k in t.generated ensures k !in t.patches { NextMisses(gen, s, step, k); }
  }

  /** The event a step logs, if any. */
  function EventOf(s: State, step: Step): Option<Event>
    requires Enabled(s, step)
  {
    match step
    case Generate(k) => Some(Generated(k))
    case Clean(h) => Some(Cleaned(h))
    case WriteFails(k, write) => Some(Broken(k, write))
    case Read(k) => if k in s.patches then Some(Served(k, s.patches[k])) else None
    case _ => None
  }

  lemma NextLog(gen: Key -> Bytes, s: State, step: Step)
    requires Enabled(s, step)
    ensures Next(gen, s, step).log == if EventOf(s, step).Some? then s.log + [EventOf(s, step).value] else s.log
    ensures Next(gen, s, step).init == s.init
  {
  }

  lemma NextLogged(gen: Key -> Bytes, s: State, step: Step)
    requires Flights(s) && Logged(s) && Enabled(s, step)
    ensures Logged(Next(gen, s, step))
  {
    var t := Next(gen, s, step);
    NextLog(gen, s, step);
    if EventOf(s, step).Some? {
      StillApart(s.log, EventOf(s, step).value);
    }
    forall k | Standing(t.log, k) ensures k in t.patches || k in t.generated { NextStanding(gen, s, step, k); }
  }

  lemma NextStanding(gen: Key -> Bytes, s: State, step: Step, k: Key)
    requires Flights(s) && Logged(s) && Enabled(s, step) && Standing(Next(gen, s, step).log, k)
    ensures k in Next(gen, s, step).patches || k in Next(gen, s, step).generated
  {
    NextLog(gen, s, step);
    if EventOf(s, step).Some? { StandingAppend(s.log, EventOf(s, step).value, k); }
  }

  lemma StandingAppend(log: seq<Event>, e: Event, k: Key)
    ensures Standing(log + [e], k) <==> !Undoes(e, k) && (e == Generated(k) || Standing(log, k))
  {
    assert (log + [e])[..|log|] == log;
  }

  lemma TornAppend(gen: Key -> Bytes, init: Files, log: seq<Event>, e: Event, k: Key)
    ensures TornIn(gen, init, log + [e], k) <==>
            if e.Cleaned? && Touches(k, e.digest) then false
            else if e.Broken? && e.key == k && e.write.Cut? then e.write.kept < |gen(k)|
            else TornIn(gen, init, log, k)
  {
    assert (log + [e])[..|log|] == log;
  }

  lemma NextTorn(gen: Key -> Bytes, s: State, step: Step, k: Key)
    requires Flights(s) && Right(gen, s) && Enabled(s, step)
    ensures TornIn(gen, s.init, Next(gen, s, step).log, k) <==> Spoiled(gen, Next(gen, s, step), k)
  {
    assert TornIn(gen, s.init, s.log, k) <==> Spoiled(gen, s, k);
    NextSpoiled(gen, s, step, k);
    NextLog(gen, s, step);
    if EventOf(s, step).Some? { TornAppend(gen, s.init, s.log, EventOf(s, step).value, k); }
  }

  lemma NextSpoiled(gen: Key -> Bytes, s: State, step: Step, k: Key)
    requires Flights(s) && Enabled(s, step)
    ensures Spoiled(gen, Next(gen, s, step), k) <==>
            if Cleans(step, k) then false
            else if step.WriteFails? && step.key == k && step.write.Cut? then step.write.kept < |gen(k)|
            else Spoiled(gen, s, k)
  {
  }

  lemma FineStays(gen: Key -> Bytes, init: Files, log: seq<Event>, e: Event, k: Key, data: Bytes)
    requires Fine(gen, init, log, k, data)
    ensures Fine(gen, init, log + [e], k, data)
  {
    if ServedTorn(gen, init, log, k, data) {
      var m :| 0 <= m < |log| && log[m] == Served(k, data) && TornIn(gen, init, log[..m], k);
      assert (log + [e])[m] == log[m] && (log + [e])[..m] == log[..m];
    }
  }

  lemma ServedMore(gen: Key -> Bytes, init: Files, log: seq<Event>, e: Event)
    requires ServedRight(gen, init, log) && (e.Served? ==> (e.data == gen(e.key) <==> !TornIn(gen, init, log, e.key)))
    ensures ServedRight(gen, init, log + [e])
    ensures e.Served? ==> Fine(gen, init, log + [e], e.key, e.data)
  {
    var log' := log + [e];
    assert log'[..|log|] == log;
    forall m | 0 <= m < |log'| && log'[m].Served? ensures ServedAt(gen, init, log', m) {
      if m < |log| { assert log'[..m] == log[..m] && ServedAt(gen, init, log, m); }
    }
    if e.Served? && e.data != gen(e.key) { assert log'[|log|] == Served(e.key, e.data) && TornIn(gen, init, log'[..|log|], e.key); }
  }

  /** Nothing is released or answered but what was so before, or what the step's leader returns. */
  lemma NextAnswers(gen: Key -> Bytes, s: State, step: Step)
    requires Enabled(s, step)
    ensures var t := Next(gen, s, step);
            && (forall k, data :: (k, data) in t.released ==> (k, data) in s.released || Returns(gen, s, step, k, data))
            && (forall i :: 0 <= i < |t.answers| ==>
                  (i < |s.answers| && t.answers[i] == s.answers[i]) || t.answers[i] in s.released
                  || Returns(gen, s, step, t.answers[i].0, t.answers[i].1))
  {
  }

  predicate Returns(gen: Key -> Bytes, s: State, step: Step, k: Key, data: Bytes) {
    (step == Write(k) && data == gen(k)) || (step == Read(k) && k in s.patches && data == s.patches[k])
  }

  lemma NextFine(gen: Key -> Bytes, s: State, step: Step, k: Key, data: Bytes)
    requires Flights(s) && Right(gen, s) && Enabled(s, step)
    requires Fine(gen, s.init, s.log, k, data) || Returns(gen, s, step, k, data)
    ensures Fine(gen, s.init, Next(gen, s, step).log, k, data)
  {
    NextLog(gen, s, step);
    if step == Read(k) && k in s.patches && data == s.patches[k] {
      assert TornIn(gen, s.init, s.log, k) <==> Spoiled(gen, s, k);
      ServedMore(gen, s.init, s.log, Served(k, data));
    } else if Fine(gen, s.init, s.log, k, data) && EventOf(s, step).Some? {
      FineStays(gen, s.init, s.log, EventOf(s, step).value, k, data);
    }
  }

  lemma NextRight(gen: Key -> Bytes, s: State, step: Step)
    requires Flights(s) && Right(gen, s) && Enabled(s, step)
    ensures Right(gen, Next(gen, s, step))
  {
    var t := Next(gen, s, step);
    forall k ensures TornIn(gen, t.init, t.log, k) <==> Spoiled(gen, t, k) { NextTorn(gen, s, step, k); }
    NextLog(gen, s, step);
    if EventOf(s, step).Some? {
      var e := EventOf(s, step).value;
      assert e.Served? ==> (TornIn(gen, s.init, s.log, e.key) <==> Spoiled(gen, s, e.key));
      ServedMore(gen, s.init, s.log, e);
    }
    NextAnswers(gen, s, step);
    forall k, data | (k, data) in t.released ensures Fine(gen, t.init, t.log, k, data) { NextFine(gen, s, step, k, data); }
    forall i | 0 <= i < |t.answers| ensures Fine(gen, t.init, t.log, t.answers[i].0, t.answers[i].1) {
      var (k, data) := t.answers[i];
      NextFine(gen, s, step, k, data);
    }
  }

  function InFlightAfter(s: State, step: Step): set<Key> {
    match step
    case Call(k) => s.InFlight() + {k}
    case GenerateFails(k) => s.InFlight() - {k}
    case Write(k) => s.InFlight() - {k}
    case WriteFails(k, _) => s.InFlight() - {k}
    case Read(k) => s.InFlight() - {k}
    case _ => s.InFlight()
  }

  lemma NextInFlight(gen: Key -> Bytes, s: State, step: Step)
    requires Flights(s) && Enabled(s, step)
    ensures Next(gen, s, step).InFlight() == InFlightAfter(s, step)
  {
  }

  lemma CallAccounts(gen: Key -> Bytes, s: State, step: Step)
    requires Flights(s) && Accounts(s) && step.Call?
    ensures Accounts(Next(gen, s, step))
  {
    NextInFlight(gen, s, step);
    if step.key in s.InFlight() { assert s.InFlight() + {step.key} == s.InFlight(); }
  }

  lemma OneMore(a: set<Key>, k: Key)
    ensures k !in a ==> |a + {k}| == |a| + 1
    ensures k in a ==> |a - {k}| == |a| - 1
  {
  }

  lemma StatAccounts(gen: Key -> Bytes, s: State, step: Step)
    requires Flights(s) && Accounts(s) && Enabled(s, step) && step.Stat?
    ensures Accounts(Next(gen, s, step))
  {
    NextInFlight(gen, s, step);
    if step.key in s.patches { StatHit(gen, s, step); } else { StatMiss(gen, s, step); }
  }

  lemma StatHit(gen: Key -> Bytes, s: State, step: Step)
    requires Flights(s) && Accounts(s) && Enabled(s, step) && step.Stat? && step.key in s.patches
    requires Next(gen, s, step).InFlight() == s.InFlight()
    ensures Accounts(Next(gen, s, step))
  {
    OneMore(s.found, step.key);
  }

  lemma StatMiss(gen: Key -> Bytes, s: State, step: Step)
    requires Flights(s) && Accounts(s) && Enabled(s, step) && step.Stat? && step.key !in s.patches
    requires Next(gen, s, step).InFlight() == s.InFlight()
    ensures Accounts(Next(gen, s, step))
  {
    OneMore(s.missed, step.key);
  }

  lemma LoggedAccounts(gen: Key -> Bytes, s: State, step: Step)
    requires Flights(s) && Accounts(s) && Enabled(s, step) && (step.Generate? || step.Clean? || step.Archive?)
    ensures Accounts(Next(gen, s, step))
  {
    NextInFlight(gen, s, step);
    if step.Generate? { GenerateAccounts(gen, s, step); } else if step.Clean? { LogAppend(s.log, Cleaned(step.digest)); }
  }

  lemma GenerateAccounts(gen: Key -> Bytes, s: State, step: Step)
    requires Flights(s) && Accounts(s) && Enabled(s, step) && step.Generate?
    requires Next(gen, s, step).InFlight() == s.InFlight()
    ensures Accounts(Next(gen, s, step))
  {
    LogAppend(s.log, Generated(step.key));
    OneMore(s.missed, step.key);
    OneMore(s.generated, step.key);
  }

  lemma LandingAccounts(gen: Key -> Bytes, s: State, step: Step)
    requires Flights(s) && Accounts(s) && Enabled(s, step)
    requires step.Write? || (step.Read? && step.key in s.patches)
    ensures Accounts(Next(gen, s, step))
  {
    NextInFlight(gen, s, step);
    if step.Write? { WriteLands(gen, s, step); } else { ReadLands(gen, s, step); }
  }

  lemma WriteLands(gen: Key -> Bytes, s: State, step: Step)
    requires Flights(s) && Accounts(s) && Enabled(s, step) && step.Write?
    requires Next(gen, s, step).InFlight() == InFlightAfter(s, step)
    ensures Accounts(Next(gen, s, step))
  {
    var k := step.key;
    LandAccounts(s.(generated := s.generated - {k}, patches := s.patches[k := gen(k)]), k, gen(k));
  }

  lemma ReadLands(gen: Key -> Bytes, s: State, step: Step)
    requires Flights(s) && Accounts(s) && Enabled(s, step) && step.Read? && step.key in s.patches
    requires Next(gen, s, step).InFlight() == InFlightAfter(s, step)
    ensures Accounts(Next(gen, s, step))
  {
    var e := Served(step.key, s.patches[step.key]);
    LogAppend(s.log, e);
    LandAccounts(s.(found := s.found - {step.key}, log := s.log + [e]), step.key, s.patches[step.key]);
  }

  lemma WriteCrashes(gen: Key -> Bytes, s: State, step: Step)
    requires Flights(s) && Accounts(s) && Enabled(s, step) && step.WriteFails?
    ensures Accounts(Next(gen, s, step))
  {
    NextInFlight(gen, s, step);
    var k, e := step.key, Broken(step.key, step.write);
    LogAppend(s.log, e);
    assert |s.generated - {k}| == |s.generated| - 1;
    CrashAccounts(s.(generated := s.generated - {k}, log := s.log + [e],
                     patches := if step.write.Cut? then s.patches[k := Kept(gen(k), step.write.kept)] else s.patches), k);
  }

  lemma CrashingAccounts(gen: Key -> Bytes, s: State, step: Step)
    requires Flights(s) && Accounts(s) && Enabled(s, step)
    requires step.GenerateFails? || (step.Read? && step.key !in s.patches)
    ensures Accounts(Next(gen, s, step))
  {
    NextInFlight(gen, s, step);
    if step.GenerateFails? { GenerateCrashes(gen, s, step); } else { ReadCrashes(gen, s, step); }
  }

  lemma GenerateCrashes(gen: Key -> Bytes, s: State, step: Step)
    requires Flights(s) && Accounts(s) && Enabled(s, step) && step.GenerateFails?
    requires Next(gen, s, step).InFlight() == InFlightAfter(s, step)
    ensures Accounts(Next(gen, s, step))
  {
    var k := step.key;
    assert |s.missed - {k}| == |s.missed| - 1;
    CrashAccounts(s.(missed := s.missed - {k}, failedGenerations := s.failedGenerations + 1), k);
  }

  lemma ReadCrashes(gen: Key -> Bytes, s: State, step: Step)
    requires Flights(s) && Accounts(s) && Enabled(s, step) && step.Read? && step.key !in s.patches
    requires Next(gen, s, step).InFlight() == InFlightAfter(s, step)
    ensures Accounts(Next(gen, s, step))
  {
    CrashAccounts(s.(found := s.found - {step.key}), step.key);
  }

  lemma WakingAccounts(gen: Key -> Bytes, s: State, step: Step)
    requires Flights(s) && Accounts(s) && Enabled(s, step) && (step.Wake? || step.WakeFailed?)
    ensures Accounts(Next(gen, s, step))
  {
    NextInFlight(gen, s, step);
  }

  lemma NextAccounts(gen: Key -> Bytes, s: State, step: Step)
    requires Flights(s) && Accounts(s) && Enabled(s, step)
    ensures Accounts(Next(gen, s, step))
  {
    match step
    case Write(_) => LandingAccounts(gen, s, step);
    case GenerateFails(_) => CrashingAccounts(gen, s, step);
    case WriteFails(_, _) => WriteCrashes(gen, s, step);
    case Read(k) => if k in s.patches { LandingAccounts(gen, s, step); } else { CrashingAccounts(gen, s, step); }
    case Wake(_, _) => WakingAccounts(gen, s, step);
    case WakeFailed => WakingAccounts(gen, s, step);
    case Call(_) => CallAccounts(gen, s, step);
    case Stat(_) => StatAccounts(gen, s, step);
    case _ => LoggedAccounts(gen, s, step);
  }

  lemma NextKeepsInv(gen: Key -> Bytes, s: State, step: Step)
    requires Inv(gen, s) && Enabled(s, step)
    ensures Inv(gen, Next(gen, s, step))
  {
    NextFlights(gen, s, step);
    NextLogged(gen, s, step);
    NextRight(gen, s, step);
    NextAccounts(gen, s, step);
  }

  lemma InitLogged(files: Files, plugins: set<Bytes>)
    ensures Flights(Init(files, plugins)) && Logged(Init(files, plugins))
  {
    assert Init(files, plugins).log == [] && forall k :: !Standing([], k);
  }

  lemma InitRight(gen: Key -> Bytes, files: Files, plugins: set<Bytes>)
    ensures Right(gen, Init(files, plugins))
  {
    var s := Init(files, plugins);
    assert s.log == [] && s.init == s.patches == files;
    forall k ensures TornIn(gen, s.init, s.log, k) <==> Spoiled(gen, s, k) { }
  }

  lemma InitAccounts(files: Files, plugins: set<Bytes>)
    ensures Accounts(Init(files, plugins))
  {
    var s := Init(files, plugins);
    assert s.InFlight() == {} && s.log == [] && Generations([]) == 0;
  }

  lemma InitInv(gen: Key -> Bytes, files: Files, plugins: set<Bytes>)
    ensures Inv(gen, Init(files, plugins))
  {
    InitLogged(files, plugins);
    InitRight(gen, files, plugins);
    InitAccounts(files, plugins);
  }

  lemma {:induction false} RunInv(gen: Key -> Bytes, steps: seq<Step>, run: seq<State>, i: nat)
    requires IsRun(gen, steps, run) && i < |run|
    ensures Inv(gen, run[i])
  {
    if i == 0 {
      InitInv(gen, run[0].patches, run[0].plugins);
    } else {
      RunInv(gen, steps, run, i - 1);
      NextKeepsInv(gen, run[i - 1], steps[i - 1]);
    }
  }

  // ------------------------------------------------- what every run gives

  predicate Quiet(s: State) {
    s.InFlight() == {} && s.waiting == multiset{} && s.released == multiset{} && s.turnedAway == 0
  }

  /** In every interleaving of requests, cleanings and failures, a call that returns a patch returns the one its
      key stands for unless that file was read while torn, and between two generations of a key its file was
      cleaned or could not be opened for writing. */
  lemma SharedCorrectly(gen: Key -> Bytes, steps: seq<Step>, run: seq<State>, i: nat, n: nat)
    requires IsRun(gen, steps, run) && i < |run| && n < |run[i].answers|
    ensures var (k, data) := run[i].answers[n]; data == gen(k) || ServedTorn(gen, run[i].init, run[i].log, k, data)
    ensures OncePerFile(run[i].log)
  {
    RunInv(gen, steps, run, i);
  }

  /** The exact condition: a call that finds the file returns the right patch if and only if the last write of
      that key was not broken off early, or the key was cleaned since. */
  lemma FoundRightUnlessTorn(gen: Key -> Bytes, steps: seq<Step>, run: seq<State>, i: nat, k: Key)
    requires IsRun(gen, steps, run) && i < |steps| && steps[i] == Read(k) && k in run[i].patches
    ensures |run[i + 1].answers| == |run[i].answers| + 1
    ensures run[i + 1].answers[|run[i].answers|] == (k, gen(k)) <==> !TornIn(gen, run[i].init, run[i].log, k)
  {
    RunInv(gen, steps, run, i);
    assert TornIn(gen, run[i].init, run[i].log, k) <==> Spoiled(gen, run[i], k);
  }

  predicate Cleans(step: Step, k: Key) {
    step.Clean? && Touches(k, step.digest)
  }

  lemma SpoiledStep(gen: Key -> Bytes, s: State, step: Step, k: Key)
    requires Flights(s) && Enabled(s, step) && Spoiled(gen, s, k) && !Cleans(step, k)
    ensures Spoiled(gen, Next(gen, s, step), k)
  {
  }

  lemma RunFlights(gen: Key -> Bytes, steps: seq<Step>, run: seq<State>, i: nat)
    requires IsRun(gen, steps, run) && i < |run|
    ensures Flights(run[i])
  {
    RunInv(gen, steps, run, i);
  }

  lemma SpoiledOneMore(gen: Key -> Bytes, steps: seq<Step>, run: seq<State>, i: nat, k: Key)
    requires IsRun(gen, steps, run) && i < |steps| && Spoiled(gen, run[i], k) && !Cleans(steps[i], k)
    ensures Spoiled(gen, run[i + 1], k)
  {
    RunFlights(gen, steps, run, i);
    SpoiledStep(gen, run[i], steps[i], k);
  }

  lemma {:induction false} SpoiledKept(gen: Key -> Bytes, steps: seq<Step>, run: seq<State>, i: nat, j: nat, k: Key)
    requires IsRun(gen, steps, run) && i <= j < |run| && Spoiled(gen, run[i], k)
    requires forall n :: i <= n < j ==> !Cleans(steps[n], k)
    ensures Spoiled(gen, run[j], k)
  {
    if i < j {
      SpoiledKept(gen, steps, run, i, j - 1, k);
      SpoiledOneMore(gen, steps, run, j - 1, k);
    }
  }

  /** A torn file stays, and is never generated again, until it is cleaned. */
  lemma TornStays(gen: Key -> Bytes, steps: seq<Step>, run: seq<State>, i: nat, j: nat, k: Key)
    requires IsRun(gen, steps, run) && i <= j < |run| && TornIn(gen, run[i].init, run[i].log, k)
    requires forall n :: i <= n < j ==> !Cleans(steps[n], k)
    ensures k in run[j].patches && run[j].patches[k] != gen(k)
  {
    SpoiledIffTorn(gen, steps, run, i, k);
    SpoiledKept(gen, steps, run, i, j, k);
  }

  lemma SpoiledIffTorn(gen: Key -> Bytes, steps: seq<Step>, run: seq<State>, i: nat, k: Key)
    requires IsRun(gen, steps, run) && i < |run|
    ensures TornIn(gen, run[i].init, run[i].log, k) <==> Spoiled(gen, run[i], k)
  {
    RunInv(gen, steps, run, i);
  }

  /** Once no call is in progress, and provided none failed, hits and misses add up to the completed calls
      and misses are the patches generated. */
  lemma CountersAddUp(gen: Key -> Bytes, steps: seq<Step>, run: seq<State>)
    requires IsRun(gen, steps, run)
    ensures var s := run[|run| - 1];
            Quiet(s) && s.failedLeaders == s.failedWaiters == s.failedGenerations == 0 ==>
              s.hits + s.misses == s.calls == |s.answers| && s.misses == Generations(s.log)
  {
    RunInv(gen, steps, run, |run| - 1);
  }

  // ------------------------------------------------- patches without an end

  ghost predicate LinkedFiles(s: State) {
    forall k :: k in s.patches ==> k.from in s.plugins && k.to in s.plugins
  }

  predicate Writes(step: Step, k: Key) {
    step == Write(k) || (step.WriteFails? && step.key == k && step.write.Cut?)
  }

  /** The digest was cleaned in step m, and has not been archived again before step i. */
  ghost predicate CleanedSince(steps: seq<Step>, h: Bytes, m: nat, i: nat) {
    m < i <= |steps| && steps[m] == Clean(h) && forall n :: m < n < i ==> steps[n] != Archive(h)
  }

  /** The key was written in step n, and has not been cleaned again before step i. */
  ghost predicate WrittenSince(steps: seq<Step>, k: Key, n: nat, i: nat) {
    n < i <= |steps| && Writes(steps[n], k) && forall m :: n < m < i ==> !Cleans(steps[m], k)
  }

  lemma PluginStep(gen: Key -> Bytes, s: State, step: Step, h: Bytes)
    requires Enabled(s, step)
    ensures h in Next(gen, s, step).plugins <==> step == Archive(h) || (h in s.plugins && step != Clean(h))
  {
  }

  lemma PatchStep(gen: Key -> Bytes, s: State, step: Step, k: Key)
    requires Enabled(s, step)
    ensures k in Next(gen, s, step).patches <==> Writes(step, k) || (k in s.patches && !Cleans(step, k))
  {
  }

  lemma GeneratedStep(gen: Key -> Bytes, s: State, step: Step, k: Key)
    requires Enabled(s, step) && k in Next(gen, s, step).generated
    ensures k in s.generated || step == Generate(k)
  {
  }

  /** A patch being written has lost an end only to a cleaning during its flight. */
  lemma {:induction false} EndLost(gen: Key -> Bytes, steps: seq<Step>, run: seq<State>, i: nat, k: Key, h: Bytes)
    returns (m: nat)
    requires IsRun(gen, steps, run) && i < |run| && k in run[i].generated && Touches(k, h) && h !in run[i].plugins
    ensures CleanedSince(steps, h, m, i) && k in run[m].generated
  {
    PluginStep(gen, run[i - 1], steps[i - 1], h);
    GeneratedStep(gen, run[i - 1], steps[i - 1], k);
    if steps[i - 1] == Clean(h) {
      m := i - 1;
    } else {
      m := EndLost(gen, steps, run, i - 1, k, h);
    }
  }

  lemma {:induction false} DanglingFrom(gen: Key -> Bytes, steps: seq<Step>, run: seq<State>, i: nat, k: Key, h: Bytes)
    returns (m: nat, n: nat)
    requires IsRun(gen, steps, run) && LinkedFiles(run[0]) && i < |run|
    requires k in run[i].patches && Touches(k, h) && h !in run[i].plugins
    ensures CleanedSince(steps, h, m, i) && WrittenSince(steps, k, n, i) && m < n && k in run[m].generated
  {
    PluginStep(gen, run[i - 1], steps[i - 1], h);
    PatchStep(gen, run[i - 1], steps[i - 1], k);
    if Writes(steps[i - 1], k) {
      n := i - 1;
      m := EndLost(gen, steps, run, i - 1, k, h);
    } else {
      m, n := DanglingFrom(gen, steps, run, i - 1, k, h);
    }
  }

  lemma {:induction false} StaysCleaned(gen: Key -> Bytes, steps: seq<Step>, run: seq<State>, h: Bytes, m: nat, i: nat)
    requires IsRun(gen, steps, run) && CleanedSince(steps, h, m, i)
    ensures h !in run[i].plugins
  {
    PluginStep(gen, run[i - 1], steps[i - 1], h);
    if m < i - 1 { StaysCleaned(gen, steps, run, h, m, i - 1); }
  }

  lemma {:induction false} StaysWritten(gen: Key -> Bytes, steps: seq<Step>, run: seq<State>, k: Key, n: nat, i: nat)
    requires IsRun(gen, steps, run) && WrittenSince(steps, k, n, i)
    ensures k in run[i].patches
  {
    PatchStep(gen, run[i - 1], steps[i - 1], k);
    if n < i - 1 { StaysWritten(gen, steps, run, k, n, i - 1); }
  }

  /** That end was cleaned while the patch was generated but not written, and not archived again since. */
  ghost predicate Raced(steps: seq<Step>, run: seq<State>, i: nat, k: Key, h: Bytes) {
    exists m: nat, n: nat :: m < n && CleanedSince(steps, h, m, i) && WrittenSince(steps, k, n, i) && m < |run| && k in run[m].generated
  }

  /** The exact condition: in every run over files that have both their ends, a patch is without an end if and only
      if that end was cleaned between the generation of the patch and its writing. */
  lemma DanglingIffRaced(gen: Key -> Bytes, steps: seq<Step>, run: seq<State>, i: nat, k: Key, h: Bytes)
    requires IsRun(gen, steps, run) && LinkedFiles(run[0]) && i < |run| && Touches(k, h)
    ensures k in run[i].patches && h !in run[i].plugins <==> Raced(steps, run, i, k, h)
  {
    if k in run[i].patches && h !in run[i].plugins {
      var m, n := DanglingFrom(gen, steps, run, i, k, h);
    }
    if Raced(steps, run, i, k, h) {
      var m: nat, n: nat :| m < n && CleanedSince(steps, h, m, i) && WrittenSince(steps, k, n, i) && m < |run| && k in run[m].generated;
      StaysCleaned(gen, steps, run, h, m, i);
      StaysWritten(gen, steps, run, k, n, i);
    }
  }

  // ------------------------------------------------- torn files are real

  ghost predicate Reachable(gen: Key -> Bytes, s: State) {
    exists steps, run :: IsRun(gen, steps, run) && run[|run| - 1] == s
  }

  lemma ReachNext(gen: Key -> Bytes, s: State, step: Step, t: State)
    requires Reachable(gen, s) && Enabled(s, step) && t == Next(gen, s, step)
    ensures Reachable(gen, t)
  {
    var steps, run :| IsRun(gen, steps, run) && run[|run| - 1] == s;
    var steps', run' := steps + [step], run + [t];
    forall i | 0 <= i < |steps'| ensures Enabled(run'[i], steps'[i]) && run'[i + 1] == Next(gen, run'[i], steps'[i]) {
      if i < |steps| { assert run'[i] == run[i] && run'[i + 1] == run[i + 1] && steps'[i] == steps[i]; }
    }
    assert IsRun(gen, steps', run') && run'[|run'| - 1] == t;
  }

  /** The first call for a key, up to the failure of its write, of which nothing but the empty file remains. */
  function Torn(k: Key): State {
    State({}, {}, {}, {}, multiset{}, multiset{}, 0, map[k := ""], 0, 1, 1, 1, 0, 0, [], [Generated(k), Broken(k, Cut(0))],
          {k.from, k.to}, map[])
  }

  /** After the second call for it. */
  function Misled(k: Key): State {
    State({}, {}, {}, {}, multiset{}, multiset{}, 0, map[k := ""], 1, 1, 2, 1, 0, 0, [(k, "")],
          [Generated(k), Broken(k, Cut(0)), Served(k, "")], {k.from, k.to}, map[])
  }

  /** The first call for a key, up to the generation. */
  lemma Generates(gen: Key -> Bytes, k: Key) returns (s: State)
    ensures Reachable(gen, s)
    ensures s == State({}, {}, {k}, {}, multiset{}, multiset{}, 0, map[], 0, 1, 1, 0, 0, 0, [], [Generated(k)],
                       {k.from, k.to}, map[])
  {
    var s0 := Init(map[], {k.from, k.to});
    assert IsRun(gen, [], [s0]) && Reachable(gen, [s0][0]);
    var s1 := Next(gen, s0, Call(k));
    ReachNext(gen, s0, Call(k), s1);
    var s2 := Next(gen, s1, Stat(k));
    ReachNext(gen, s1, Stat(k), s2);
    var s3 := Next(gen, s2, Generate(k));
    ReachNext(gen, s2, Generate(k), s3);
    s := s3;
  }

  lemma FirstCall(gen: Key -> Bytes, k: Key)
    ensures Reachable(gen, Torn(k))
  {
    var s := Generates(gen, k);
    assert Next(gen, s, WriteFails(k, Cut(0))) == Torn(k);
    ReachNext(gen, s, WriteFails(k, Cut(0)), Torn(k));
  }

  /** A write that is broken off makes the next call return what it left, as a hit and without an error. */
  lemma TornHappens(gen: Key -> Bytes, k: Key)
    requires gen(k) != ""
    ensures Reachable(gen, Misled(k)) && Misled(k).answers == [(k, "")] && Misled(k).answers != [(k, gen(k))]
  {
    FirstCall(gen, k);
    var s1 := Next(gen, Torn(k), Call(k));
    ReachNext(gen, Torn(k), Call(k), s1);
    var s2 := Next(gen, s1, Stat(k));
    ReachNext(gen, s1, Stat(k), s2);
    assert Next(gen, s2, Read(k)) == Misled(k);
    ReachNext(gen, s2, Read(k), Misled(k));
  }

  /** A patch written after its old end was cleaned. */
  function Dangling(gen: Key -> Bytes, k: Key): State {
    State({}, {}, {}, {}, multiset{}, multiset{}, 0, map[k := gen(k)], 0, 1, 1, 0, 0, 0, [(k, gen(k))],
          [Generated(k), Cleaned(k.from)], {k.from, k.to} - {k.from}, map[])
  }

  /** A cleaning during a flight leaves a patch without an end. */
  lemma DanglingHappens(gen: Key -> Bytes, k: Key)
    ensures Reachable(gen, Dangling(gen, k)) && k in Dangling(gen, k).patches && k.from !in Dangling(gen, k).plugins
  {
    var s := Generates(gen, k);
    var t := Next(gen, s, Clean(k.from));
    ReachNext(gen, s, Clean(k.from), t);
    assert t.patches == map[] && t.plugins == {k.from, k.to} - {k.from};
    assert Next(gen, t, Write(k)) == Dangling(gen, k);
    ReachNext(gen, t, Write(k), Dangling(gen, k));
  }
}
