/** The agent's plugin sync loop (pkg/agent/v2/agent.go:322-349, 503-532), from discovery on disk over the
    gateway's reply to the concurrent patch operations (pkg/patch/client.go:225-256). */
module AgentSync {
  import opened Common
  import opened Manifests
  import opened PluginWorld
  import opened PatchClient
  import opened Convergence
  import opened PatchSteps
  import opened PatchRuns
  import opened Schedules
  import opened SyncAttempts
  import Server = SyncServer
  import Cache = CacheFiles
  import Paths = CachePaths

  method CreateNext(dir: PluginDir, q: Patch, pc: Pc, more: nat) returns (next: Pc)
    requires q.op == Create && (pc.Ready? || pc.Writing?)
    modifies dir
    ensures pc.Ready? ==> next == Writing(0) && dir.files == old(dir.files)[q.filename := ""]
    ensures pc.Writing? && pc.written < |q.data| ==>
              next.Writing? && pc.written < next.written <= |q.data|
              && dir.files == old(dir.files)[q.filename := q.data[..next.written]]
    ensures pc.Writing? && pc.written >= |q.data| ==> next == Finished && dir.files == old(dir.files)
  {
    if pc.Ready? {
      dir.files := dir.files[q.filename := ""];
      return Writing(0);
    }
    if pc.written < |q.data| {
      var m := if pc.written + 1 + more <= |q.data| then pc.written + 1 + more else |q.data|;
      dir.files := dir.files[q.filename := q.data[..m]];
      return Writing(m);
    }
    next := Finished;
  }

  method RenameNext(dir: PluginDir, q: Patch, pc: Pc) returns (next: Pc, code: PatchClient.Code)
    requires q.op == Rename && (pc.Ready? || pc.TargetFree?)
    modifies dir
    ensures code == PatchClient.OK <==> !next.Failed?
    ensures pc.Ready? ==> next == (if q.data in old(dir.files) then Failed(false) else TargetFree) && dir.files == old(dir.files)
    ensures pc.TargetFree? && q.filename in old(dir.files) ==>
              next == Finished && dir.files == (old(dir.files) - {q.filename})[q.data := old(dir.files)[q.filename]]
    ensures pc.TargetFree? && q.filename !in old(dir.files) ==> next == Failed(false) && dir.files == old(dir.files)
  {
    if pc.Ready? {
      if q.data in dir.files { return Failed(false), PatchClient.Unavailable; }
      return TargetFree, PatchClient.OK;
    }
    if q.filename !in dir.files { return Failed(false), PatchClient.Unavailable; }
    dir.files := (dir.files - {q.filename})[q.data := dir.files[q.filename]];
    return Finished, PatchClient.OK;
  }

  method UpdateNext(dir: PluginDir, q: Patch, pc: Pc) returns (next: Pc, code: PatchClient.Code)
    requires q.op == Update && (pc.Ready? || pc.Loaded?)
    modifies dir
    ensures code == PatchClient.OK <==> !next.Failed?
    ensures pc.Ready? ==> dir.files == old(dir.files)
    ensures pc.Ready? ==>
              next == if q.filename !in old(dir.files) then Failed(false)
                      else var (c, contents) := Patched(dir.w, old(dir.files)[q.filename], q);
                           if c == PatchClient.OK then Loaded(contents) else Failed(false)
    ensures pc.Loaded? ==> next == Finished && dir.files == old(dir.files)[q.filename := pc.next]
  {
    if pc.Ready? {
      if q.filename !in dir.files { return Failed(false), PatchClient.Unavailable; }
      var (c, contents) := Patched(dir.w, dir.files[q.filename], q);
      if c != PatchClient.OK { return Failed(false), c; }
      return Loaded(contents), PatchClient.OK;
    }
    dir.files := dir.files[q.filename := pc.next];
    return Finished, PatchClient.OK;
  }

  /** A worker's next system call succeeds. */
  method Act(dir: PluginDir, sent: seq<Patch>, pcs: seq<Pc>, i: nat, more: nat) returns (next: Pc, code: PatchClient.Code)
    requires i < |sent| == |pcs| && !Ended(pcs[i]) && Fits(sent[i].op, pcs[i])
    modifies dir
    ensures Advance(dir.w, sent, State(old(dir.files), pcs), State(dir.files, pcs[i := next]), i)
    ensures code == PatchClient.OK <==> !next.Failed?
    ensures Fits(sent[i].op, next)
  {
    var q, pc := sent[i], pcs[i];
    code := PatchClient.OK;
    match q.op {
      case Create => next := CreateNext(dir, q, pc, more);
      case Update => next, code := UpdateNext(dir, q, pc);
      case Rename => next, code := RenameNext(dir, q, pc);
      case Remove =>
        dir.files := dir.files - {q.filename};
        next := Finished;
      case NoOp => next := Finished;
      case Unknown => next, code := Failed(false), PatchClient.Internal;
    }
  }

  /** A choice of a worker that has not ended. */
  method MoveOne(dir: PluginDir, sent: seq<Patch>, pcs: seq<Pc>, move: Move) returns (next: Pc, code: PatchClient.Code)
    requires var i := move.worker; i < |sent| == |pcs| && !Ended(pcs[i]) && Fits(sent[i].op, pcs[i])
    modifies dir
    ensures var i, s, t := move.worker, State(old(dir.files), pcs), State(dir.files, pcs[move.worker := next]);
            && (if move.Go? then Advance(dir.w, sent, s, t, i) else OsError(s, t, i) && code == move.Code())
            && Left(sent[i], next) < Left(sent[i], pcs[i]) && Fits(sent[i].op, next)
    ensures code == PatchClient.OK <==> !next.Failed?
  {
    var i := move.worker;
    if move.Fail? { return Failed(pcs[i].Writing?), move.Code(); }
    next, code := Act(dir, sent, pcs, i, move.more);
    AdvanceShortens(dir.w, sent, State(old(dir.files), pcs), State(dir.files, pcs[i := next]), i);
  }

  /** How a Patch call ends: with the first error of a worker or none, or not at all. */
  datatype PatchResult = Done(code: PatchClient.Code) | Died

  lemma RunGrows(w: World, d: Disk, sent: seq<Patch>, run: seq<State>, t: State)
    requires IsRun(w, d, sent, run) && |t.pcs| == |sent| && Next(w, sent, run[|run| - 1], t)
    ensures IsRun(w, d, sent, run + [t])
  {
    var more := run + [t];
    forall k | 0 <= k < |more| - 1 ensures Next(w, sent, more[k], more[k + 1]) {
      if k < |run| - 1 { assert more[k] == run[k] && more[k + 1] == run[k + 1]; }
    }
  }

  lemma StillFailed(w: World, sent: seq<Patch>, run: seq<State>, t: State)
    ensures GoFailed(w, sent, run) ==> GoFailed(w, sent, run + [t])
  {
    if GoFailed(w, sent, run) {
      var k: nat, i: nat :| GoFailsAt(w, sent, run, k, i);
      assert GoFailsAt(w, sent, run + [t], k, i);
    }
  }

  /** A first error comes from a failing system call, or a worker that fails by itself. */
  lemma MoveBlamed(w: World, sent: seq<Patch>, run: seq<State>, t: State, schedule: seq<Move>, n: nat, code: PatchClient.Code)
    requires run != [] && n < |schedule| && code != PatchClient.OK
    requires schedule[n].Fail? ==> code == schedule[n].Code()
    requires var i := schedule[n].worker;
             schedule[n].Go? ==> i < |sent| == |run[|run| - 1].pcs| == |t.pcs| && Advance(w, sent, run[|run| - 1], t, i) && t.pcs[i].Failed?
    ensures Blamed(schedule, code) || GoFailed(w, sent, run + [t])
  {
    if schedule[n].Go? { assert GoFailsAt(w, sent, run + [t], |run| - 1, schedule[n].worker); }
  }

  /** Patch, with its operations interleaved as the schedule says; at its end the agent has died unless every
      worker has ended. */
  method Patch(dir: PluginDir, sent: seq<Patch>, schedule: seq<Move>) returns (result: PatchResult, ghost run: seq<State>)
    modifies dir
    ensures IsRun(dir.w, old(dir.files), sent, run) && run[|run| - 1].disk == dir.files
    ensures result == Done(PatchClient.OK) <==> AllFinished(run[|run| - 1])
    ensures result != Died <==> AllEnded(run[|run| - 1])
    ensures LongEnough(schedule, sent) ==> result != Died
    ensures result.Done? && result.code != PatchClient.OK ==> Blamed(schedule, result.code) || GoFailed(dir.w, sent, run)
  {
    var pcs := seq(|sent|, i => Ready);
    var code := PatchClient.OK;
    run := [Init(dir.files, sent)];
    for n := 0 to |schedule|
      invariant IsRun(dir.w, old(dir.files), sent, run) && run[|run| - 1] == State(dir.files, pcs) && AllFit(sent, pcs)
      invariant code == PatchClient.OK <==> forall i :: 0 <= i < |pcs| ==> !pcs[i].Failed?
      invariant OnTime(sent, pcs, schedule[..n])
      invariant code != PatchClient.OK ==> Blamed(schedule, code) || GoFailed(dir.w, sent, run)
    {
      var i := schedule[n].worker;
      if i < |pcs| && !Ended(pcs[i]) {
        ghost var before := run;
        var next, c := MoveOne(dir, sent, pcs, schedule[n]);
        ghost var t := State(dir.files, pcs[i := next]);
        RunGrows(dir.w, old(dir.files), sent, run, t);
        run := run + [t];
        StillOnTime(sent, pcs, schedule, n, next);
        if code == PatchClient.OK {
          code := c;
          if c != PatchClient.OK { MoveBlamed(dir.w, sent, before, t, schedule, n, c); }
        } else {
          StillFailed(dir.w, sent, before, t);
        }
        pcs := pcs[i := next];
      } else {
        StillOnTime(sent, pcs, schedule, n, Ready);
      }
    }
    assert schedule[..|schedule|] == schedule;
    if LongEnough(schedule, sent) { AllEnd(sent, pcs, schedule); }
    result := if forall i :: 0 <= i < |pcs| ==> Ended(pcs[i]) then Done(code) else Died;
  }

  /** What happens during one attempt: whether the gateway answers, how it gets its new patches written, and how
      the agent's workers are scheduled. */
  datatype Chance = Chance(reachable: bool, writes: Bytes -> WriteOutcome, schedule: seq<Move>)

  /** Nothing but failing system calls of the agent stands in the way: the gateway answers and can write its patches,
      the directories are compatible, and the agent's modules have names. */
  ghost predicate Fair(w: World, g: Disk, d: Disk, chance: Chance) {
    && chance.reachable && Server.AllWritten(chance.writes) && Compatible(w, g, d)
    && forall e :: w.Has(d, e) ==> e.id != ""
  }

  /** The result of an attempt at the chance. An unreachable gateway gives Unavailable. If the gateway's cache is ready
      and the chance is fair, only a failing system call gives an error, Internal if for want of permission and
      Unavailable otherwise; only too short a schedule lets the agent die; and otherwise it has the gateway's plugins. */
  ghost predicate ResultRight(w: World, g: Disk, ready: bool, before: Disk, chance: Chance, result: PatchResult, after: Disk) {
    && (!chance.reachable ==> result == Done(PatchClient.Unavailable) && after == before)
    && (ready && Fair(w, g, before, chance) ==>
          && (result == Done(PatchClient.Internal) ==> FailsWith(chance.schedule, true))
          && (result == Done(PatchClient.Unavailable) ==> FailsWith(chance.schedule, false))
          && (Complete(chance.schedule, g, before) ==> result != Died)
          && (result == Done(PatchClient.OK) ==> w.SamePlugins(g, after)))
  }

  /** The gateway's reply to the manifest of a directory. */
  method Ask(server: Server.PluginSyncServer, ghost d: Disk, theirs: seq<Entry>, writes: Bytes -> WriteOutcome)
    returns (answer: Server.Code, sent: seq<Patch>, ghost ops: seq<Patch>)
    requires server.Valid() && server.w.Lists(d, theirs)
    modifies server, server.cache
    ensures server.Valid() && Cache.Careful(server.w, old(server.cache.Now()), server.cache.Now())
    ensures answer == Server.OK ==>
              server.loaded && Permutes(JoinOps(server.manifest, theirs), ops) && AllServe(server.w, ops, sent)
    ensures answer == Server.OK && old(server.Ready()) ==> server.Ready() && AllAnswer(server.w, ops, sent)
    ensures old(server.Ready()) && Server.AllWritten(writes) && (forall e :: server.w.Has(d, e) ==> e.id != "") ==>
              answer == Server.OK
  {
    PlainNames(server.w, server.cache.layout, d, theirs);
    answer, sent, ops := server.SyncPluginManifest(theirs, writes);
  }

  /** One attempt: read the directory, ask the gateway, apply what it sends. `tried` is the attempt, if the
      gateway answered. */
  method SyncPlugins(server: Server.PluginSyncServer, dir: PluginDir, chance: Chance)
    returns (result: PatchResult, ghost tried: Option<Attempt>)
    requires server.Valid() && dir.w == server.w
    modifies server, server.cache, dir
    ensures server.Valid() && Cache.Careful(server.w, old(server.cache.Now()), server.cache.Now())
    ensures tried.None? ==> dir.files == old(dir.files)
                            && result == Done(if chance.reachable then PatchClient.Internal else PatchClient.Unavailable)
    ensures tried.Some? ==> |tried.value.run| > 0 && dir.files == Last(tried.value).disk
                            && (result == Done(PatchClient.OK) <==> AllFinished(Last(tried.value)))
    ensures tried.Some? && server.w.IdsIdentify(server.dir) && server.w.IdsIdentify(old(dir.files)) ==>
              IsAttempt(server.w, server.dir, old(dir.files), tried.value)
    ensures ResultRight(server.w, server.dir, old(server.Ready()), old(dir.files), chance, result, dir.files)
    ensures old(server.Ready()) && result == Done(PatchClient.Unavailable) ==> server.Ready()
  {
    var items := Server.GetFilesystemPlugins(server.w, dir.files);
    var theirs := Server.ToManifest(items);
    ghost var files := dir.files;
    if !chance.reachable { return Done(PatchClient.Unavailable), None; }
    var answer, sent, ops := Ask(server, files, theirs, chance.writes);
    if answer != Server.OK { return Done(PatchClient.Internal), None; }
    assert dir.files == files;
    ghost var run;
    result, run := Patch(dir, sent, chance.schedule);
    tried := Some(Attempt(ops, sent, run));
    if server.w.IdsIdentify(server.dir) && server.w.IdsIdentify(files) {
      JoinListsPending(server.w, server.dir, files, server.manifest, theirs, ops);
      if old(server.Ready()) && Compatible(server.w, server.dir, files) {
        OpsCount(server.w, server.dir, files, server.manifest, theirs, ops);
        AnsweredAttempt(server.w, server.dir, files, ops, sent, run, chance.schedule, result);
      }
    }
  }

  /** What an attempt comes to whose operations all have correct data. */
  lemma AnsweredAttempt(w: World, g: Disk, d: Disk, ops: seq<Patch>, sent: seq<Patch>, run: seq<State>,
                        schedule: seq<Move>, result: PatchResult)
    requires w.Lawful() && Compatible(w, g, d) && ListsPending(w, g, d, ops) && AllServe(w, ops, sent) && AllAnswer(w, ops, sent)
    requires IsRun(w, d, sent, run) && |ops| <= |g| + |d|
    requires result == Done(PatchClient.OK) ==> AllFinished(run[|run| - 1])
    requires LongEnough(schedule, sent) ==> result != Died
    requires result.Done? && result.code != PatchClient.OK ==> Blamed(schedule, result.code) || GoFailed(w, sent, run)
    ensures result.Done? && result.code != PatchClient.OK ==> Blamed(schedule, result.code)
    ensures Complete(schedule, g, d) ==> result != Died
    ensures result == Done(PatchClient.OK) ==> w.SamePlugins(g, run[|run| - 1].disk)
  {
    NoGoFails(w, g, d, ops, sent, run);
    if Complete(schedule, g, d) { CompleteIsLong(w, g, d, ops, sent, schedule); }
    if result == Done(PatchClient.OK) { EveryRunConverges(w, g, d, ops, sent, run); }
  }

  /** The digests an agent finds itself are plain names the gateway's system takes, and only a module without a name
      makes its manifest invalid. */
  lemma PlainNames(w: World, l: Paths.Layout, d: Disk, m: seq<Entry>)
    requires w.Lawful() && w.Lists(d, m) && l.Good()
    ensures Server.AllPlain(m) && Server.AllUsable(l, m)
    ensures (forall e :: w.Has(d, e) ==> e.id != "") ==> Server.ValidManifest(m)
  {
    forall e | e in m ensures IsDigest(e.digest) && e.filename != "" && w.Has(d, e) { }
    forall h | h in Digests(m) ensures l.Usable(h) { Cache.PlainDigest(h); }
  }

  datatype Outcome = Synced | GaveUp | Interrupted

  /** The attempts so far are a history from the start, as far as the directories stayed compatible. */
  ghost predicate Tracked(w: World, g: Disk, start: Disk, history: seq<Attempt>)
  {
    && Ran(history)
    && (Compatible(w, g, start) && (forall t :: t in history ==> LeftBenign(w, t)) ==> IsHistory(w, g, start, history))
  }

  lemma TrackedCompatible(w: World, g: Disk, start: Disk, history: seq<Attempt>)
    requires w.Lawful() && Tracked(w, g, start, history) && Compatible(w, g, start)
    requires forall t :: t in history ==> LeftBenign(w, t)
    ensures Compatible(w, g, After(start, history))
  {
    if history != [] {
      assert history[|history| - 1] in history;
      StillCompatibleIff(w, g, start, history);
    }
  }

  lemma TrackedMore(w: World, g: Disk, start: Disk, history: seq<Attempt>, t: Attempt)
    requires w.Lawful() && Tracked(w, g, start, history) && |t.run| > 0
    requires Compatible(w, g, After(start, history)) ==> IsAttempt(w, g, After(start, history), t)
    ensures Tracked(w, g, start, history + [t])
  {
    if Compatible(w, g, start) && forall u :: u in history + [t] ==> LeftBenign(w, u) {
      forall u | u in history ensures LeftBenign(w, u) { assert u in history + [t]; }
      TrackedCompatible(w, g, start, history);
      HistoryGrows(w, g, start, history, t);
    }
  }

  /** The history goes on by an attempt if the gateway answered, and is the same otherwise. */
  lemma TrackOne(w: World, g: Disk, start: Disk, before: seq<Attempt>, after: Disk, result: PatchResult, tried: Option<Attempt>)
    returns (history: seq<Attempt>)
    requires w.Lawful() && Tracked(w, g, start, before) && NoneFinished(before)
    requires tried.None? ==> after == After(start, before) && result != Done(PatchClient.OK)
    requires tried.Some? ==> |tried.value.run| > 0 && after == Last(tried.value).disk
                             && (result == Done(PatchClient.OK) <==> AllFinished(Last(tried.value)))
    requires tried.Some? && w.IdsIdentify(g) && w.IdsIdentify(After(start, before)) ==>
               IsAttempt(w, g, After(start, before), tried.value)
    ensures Tracked(w, g, start, history) && after == After(start, history) && Ends(result, history)
  {
    history := before;
    if tried.Some? {
      TrackedMore(w, g, start, before, tried.value);
      history := before + [tried.value];
      assert history[..|before|] == before;
    }
  }

  ghost predicate NoneFinished(history: seq<Attempt>) {
    forall n :: 0 <= n < |history| ==> |history[n].run| > 0 && !AllFinished(Last(history[n]))
  }

  /** Only the last attempt, and only with that result, was one in which all operations finished. */
  ghost predicate Ends(result: PatchResult, history: seq<Attempt>) {
    if result != Done(PatchClient.OK) then NoneFinished(history)
    else
      && history != [] && NoneFinished(history[..|history| - 1])
      && |history[|history| - 1].run| > 0 && AllFinished(Last(history[|history| - 1]))
  }

  /** The results of the attempts at the first chances, and the directory before and after each. */
  ghost predicate Attempts(w: World, g: Disk, ready: bool, chances: seq<Chance>, results: seq<PatchResult>, disks: seq<Disk>) {
    && |results| <= |chances| && |disks| == |results| + 1
    && (forall k :: 0 <= k < |results| ==> ResultRight(w, g, ready, disks[k], chances[k], results[k], disks[k + 1]))
    && (forall k :: 0 <= k < |results| - 1 ==> results[k] == Done(PatchClient.Unavailable))
  }

  predicate GoesOn(results: seq<PatchResult>) {
    results == [] || results[|results| - 1] == Done(PatchClient.Unavailable)
  }

  lemma AttemptsMore(w: World, g: Disk, ready: bool, chances: seq<Chance>, results: seq<PatchResult>, disks: seq<Disk>,
                     now: bool, result: PatchResult, after: Disk)
    requires Attempts(w, g, ready, chances, results, disks) && GoesOn(results) && |results| < |chances| && (ready ==> now)
    requires ResultRight(w, g, now, disks[|results|], chances[|results|], result, after)
    ensures Attempts(w, g, ready, chances, results + [result], disks + [after])
  {
    var results', disks' := results + [result], disks + [after];
    forall k | 0 <= k < |results'| ensures ResultRight(w, g, ready, disks'[k], chances[k], results'[k], disks'[k + 1]) {
      if k < |results| { assert ResultRight(w, g, ready, disks[k], chances[k], results[k], disks[k + 1]); }
    }
  }

  /** All chances were tried, unless the last attempt tried ended otherwise than with Unavailable, and the outcome is
      that of the last. */
  ghost predicate LoopRight(w: World, g: Disk, ready: bool, start: Disk, chances: seq<Chance>, results: seq<PatchResult>,
                            disks: seq<Disk>, outcome: Outcome, end: Disk) {
    && Attempts(w, g, ready, chances, results, disks) && disks[0] == start && disks[|results|] == end
    && (|results| == |chances| || !GoesOn(results))
    && (outcome == Synced <==> results != [] && results[|results| - 1] == Done(PatchClient.OK))
    && (outcome == GaveUp <==> results != [] && results[|results| - 1] == Done(PatchClient.Internal))
  }

  /** What has happened so far: the attempts the gateway answered, one result per attempt, and the directory before
      and after each. */
  datatype Log = Log(history: seq<Attempt>, results: seq<PatchResult>, disks: seq<Disk>)

  function LastOf(results: seq<PatchResult>): PatchResult {
    if results == [] then Done(PatchClient.Unavailable) else results[|results| - 1]
  }

  ghost predicate Logged(w: World, g: Disk, ready: bool, start: Disk, chances: seq<Chance>, log: Log, now: Disk) {
    && Tracked(w, g, start, log.history) && now == After(start, log.history) && Ends(LastOf(log.results), log.history)
    && Attempts(w, g, ready, chances, log.results, log.disks)
    && log.disks[0] == start && log.disks[|log.results|] == now
  }

  lemma LogStart(w: World, g: Disk, ready: bool, start: Disk, chances: seq<Chance>)
    ensures Logged(w, g, ready, start, chances, Log([], [], [start]), start)
  {
  }

  lemma LogOne(w: World, g: Disk, ready: bool, start: Disk, chances: seq<Chance>, log: Log, before: Disk,
               now: bool, result: PatchResult, tried: Option<Attempt>, after: Disk) returns (log': Log)
    requires w.Lawful() && Logged(w, g, ready, start, chances, log, before) && GoesOn(log.results)
    requires |log.results| < |chances| && (ready ==> now)
    requires ResultRight(w, g, now, before, chances[|log.results|], result, after)
    requires tried.None? ==> after == before && result != Done(PatchClient.OK)
    requires tried.Some? ==> |tried.value.run| > 0 && after == Last(tried.value).disk
                             && (result == Done(PatchClient.OK) <==> AllFinished(Last(tried.value)))
    requires tried.Some? && w.IdsIdentify(g) && w.IdsIdentify(before) ==> IsAttempt(w, g, before, tried.value)
    ensures Logged(w, g, ready, start, chances, log', after) && log'.results == log.results + [result]
  {
    var history := TrackOne(w, g, start, log.history, after, result, tried);
    AttemptsMore(w, g, ready, chances, log.results, log.disks, now, result, after);
    log' := Log(history, log.results + [result], log.disks + [after]);
  }

  /** One attempt: whether the gateway's cache was ready, the directory and the cache before it, how it went, and the
      directory and the cache after. */
  datatype Event = Event(now: bool, before: Disk, cache: Cache.Files, result: PatchResult, tried: Option<Attempt>,
                         after: Disk, cache': Cache.Files)

  ghost predicate EventRight(w: World, g: Disk, chance: Chance, e: Event) {
    && ResultRight(w, g, e.now, e.before, chance, e.result, e.after)
    && Cache.Careful(w, e.cache, e.cache')
    && (e.tried.None? ==> e.after == e.before && e.result != Done(PatchClient.OK))
    && (e.tried.Some? ==> |e.tried.value.run| > 0 && e.after == Last(e.tried.value).disk
                          && (e.result == Done(PatchClient.OK) <==> AllFinished(Last(e.tried.value))))
    && (e.tried.Some? && w.IdsIdentify(g) && w.IdsIdentify(e.before) ==> IsAttempt(w, g, e.before, e.tried.value))
  }

  /** Attempts at the first chances, each from where the one before left off with Unavailable. */
  ghost predicate Events(w: World, g: Disk, ready: bool, start: Disk, files: Cache.Files, chances: seq<Chance>, es: seq<Event>)
    decreases |es|
  {
    |es| <= |chances| &&
    (es == [] || (var n := |es| - 1;
                  && Events(w, g, ready, start, files, chances, es[..n])
                  && EventAt(w, g, ready, start, files, chances[n], es[..n], es[n])))
  }

  ghost predicate EventAt(w: World, g: Disk, ready: bool, start: Disk, files: Cache.Files, chance: Chance, before: seq<Event>,
                          e: Event) {
    EventRight(w, g, chance, e) && (ready ==> e.now) && e.before == Now(start, before) && Going(before)
    && e.cache == CacheNow(files, before)
  }

  function Now(start: Disk, es: seq<Event>): Disk {
    if es == [] then start else es[|es| - 1].after
  }

  function CacheNow(files: Cache.Files, es: seq<Event>): Cache.Files {
    if es == [] then files else es[|es| - 1].cache'
  }

  predicate Going(es: seq<Event>) {
    es == [] || es[|es| - 1].result == Done(PatchClient.Unavailable)
  }

  lemma EventsMore(w: World, g: Disk, ready: bool, start: Disk, files: Cache.Files, chances: seq<Chance>, es: seq<Event>, e: Event)
    requires Events(w, g, ready, start, files, chances, es) && |es| < |chances|
    requires EventAt(w, g, ready, start, files, chances[|es|], es, e)
    ensures Events(w, g, ready, start, files, chances, es + [e])
  {
    assert (es + [e])[..|es|] == es;
  }

  /** Over all attempts nothing undamaged is lost from the gateway's cache. */
  lemma {:induction false} CarefulAll(w: World, g: Disk, ready: bool, start: Disk, files: Cache.Files, chances: seq<Chance>, es: seq<Event>)
    requires Events(w, g, ready, start, files, chances, es)
    ensures Cache.Careful(w, files, CacheNow(files, es))
  {
    if es != [] {
      CarefulAll(w, g, ready, start, files, chances, es[..|es| - 1]);
      Cache.CarefulTwice(w, files, es[|es| - 1].cache, es[|es| - 1].cache');
    }
  }

  lemma {:induction false} LogOf(w: World, g: Disk, ready: bool, start: Disk, files: Cache.Files, chances: seq<Chance>, es: seq<Event>) returns (log: Log)
    requires w.Lawful() && Events(w, g, ready, start, files, chances, es)
    ensures Logged(w, g, ready, start, chances, log, Now(start, es)) && |log.results| == |es|
    ensures es != [] ==> LastOf(log.results) == es[|es| - 1].result
  {
    if es == [] {
      LogStart(w, g, ready, start, chances);
      log := Log([], [], [start]);
    } else {
      var init, e := es[..|es| - 1], es[|es| - 1];
      var before := LogOf(w, g, ready, start, files, chances, init);
      log := LogOne(w, g, ready, start, chances, before, e.before, e.now, e.result, e.tried, e.after);
    }
  }

  method TryOnce(server: Server.PluginSyncServer, dir: PluginDir, chances: seq<Chance>, n: nat,
                 ghost ready: bool, ghost start: Disk, ghost files: Cache.Files, ghost es: seq<Event>)
    returns (result: PatchResult, ghost more: seq<Event>)
    requires server.Valid() && dir.w == server.w && n == |es| < |chances| && (ready ==> server.Ready()) && Going(es)
    requires Events(server.w, server.dir, ready, start, files, chances, es)
    requires server.cache.Now() == CacheNow(files, es) && dir.files == Now(start, es)
    modifies server, server.cache, dir
    ensures server.Valid() && server.cache.Now() == CacheNow(files, more) && dir.files == Now(start, more)
    ensures Events(server.w, server.dir, ready, start, files, chances, more)
    ensures |more| == n + 1 && more[n].result == result
    ensures ready && result == Done(PatchClient.Unavailable) ==> server.Ready()
  {
    ghost var tried;
    result, tried := SyncPlugins(server, dir, chances[n]);
    ghost var e := Event(old(server.Ready()), old(dir.files), old(server.cache.Now()), result, tried, dir.files, server.cache.Now());
    assert EventAt(server.w, server.dir, ready, start, files, chances[n], es, e);
    EventsMore(server.w, server.dir, ready, start, files, chances, es, e);
    more := es + [e];
  }

  /** Attempts go on while they fail with Unavailable; the end of `chances` is the end of the agent's context. */
  method TryAll(server: Server.PluginSyncServer, dir: PluginDir, chances: seq<Chance>)
    returns (result: PatchResult, ghost es: seq<Event>)
    requires server.Valid() && dir.w == server.w
    modifies server, server.cache, dir
    ensures server.Valid() && server.cache.Now() == CacheNow(old(server.cache.Now()), es) && dir.files == Now(old(dir.files), es)
    ensures Events(server.w, server.dir, old(server.Ready()), old(dir.files), old(server.cache.Now()), chances, es)
    ensures result == if es == [] then Done(PatchClient.Unavailable) else es[|es| - 1].result
    ensures |es| == |chances| || !Going(es)
  {
    ghost var start, files, ready := dir.files, server.cache.Now(), server.Ready();
    var n := 0;
    result, es := Done(PatchClient.Unavailable), [];
    while n < |chances| && result == Done(PatchClient.Unavailable)
      invariant n == |es| <= |chances| && result == if es == [] then Done(PatchClient.Unavailable) else es[|es| - 1].result
      invariant server.Valid() && server.cache.Now() == CacheNow(files, es) && dir.files == Now(start, es)
      invariant Events(server.w, server.dir, ready, start, files, chances, es)
      invariant ready && result == Done(PatchClient.Unavailable) ==> server.Ready()
    {
      result, es := TryOnce(server, dir, chances, n, ready, start, files, es);
      n := n + 1;
    }
  }

  lemma LogEnds(w: World, g: Disk, ready: bool, start: Disk, chances: seq<Chance>, log: Log, now: Disk, outcome: Outcome)
    requires w.Lawful() && Logged(w, g, ready, start, chances, log, now) && (|log.results| == |chances| || !GoesOn(log.results))
    requires outcome == Synced <==> LastOf(log.results) == Done(PatchClient.OK)
    requires outcome == GaveUp <==> LastOf(log.results) == Done(PatchClient.Internal)
    ensures outcome == Synced ==> log.history != [] && AllFinished(Last(log.history[|log.history| - 1]))
    ensures outcome == Synced && IsHistory(w, g, start, log.history) ==> w.SamePlugins(g, now)
    ensures log.history != [] ==> NoneFinished(log.history[..|log.history| - 1])
    ensures LoopRight(w, g, ready, start, chances, log.results, log.disks, outcome, now)
  {
    if outcome == Synced && IsHistory(w, g, start, log.history) { SyncedAtLast(w, g, start, log.history); }
  }

  /** The directory is what the attempts made of it, and they are a history of attempts, of which SyncAttempts says the
      rest; the loop ends synced only after an attempt in which every operation finished. */
  method SyncLoop(server: Server.PluginSyncServer, dir: PluginDir, chances: seq<Chance>) returns (outcome: Outcome, ghost log: Log)
    requires server.Valid() && dir.w == server.w
    modifies server, server.cache, dir
    ensures server.Valid() && Cache.Careful(server.w, old(server.cache.Now()), server.cache.Now())
    ensures Tracked(server.w, server.dir, old(dir.files), log.history) && dir.files == After(old(dir.files), log.history)
    ensures outcome == Synced ==> log.history != [] && AllFinished(Last(log.history[|log.history| - 1]))
    ensures outcome == Synced && IsHistory(server.w, server.dir, old(dir.files), log.history) ==>
              server.w.SamePlugins(server.dir, dir.files)
    ensures log.history != [] ==> NoneFinished(log.history[..|log.history| - 1])
    ensures LoopRight(server.w, server.dir, old(server.Ready()), old(dir.files), chances, log.results, log.disks, outcome, dir.files)
  {
    ghost var es;
    var result;
    result, es := TryAll(server, dir, chances);
    log := LogOf(server.w, server.dir, old(server.Ready()), old(dir.files), old(server.cache.Now()), chances, es);
    CarefulAll(server.w, server.dir, old(server.Ready()), old(dir.files), old(server.cache.Now()), chances, es);
    outcome := if result == Done(PatchClient.OK) then Synced else if result == Done(PatchClient.Internal) then GaveUp else Interrupted;
    LogEnds(server.w, server.dir, old(server.Ready()), old(dir.files), chances, log, dir.files, outcome);
  }

  // ------------------------------------------------- the loop does its work

  /** No system call of the agent fails, and there are enough of them. */
  ghost predicate Smooth(g: Disk, d: Disk, chance: Chance) {
    Complete(chance.schedule, g, d) && forall n :: 0 <= n < |chance.schedule| ==> chance.schedule[n].Go?
  }

  lemma OneOf(r: PatchResult)
    ensures r in {Died, Done(PatchClient.OK), Done(PatchClient.Unavailable), Done(PatchClient.Internal)}
  {
    match r
    case Died =>
    case Done(c) =>
      match c
      case OK =>
      case Unavailable =>
      case Internal =>
  }

  /** If the attempts before ended with Unavailable and the next chance is fair and smooth, the agent is synced by it
      and has the gateway's plugins. */
  lemma SyncedByNext(w: World, g: Disk, start: Disk, chances: seq<Chance>, results: seq<PatchResult>, disks: seq<Disk>,
                     outcome: Outcome, end: Disk, k: nat)
    requires LoopRight(w, g, true, start, chances, results, disks, outcome, end) && k < |chances| && k <= |results|
    requires forall n :: 0 <= n < k ==> results[n] == Done(PatchClient.Unavailable)
    requires Fair(w, g, disks[k], chances[k]) && Smooth(g, disks[k], chances[k])
    ensures outcome == Synced && |results| == k + 1 && w.SamePlugins(g, end)
  {
    assert ResultRight(w, g, true, disks[k], chances[k], results[k], disks[k + 1]);
    assert !FailsWith(chances[k].schedule, true) && !FailsWith(chances[k].schedule, false);
    OneOf(results[k]);
  }

  lemma {:induction false} UnreachableChanges(w: World, g: Disk, ready: bool, chances: seq<Chance>, results: seq<PatchResult>,
                                              disks: seq<Disk>, k: nat)
    requires Attempts(w, g, ready, chances, results, disks) && k <= |results|
    requires forall n :: 0 <= n < k ==> !chances[n].reachable
    ensures disks[k] == disks[0] && forall n :: 0 <= n < k ==> results[n] == Done(PatchClient.Unavailable)
  {
    if k > 0 {
      UnreachableChanges(w, g, ready, chances, results, disks, k - 1);
      assert ResultRight(w, g, ready, disks[k - 1], chances[k - 1], results[k - 1], disks[k]);
    }
  }

  /** So an agent that cannot reach its gateway for any number of attempts, and then gets a fair and smooth chance, is
      synced. */
  lemma SyncedOnceReachable(w: World, g: Disk, start: Disk, chances: seq<Chance>, results: seq<PatchResult>, disks: seq<Disk>,
                            outcome: Outcome, end: Disk, k: nat)
    requires LoopRight(w, g, true, start, chances, results, disks, outcome, end) && k < |chances|
    requires forall n :: 0 <= n < k ==> !chances[n].reachable
    requires Fair(w, g, start, chances[k]) && Smooth(g, start, chances[k])
    ensures outcome == Synced && |results| == k + 1 && w.SamePlugins(g, end)
  {
    if |results| < k { UnreachableChanges(w, g, true, chances, results, disks, |results|); }
    UnreachableChanges(w, g, true, chances, results, disks, k);
    SyncedByNext(w, g, start, chances, results, disks, outcome, end, k);
  }
}
