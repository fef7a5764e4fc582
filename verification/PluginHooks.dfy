/** The plugin loader's hooks (pkg/plugins/loader.go): concurrent Hook calls, plugin loads and completion,
    under the hooks lock, the plugins lock and the completion flag. */
module PluginHooks {
  import opened Common

  type HookId = nat
  type PluginId = nat

  datatype Kind = OnLoad | OnCompleted

  /** Hook takes the hooks lock for writing, or only for reading once loading has completed. */
  datatype Mode = Write | Read

  /** Where a Hook call is. The append to the hook list is two memory accesses, a copy and a write back,
      because holders of the read lock may append at the same time. */
  datatype Pc = Start | Wanting | Holding | Copied | Appended | Joined | Finished

  /** `copy` is the list as copied. `saw` are the plugins a load hook was invoked for by its own late join and
      `missed` those that were, at that moment, past looking at the hooks but not yet active. `late` and
      `seen` say whether a completion hook was invoked by its own late join and by Complete. */
  datatype Hook = Hook(kind: Kind, pc: Pc, mode: Mode, copy: seq<HookId>,
                       saw: set<PluginId>, missed: set<PluginId>, late: bool, seen: bool)

  /** LoadOne first invokes the hooks it finds, then makes the plugin active. `found` are those hooks. */
  datatype Stage = Loading | Invoked | Active

  datatype Plugin = Plugin(stage: Stage, found: set<HookId>)

  /** Complete sets the flag, then invokes the completion hooks it finds. */
  datatype Completion = NotStarted | FlagSet | Notified

  datatype State = State(
    hooks: map<HookId, Hook>,
    plugins: map<PluginId, Plugin>,
    loadHooks: seq<HookId>,
    completedHooks: seq<HookId>,
    activePlugins: seq<PluginId>,
    completion: Completion,
    calls: seq<(HookId, PluginId)>,     // invocations of load hooks
    notices: seq<(HookId, nat)>)        // invocations of completion hooks, with the plugin count
  {
    predicate Completed() { completion != NotStarted }

    function List(k: Kind): seq<HookId> { if k == OnLoad then loadHooks else completedHooks }
  }

  predicate Holds(x: Hook) {
    x.pc.Holding? || x.pc.Copied? || x.pc.Appended? || x.pc.Joined?
  }

  predicate NoWriter(s: State) {
    forall h :: h in s.hooks ==> !(Holds(s.hooks[h]) && s.hooks[h].mode == Write)
  }

  predicate NobodyHolds(s: State) {
    forall h :: h in s.hooks ==> !Holds(s.hooks[h])
  }

  datatype Step =
    | NewHook(h: HookId, kind: Kind)
    | ReadFlag(h: HookId)
    | AcquireLock(h: HookId)
    | CopyList(h: HookId)
    | WriteList(h: HookId)
    | LateJoin(h: HookId)
    | ReleaseLock(h: HookId)
    | NewPlugin(p: PluginId)
    | InvokeHooks(p: PluginId)
    | Activate(p: PluginId)
    | SetFlag               // only when every load has returned, as LoadPlugins waits for them
    | NotifyCompleted

  predicate At(s: State, h: HookId, pc: Pc) {
    h in s.hooks && s.hooks[h].pc == pc
  }

  predicate Enabled(s: State, step: Step) {
    match step
    case NewHook(h, _) => h !in s.hooks
    case ReadFlag(h) => At(s, h, Start)
    case AcquireLock(h) => At(s, h, Wanting) && if s.hooks[h].mode == Write then NobodyHolds(s) else NoWriter(s)
    case CopyList(h) => At(s, h, Holding)
    case WriteList(h) => At(s, h, Copied)
    case LateJoin(h) => At(s, h, Appended)
    case ReleaseLock(h) => At(s, h, Joined)
    case NewPlugin(p) => p !in s.plugins && !s.Completed()
    case InvokeHooks(p) => p in s.plugins && s.plugins[p].stage == Loading && NoWriter(s)
    case Activate(p) => p in s.plugins && s.plugins[p].stage == Invoked
    case SetFlag => !s.Completed() && forall p :: p in s.plugins ==> s.plugins[p].stage == Active
    case NotifyCompleted => s.completion == FlagSet && NoWriter(s)
  }

  type Should = (HookId, PluginId) -> bool

  function InvokeEach(should: Should, hs: seq<HookId>, p: PluginId): seq<(HookId, PluginId)> {
    if hs == [] then []
    else InvokeEach(should, hs[..|hs| - 1], p) + if should(hs[|hs| - 1], p) then [(hs[|hs| - 1], p)] else []
  }

  function InvokeFor(should: Should, h: HookId, ps: seq<PluginId>): seq<(HookId, PluginId)> {
    if ps == [] then []
    else InvokeFor(should, h, ps[..|ps| - 1]) + if should(h, ps[|ps| - 1]) then [(h, ps[|ps| - 1])] else []
  }

  function NoticeEach(hs: seq<HookId>, n: nat): seq<(HookId, nat)> {
    if hs == [] then [] else NoticeEach(hs[..|hs| - 1], n) + [(hs[|hs| - 1], n)]
  }

  function InGap(s: State): set<PluginId> {
    set p | p in s.plugins && s.plugins[p].stage == Invoked
  }

  function ChangedHook(s: State, step: Step): Hook
    requires Enabled(s, step)
    requires !step.NewPlugin? && !step.InvokeHooks? && !step.Activate? && !step.SetFlag? && !step.NotifyCompleted?
  {
    if step.NewHook? then Hook(step.kind, Start, Write, [], {}, {}, false, false)
    else
      var x := s.hooks[step.h];
      match step
      case ReadFlag(_) => x.(pc := Wanting, mode := if s.Completed() then Read else Write)
      case AcquireLock(_) => x.(pc := Holding)
      case CopyList(_) => x.(pc := Copied, copy := s.List(x.kind))
      case WriteList(_) => x.(pc := Appended)
      case LateJoin(_) =>
        if x.kind == OnLoad then x.(pc := Joined, saw := Elems(s.activePlugins), missed := InGap(s))
        else x.(pc := Joined, late := s.Completed())
      case ReleaseLock(_) => x.(pc := Finished)
  }

  function NextHooks(s: State, step: Step): map<HookId, Hook>
    requires Enabled(s, step)
  {
    match step
    case NewPlugin(_) => s.hooks
    case InvokeHooks(_) => s.hooks
    case Activate(_) => s.hooks
    case SetFlag => s.hooks
    case NotifyCompleted =>
      map h | h in s.hooks :: if h in s.completedHooks then s.hooks[h].(seen := true) else s.hooks[h]
    case _ => s.hooks[step.h := ChangedHook(s, step)]
  }

  function NextPlugins(s: State, step: Step): map<PluginId, Plugin>
    requires Enabled(s, step)
  {
    match step
    case NewPlugin(p) => s.plugins[p := Plugin(Loading, {})]
    case InvokeHooks(p) => s.plugins[p := Plugin(Invoked, Elems(s.loadHooks))]
    case Activate(p) => s.plugins[p := s.plugins[p].(stage := Active)]
    case _ => s.plugins
  }

  function NextList(s: State, step: Step, k: Kind): seq<HookId>
    requires Enabled(s, step)
  {
    if step.WriteList? && s.hooks[step.h].kind == k then s.hooks[step.h].copy + [step.h] else s.List(k)
  }

  function Next(should: Should, s: State, step: Step): State
    requires Enabled(s, step)
  {
    State(
      NextHooks(s, step), NextPlugins(s, step), NextList(s, step, OnLoad), NextList(s, step, OnCompleted),
      if step.Activate? then s.activePlugins + [step.p] else s.activePlugins,
      if step.SetFlag? then FlagSet else if step.NotifyCompleted? then Notified else s.completion,
      s.calls + (if step.InvokeHooks? then InvokeEach(should, s.loadHooks, step.p)
                 else if step.LateJoin? && s.hooks[step.h].kind == OnLoad then InvokeFor(should, step.h, s.activePlugins)
                 else []),
      s.notices + (if step.NotifyCompleted? then NoticeEach(s.completedHooks, |s.activePlugins|)
                   else if step.LateJoin? && s.hooks[step.h].kind == OnCompleted && s.Completed()
                        then [(step.h, |s.activePlugins|)]
                   else []))
  }

  function Init(): State {
    State(map[], map[], [], [], [], NotStarted, [], [])
  }

  ghost predicate IsRun(should: Should, steps: seq<Step>, run: seq<State>) {
    && |run| == |steps| + 1 && run[0] == Init()
    && forall i :: 0 <= i < |steps| ==> Enabled(run[i], steps[i]) && run[i + 1] == Next(should, run[i], steps[i])
  }

  // ------------------------------------------------- the invariant

  predicate HasJoined(x: Hook) {
    x.pc.Joined? || x.pc.Finished?
  }

  predicate HasAppended(x: Hook) {
    x.pc.Appended? || HasJoined(x)
  }

  /** The hook lists: entries are hooks that were written there, once; what holders of the write lock wrote
      is never lost, and before completion there are no other holders. */
  ghost predicate ListInv(s: State) {
    && ListOk(s, OnLoad) && ListOk(s, OnCompleted)
    && (forall h :: h in s.hooks ==> HookInv(s, h))
    && (forall h, k :: h in s.hooks && k in s.hooks && h != k ==> Exclusive(s.hooks[h], s.hooks[k]))
  }

  predicate Written(s: State, h: HookId, k: Kind) {
    h in s.hooks && s.hooks[h].kind == k && HasAppended(s.hooks[h])
  }

  ghost predicate ListOk(s: State, k: Kind) {
    NoDup(s.List(k)) && forall h :: h in s.List(k) ==> Written(s, h, k)
  }

  predicate Exclusive(x: Hook, y: Hook) {
    Holds(x) && Holds(y) ==> x.mode == Read
  }

  /** The hook was added to that list under the write lock. */
  predicate WroteUnder(x: Hook, k: Kind) {
    x.kind == k && HasAppended(x) && x.mode == Write
  }

  ghost predicate HookInv(s: State, h: HookId)
    requires h in s.hooks
  {
    var x := s.hooks[h];
    && (x.pc != Start && x.mode == Read ==> s.Completed())
    && (x.pc.Copied? ==> CopyOk(s, h, x))
    && (WroteUnder(x, x.kind) ==> h in s.List(x.kind))
  }

  ghost predicate CopyOk(s: State, h: HookId, x: Hook) {
    && NoDup(x.copy) && h !in x.copy
    && (forall k :: k in x.copy ==> Written(s, k, x.kind))
    && (forall k :: k in s.hooks && WroteUnder(s.hooks[k], x.kind) ==> k in x.copy)
  }

  ghost predicate PluginInv(s: State) {
    && NoDup(s.activePlugins)
    && (forall p :: p in s.activePlugins <==> p in s.plugins && s.plugins[p].stage == Active)
    && (s.Completed() ==> forall p :: p in s.plugins ==> s.plugins[p].stage == Active)
  }

  /** A load hook and a plugin meet in at most one way: the load found the hook, the hook's late join saw the
      plugin, or the hook joined while the plugin was in the gap. Once both are past that, in exactly one. */
  predicate PairInv(x: Hook, h: HookId, y: Plugin, p: PluginId) {
    if !HasJoined(x) then h !in y.found
    else match y.stage
      case Loading => p !in x.saw && p !in x.missed && h !in y.found
      case Invoked => p !in x.saw && (p in x.missed <==> h !in y.found)
      case Active => if h in y.found then p !in x.saw && p !in x.missed else (p in x.saw <==> p !in x.missed)
  }

  ghost predicate MeetInv(s: State) {
    && (forall h :: h in s.hooks ==> SawInv(s, h))
    && (forall p :: p in s.plugins ==> FoundInv(s, p))
    && (forall h, p :: h in s.hooks && p in s.plugins ==> s.hooks[h].kind == OnLoad ==> PairInv(s.hooks[h], h, s.plugins[p], p))
  }

  predicate SawInv(s: State, h: HookId)
    requires h in s.hooks
  {
    var x := s.hooks[h];
    && x.saw <= s.plugins.Keys && x.missed <= s.plugins.Keys
    && (x.saw != {} || x.missed != {} ==> HasJoined(x) && x.kind == OnLoad)
  }

  predicate FoundInv(s: State, p: PluginId)
    requires p in s.plugins
  {
    forall h :: h in s.plugins[p].found ==> h in s.hooks && s.hooks[h].kind == OnLoad
  }

  function Count(b: bool): nat { if b then 1 else 0 }

  function SawIt(s: State, h: HookId, p: PluginId): bool {
    h in s.hooks && p in s.hooks[h].saw
  }

  function FoundIt(s: State, h: HookId, p: PluginId): bool {
    p in s.plugins && h in s.plugins[p].found
  }

  ghost predicate CallInv(should: Should, s: State) {
    forall h, p :: CallsRight(should, s, h, p)
  }

  predicate CallsRight(should: Should, s: State, h: HookId, p: PluginId) {
    multiset(s.calls)[(h, p)] == if should(h, p) then Count(SawIt(s, h, p)) + Count(FoundIt(s, h, p)) else 0
  }

  /** Completion hooks are invoked only after completion, always with the number of all plugins. */
  ghost predicate NoticeInv(s: State) {
    && (s.notices != [] ==> s.Completed())
    && (forall h, n :: NoticesRight(s, h, n))
    && (forall h :: h in s.hooks ==> CompletionHookInv(s, h))
  }

  predicate NoticesRight(s: State, h: HookId, n: nat) {
    multiset(s.notices)[(h, n)] ==
    if h in s.hooks && n == |s.activePlugins| then Count(s.hooks[h].late) + Count(s.hooks[h].seen) else 0
  }

  predicate CompletionHookInv(s: State, h: HookId)
    requires h in s.hooks
  {
    var x := s.hooks[h];
    && (x.late ==> HasJoined(x) && s.Completed())
    && (x.seen ==> s.completion == Notified && HasAppended(x))
    && (x.kind == OnCompleted && HasJoined(x) && x.mode == Read ==> x.late)
    && (x.kind == OnCompleted && HasJoined(x) && s.completion == Notified ==> x.late || x.seen)
  }

  ghost predicate Inv(should: Should, s: State) {
    ListInv(s) && PluginInv(s) && MeetInv(s) && CallInv(should, s) && NoticeInv(s)
  }

  // ------------------------------------------------- steps keep it

  /** A hook keeps its kind, and only moves forward. */
  lemma Advances(should: Should, s: State, step: Step, h: HookId)
    requires Enabled(s, step) && h in s.hooks
    ensures var t := Next(should, s, step);
            && h in t.hooks && t.hooks[h].kind == s.hooks[h].kind
            && (s.hooks[h].pc != Start ==> t.hooks[h].pc != Start && t.hooks[h].mode == s.hooks[h].mode)
            && (HasAppended(t.hooks[h]) <==> HasAppended(s.hooks[h]) || step == WriteList(h))
            && (HasJoined(t.hooks[h]) <==> HasJoined(s.hooks[h]) || step == LateJoin(h))
            && (t.hooks[h].pc.Copied? && step != CopyList(h) ==> s.hooks[h].pc.Copied? && t.hooks[h].copy == s.hooks[h].copy)
            && (Holds(t.hooks[h]) ==> Holds(s.hooks[h]) || step == AcquireLock(h))
  {
  }

  /** A hook that was not there before has done nothing yet. */
  lemma Newcomer(should: Should, s: State, step: Step, h: HookId)
    requires Enabled(s, step) && h in Next(should, s, step).hooks && h !in s.hooks
    ensures Next(should, s, step).hooks[h].pc == Start
  {
  }

  lemma NextListOk(should: Should, s: State, step: Step, k: Kind)
    requires ListInv(s) && Enabled(s, step)
    ensures ListOk(Next(should, s, step), k)
  {
    var t := Next(should, s, step);
    assert t.List(k) == NextList(s, step, k);
    if step.WriteList? { assert HookInv(s, step.h); }
    forall h | h in t.List(k) ensures Written(t, h, k) {
      assert h in s.hooks;
      Advances(should, s, step, h);
      assert step == WriteList(h) || Written(s, h, k);
    }
  }

  lemma NextExclusive(should: Should, s: State, step: Step, h: HookId, k: HookId)
    requires ListInv(s) && Enabled(s, step) && h != k
    requires h in Next(should, s, step).hooks && k in Next(should, s, step).hooks
    ensures Exclusive(Next(should, s, step).hooks[h], Next(should, s, step).hooks[k])
  {
    if h !in s.hooks {
      Newcomer(should, s, step, h);
    } else if k !in s.hooks {
      Newcomer(should, s, step, k);
    } else {
      Advances(should, s, step, h);
      Advances(should, s, step, k);
      assert Exclusive(s.hooks[h], s.hooks[k]) && Exclusive(s.hooks[k], s.hooks[h]);
    }
  }

  /** A copy in progress still holds every hook added under the write lock: none can be added meanwhile. */
  lemma NextCopy(should: Should, s: State, step: Step, h: HookId)
    requires ListInv(s) && Enabled(s, step) && h in s.hooks && Next(should, s, step).hooks[h].pc.Copied?
    ensures CopyOk(Next(should, s, step), h, Next(should, s, step).hooks[h])
  {
    var t := Next(should, s, step);
    Advances(should, s, step, h);
    assert HookInv(s, h);
    var x := t.hooks[h];
    forall k | k in x.copy ensures Written(t, k, x.kind) {
      assert Written(s, k, x.kind);
      Advances(should, s, step, k);
    }
    forall k | k in t.hooks && WroteUnder(t.hooks[k], x.kind) ensures k in x.copy {
      if k !in s.hooks { Newcomer(should, s, step, k); }
      Advances(should, s, step, k);
      assert HookInv(s, k);
      if step == WriteList(k) { assert Exclusive(s.hooks[k], s.hooks[h]); }
    }
  }

  lemma NextHook(should: Should, s: State, step: Step, h: HookId)
    requires ListInv(s) && Enabled(s, step) && h in Next(should, s, step).hooks
    ensures HookInv(Next(should, s, step), h)
  {
    var t := Next(should, s, step);
    if h !in s.hooks {
      Newcomer(should, s, step, h);
    } else {
      Advances(should, s, step, h);
      assert HookInv(s, h);
      if t.hooks[h].pc.Copied? { NextCopy(should, s, step, h); }
      if step.WriteList? {
        assert HookInv(s, step.h);
        assert CopyOk(s, step.h, s.hooks[step.h]);
      }
      assert t.List(OnLoad) == NextList(s, step, OnLoad) && t.List(OnCompleted) == NextList(s, step, OnCompleted);
    }
  }

  lemma NextLists(should: Should, s: State, step: Step)
    requires ListInv(s) && Enabled(s, step)
    ensures ListInv(Next(should, s, step))
  {
    var t := Next(should, s, step);
    NextListOk(should, s, step, OnLoad);
    NextListOk(should, s, step, OnCompleted);
    forall h | h in t.hooks ensures HookInv(t, h) { NextHook(should, s, step, h); }
    forall h, k | h in t.hooks && k in t.hooks && h != k ensures Exclusive(t.hooks[h], t.hooks[k]) {
      NextExclusive(should, s, step, h, k);
    }
  }

  lemma NextPlugin(should: Should, s: State, step: Step)
    requires PluginInv(s) && Enabled(s, step)
    ensures PluginInv(Next(should, s, step))
  {
  }

  /** What the hooks and plugins remember about each other changes only when they meet. */
  lemma Remembers(should: Should, s: State, step: Step)
    requires Enabled(s, step)
    ensures var t := Next(should, s, step);
            && (forall h :: h in s.hooks && step != LateJoin(h) ==>
                            h in t.hooks && t.hooks[h].saw == s.hooks[h].saw && t.hooks[h].missed == s.hooks[h].missed)
            && (forall p :: p in s.plugins && step != InvokeHooks(p) ==> p in t.plugins && t.plugins[p].found == s.plugins[p].found)
            && (forall p :: p in s.plugins && step != InvokeHooks(p) && step != Activate(p) ==> t.plugins[p] == s.plugins[p])
            && s.plugins.Keys <= t.plugins.Keys
  {
    HooksRemember(s, step);
  }

  lemma HooksRemember(s: State, step: Step)
    requires Enabled(s, step)
    ensures forall h :: h in s.hooks && step != LateJoin(h) ==>
              var hooks := NextHooks(s, step);
              h in hooks && hooks[h].saw == s.hooks[h].saw && hooks[h].missed == s.hooks[h].missed
  {
  }

  /** A load finds exactly the load hooks that have joined: before completion a hook adds itself and joins
      under the write lock. */
  lemma LoadFindsTheJoined(s: State, p: PluginId, h: HookId)
    requires ListInv(s) && PluginInv(s) && Enabled(s, InvokeHooks(p)) && h in s.hooks && s.hooks[h].kind == OnLoad
    ensures HasJoined(s.hooks[h]) <==> h in s.List(OnLoad)
  {
    assert HookInv(s, h);
    assert h in s.List(OnLoad) ==> Written(s, h, OnLoad);
  }

  lemma NextPair(should: Should, s: State, step: Step, h: HookId, p: PluginId)
    requires ListInv(s) && PluginInv(s) && MeetInv(s) && Enabled(s, step)
    requires h in s.hooks && s.hooks[h].kind == OnLoad && p in s.plugins
    requires h in Next(should, s, step).hooks && p in Next(should, s, step).plugins
    ensures PairInv(Next(should, s, step).hooks[h], h, Next(should, s, step).plugins[p], p)
  {
    Advances(should, s, step, h);
    assert PairInv(s.hooks[h], h, s.plugins[p], p);
    if step == InvokeHooks(p) {
      LoadFindsTheJoined(s, p, h);
    } else if step == LateJoin(h) {
    } else if step == Activate(p) {
    } else {
      Remembers(should, s, step);
    }
  }

  lemma NextMeetOne(should: Should, s: State, step: Step, h: HookId)
    requires ListInv(s) && PluginInv(s) && MeetInv(s) && Enabled(s, step) && h in Next(should, s, step).hooks
    ensures SawInv(Next(should, s, step), h)
  {
    if h in s.hooks {
      Advances(should, s, step, h);
      Remembers(should, s, step);
      assert SawInv(s, h);
    }
  }

  lemma NextFound(should: Should, s: State, step: Step, p: PluginId)
    requires ListInv(s) && MeetInv(s) && Enabled(s, step) && p in Next(should, s, step).plugins
    ensures FoundInv(Next(should, s, step), p)
  {
    var t := Next(should, s, step);
    Remembers(should, s, step);
    forall h | h in t.plugins[p].found ensures h in t.hooks && t.hooks[h].kind == OnLoad {
      if step == InvokeHooks(p) {
        assert Written(s, h, OnLoad);
      } else if p in s.plugins {
        assert FoundInv(s, p);
      }
      Advances(should, s, step, h);
    }
  }

  lemma NextMeet(should: Should, s: State, step: Step)
    requires ListInv(s) && PluginInv(s) && MeetInv(s) && Enabled(s, step)
    ensures MeetInv(Next(should, s, step))
  {
    var t := Next(should, s, step);
    forall h | h in t.hooks ensures SawInv(t, h) { NextMeetOne(should, s, step, h); }
    forall p | p in t.plugins ensures FoundInv(t, p) { NextFound(should, s, step, p); }
    forall h, p | h in t.hooks && p in t.plugins && t.hooks[h].kind == OnLoad
      ensures PairInv(t.hooks[h], h, t.plugins[p], p)
    {
      NextPairOrNew(should, s, step, h, p);
    }
  }

  lemma NextPairOrNew(should: Should, s: State, step: Step, h: HookId, p: PluginId)
    requires ListInv(s) && PluginInv(s) && MeetInv(s) && Enabled(s, step)
    requires h in Next(should, s, step).hooks && p in Next(should, s, step).plugins
    requires Next(should, s, step).hooks[h].kind == OnLoad
    ensures PairInv(Next(should, s, step).hooks[h], h, Next(should, s, step).plugins[p], p)
  {
    if h !in s.hooks {
      Newcomer(should, s, step, h);
      assert FoundInv(s, p);
    } else {
      Advances(should, s, step, h);
      if p in s.plugins {
        NextPair(should, s, step, h, p);
      } else {
        assert SawInv(s, h);
      }
    }
  }

  lemma LastCount<T>(s: seq<T>, x: T)
    requires s != []
    ensures multiset(s)[x] == multiset(s[..|s| - 1])[x] + Count(s[|s| - 1] == x)
  {
    assert s == s[..|s| - 1] + [s[|s| - 1]];
  }

  lemma MemberCount<T>(s: seq<T>, x: T)
    requires NoDup(s)
    ensures multiset(s)[x] == Count(x in s)
  {
    NoDupCount(s);
    assert x in s <==> x in multiset(s);
  }

  lemma {:induction false} InvokeEachCount(should: Should, hs: seq<HookId>, p: PluginId, h: HookId, q: PluginId)
    ensures multiset(InvokeEach(should, hs, p))[(h, q)] == if q == p && should(h, p) then multiset(hs)[h] else 0
  {
    if hs != [] {
      InvokeEachCount(should, hs[..|hs| - 1], p, h, q);
      LastCount(hs, h);
    }
  }

  lemma {:induction false} InvokeForCount(should: Should, h: HookId, ps: seq<PluginId>, k: HookId, q: PluginId)
    ensures multiset(InvokeFor(should, h, ps))[(k, q)] == if k == h && should(h, q) then multiset(ps)[q] else 0
  {
    if ps != [] {
      InvokeForCount(should, h, ps[..|ps| - 1], k, q);
      LastCount(ps, q);
    }
  }

  lemma {:induction false} NoticeEachCount(hs: seq<HookId>, n: nat, h: HookId, m: nat)
    ensures multiset(NoticeEach(hs, n))[(h, m)] == if m == n then multiset(hs)[h] else 0
  {
    if hs != [] {
      NoticeEachCount(hs[..|hs| - 1], n, h, m);
      LastCount(hs, h);
    }
  }

  /** A plugin still loading has found no hook. */
  lemma LoadingFoundNone(s: State, p: PluginId, h: HookId)
    requires MeetInv(s) && p in s.plugins && s.plugins[p].stage == Loading
    ensures h !in s.plugins[p].found
  {
    assert FoundInv(s, p);
    if h in s.hooks && s.hooks[h].kind == OnLoad { assert PairInv(s.hooks[h], h, s.plugins[p], p); }
  }

  lemma AppendCount<T>(s: seq<T>, t: seq<T>, x: T)
    ensures multiset(s + t)[x] == multiset(s)[x] + multiset(t)[x]
  {
  }

  lemma InvokeHooksCalls(should: Should, s: State, q: PluginId, h: HookId, p: PluginId)
    requires ListInv(s) && MeetInv(s) && CallsRight(should, s, h, p) && Enabled(s, InvokeHooks(q))
    ensures CallsRight(should, Next(should, s, InvokeHooks(q)), h, p)
  {
    var t := Next(should, s, InvokeHooks(q));
    AppendCount(s.calls, InvokeEach(should, s.loadHooks, q), (h, p));
    InvokeEachCount(should, s.loadHooks, q, h, p);
    LoadingFoundNone(s, q, h);
    assert ListOk(s, OnLoad);
    MemberCount(s.loadHooks, h);
    assert SawIt(t, h, p) == SawIt(s, h, p);
    assert p != q ==> FoundIt(t, h, p) == FoundIt(s, h, p);
  }

  lemma LateJoinCalls(should: Should, s: State, k: HookId, h: HookId, p: PluginId)
    requires PluginInv(s) && MeetInv(s) && CallsRight(should, s, h, p) && Enabled(s, LateJoin(k))
    ensures CallsRight(should, Next(should, s, LateJoin(k)), h, p)
  {
    var t := Next(should, s, LateJoin(k));
    if s.hooks[k].kind == OnLoad {
      AppendCount(s.calls, InvokeFor(should, k, s.activePlugins), (h, p));
      InvokeForCount(should, k, s.activePlugins, h, p);
      MemberCount(s.activePlugins, p);
    }
    LateJoinSees(should, s, k, h, p);
  }

  lemma LateJoinSees(should: Should, s: State, k: HookId, h: HookId, p: PluginId)
    requires MeetInv(s) && Enabled(s, LateJoin(k))
    ensures var t := Next(should, s, LateJoin(k));
            && FoundIt(t, h, p) == FoundIt(s, h, p) && !SawIt(s, k, p)
            && (h != k ==> SawIt(t, h, p) == SawIt(s, h, p))
            && (SawIt(t, k, p) <==> s.hooks[k].kind == OnLoad && p in s.activePlugins)
            && (s.hooks[k].kind != OnLoad ==> t.calls == s.calls)
  {
    assert SawInv(s, k);
  }

  lemma NextCallsOf(should: Should, s: State, step: Step, h: HookId, p: PluginId)
    requires ListInv(s) && PluginInv(s) && MeetInv(s) && CallsRight(should, s, h, p) && Enabled(s, step)
    ensures CallsRight(should, Next(should, s, step), h, p)
  {
    match step
    case InvokeHooks(q) => InvokeHooksCalls(should, s, q, h, p);
    case LateJoin(k) => LateJoinCalls(should, s, k, h, p);
    case _ => KnownKept(should, s, step, h, p);
  }

  lemma KnownKept(should: Should, s: State, step: Step, h: HookId, p: PluginId)
    requires Enabled(s, step) && !step.InvokeHooks? && !step.LateJoin?
    ensures SawIt(Next(should, s, step), h, p) == SawIt(s, h, p)
    ensures FoundIt(Next(should, s, step), h, p) == FoundIt(s, h, p)
    ensures Next(should, s, step).calls == s.calls
  {
  }

  /** A completion hook that joined before completion was on the list Complete goes through. */
  lemma NextCompletionHook(should: Should, s: State, step: Step, h: HookId)
    requires ListInv(s) && NoticeInv(s) && Enabled(s, step) && h in Next(should, s, step).hooks
    ensures CompletionHookInv(Next(should, s, step), h)
  {
    if h !in s.hooks {
      Newcomer(should, s, step, h);
    } else {
      Advances(should, s, step, h);
      assert CompletionHookInv(s, h) && HookInv(s, h);
      if step.NotifyCompleted? && h in s.List(OnCompleted) { assert Written(s, h, OnCompleted); }
    }
  }

  lemma CompleteNotices(should: Should, s: State, h: HookId, n: nat)
    requires ListInv(s) && NoticeInv(s) && Enabled(s, NotifyCompleted)
    ensures NoticesRight(Next(should, s, NotifyCompleted), h, n)
  {
    assert NoticesRight(s, h, n);
    AppendCount(s.notices, NoticeEach(s.completedHooks, |s.activePlugins|), (h, n));
    NoticeEachCount(s.completedHooks, |s.activePlugins|, h, n);
    assert ListOk(s, OnCompleted);
    assert h in s.List(OnCompleted) ==> Written(s, h, OnCompleted);
    MemberCount(s.completedHooks, h);
    if h in s.hooks { assert CompletionHookInv(s, h); }
  }

  /** What a late join does to the notices and to the hooks' marks. */
  lemma LateJoinMarks(should: Should, s: State, k: HookId, h: HookId)
    requires Enabled(s, LateJoin(k))
    ensures var t := Next(should, s, LateJoin(k));
            var told := s.hooks[k].kind == OnCompleted && s.Completed();
            && (h in t.hooks <==> h in s.hooks) && t.activePlugins == s.activePlugins
            && t.notices == (if told then s.notices + [(k, |s.activePlugins|)] else s.notices)
            && (h in s.hooks ==> t.hooks[h].seen == s.hooks[h].seen)
            && (h in s.hooks && h != k ==> t.hooks[h].late == s.hooks[h].late)
            && (s.hooks[k].late || t.hooks[k].late == told)
  {
    var t := Next(should, s, LateJoin(k));
    assert t.notices == s.notices + (if s.hooks[k].kind == OnCompleted && s.Completed() then [(k, |s.activePlugins|)] else []);
  }

  lemma LateJoinNotices(should: Should, s: State, k: HookId, h: HookId, n: nat)
    requires NoticeInv(s) && Enabled(s, LateJoin(k))
    ensures NoticesRight(Next(should, s, LateJoin(k)), h, n)
  {
    assert NoticesRight(s, h, n) && CompletionHookInv(s, k);
    LateJoinMarks(should, s, k, h);
    AppendCount(s.notices, [(k, |s.activePlugins|)], (h, n));
    assert multiset([(k, |s.activePlugins|)])[(h, n)] == Count(h == k && n == |s.activePlugins|);
  }

  /** Other steps leave the notices alone; the plugin count they carry is final once there are any. */
  lemma QuietNotices(should: Should, s: State, step: Step, h: HookId, n: nat)
    requires PluginInv(s) && NoticeInv(s) && Enabled(s, step) && !step.NotifyCompleted? && !step.LateJoin?
    ensures NoticesRight(Next(should, s, step), h, n)
  {
    assert NoticesRight(s, h, n);
    if h in s.hooks { assert CompletionHookInv(s, h); }
    QuietMarks(should, s, step, h);
    assert step.Activate? ==> !s.Completed();
  }

  lemma QuietMarks(should: Should, s: State, step: Step, h: HookId)
    requires Enabled(s, step) && !step.NotifyCompleted? && !step.LateJoin?
    ensures var t := Next(should, s, step);
            && t.notices == s.notices
            && (h in s.hooks ==> h in t.hooks && t.hooks[h].late == s.hooks[h].late && t.hooks[h].seen == s.hooks[h].seen)
            && (h in t.hooks && h !in s.hooks ==> !t.hooks[h].late && !t.hooks[h].seen)
            && (t.activePlugins == s.activePlugins || step.Activate?)
  {
  }

  lemma NextNoticesOf(should: Should, s: State, step: Step, h: HookId, n: nat)
    requires ListInv(s) && PluginInv(s) && NoticeInv(s) && Enabled(s, step)
    ensures NoticesRight(Next(should, s, step), h, n)
  {
    match step
    case NotifyCompleted => CompleteNotices(should, s, h, n);
    case LateJoin(k) => LateJoinNotices(should, s, k, h, n);
    case _ => QuietNotices(should, s, step, h, n);
  }

  lemma NextNotices(should: Should, s: State, step: Step)
    requires ListInv(s) && PluginInv(s) && NoticeInv(s) && Enabled(s, step)
    ensures NoticeInv(Next(should, s, step))
  {
    var t := Next(should, s, step);
    forall h | h in t.hooks ensures CompletionHookInv(t, h) { NextCompletionHook(should, s, step, h); }
    forall h, n ensures NoticesRight(t, h, n) { NextNoticesOf(should, s, step, h, n); }
  }

  lemma NextKeepsInv(should: Should, s: State, step: Step)
    requires Inv(should, s) && Enabled(s, step)
    ensures Inv(should, Next(should, s, step))
  {
    var t := Next(should, s, step);
    NextLists(should, s, step);
    NextPlugin(should, s, step);
    NextMeet(should, s, step);
    forall h, p ensures CallsRight(should, t, h, p) {
      assert CallsRight(should, s, h, p);
      NextCallsOf(should, s, step, h, p);
    }
    NextNotices(should, s, step);
  }

  lemma {:induction false} RunInv(should: Should, steps: seq<Step>, run: seq<State>, i: nat)
    requires IsRun(should, steps, run) && i < |run|
    ensures Inv(should, run[i])
  {
    if i > 0 {
      RunInv(should, steps, run, i - 1);
      NextKeepsInv(should, run[i - 1], steps[i - 1]);
    }
  }

  // ------------------------------------------------- theorems about runs

  /** The times load hook h was invoked for plugin p. */
  ghost function Invocations(s: State, h: HookId, p: PluginId): nat {
    multiset(s.calls)[(h, p)]
  }

  /** The times completion hook h was invoked, with whatever plugin count. */
  ghost function Notifications(s: State, h: HookId): nat {
    |Of(s.notices, h)|
  }

  function Of(ns: seq<(HookId, nat)>, h: HookId): seq<(HookId, nat)> {
    if ns == [] then []
    else Of(ns[..|ns| - 1], h) + if ns[|ns| - 1].0 == h then [ns[|ns| - 1]] else []
  }

  /** In every run a load hook is invoked at most once for a plugin, and never for one it does not want. */
  lemma LoadHookAtMostOnce(should: Should, steps: seq<Step>, run: seq<State>, i: nat, h: HookId, p: PluginId)
    requires IsRun(should, steps, run) && i < |run|
    ensures Invocations(run[i], h, p) <= 1
    ensures Invocations(run[i], h, p) == 1 ==> should(h, p)
  {
    var s := run[i];
    RunInv(should, steps, run, i);
    assert CallsRight(should, s, h, p);
    if h in s.hooks { assert SawInv(s, h); }
    if p in s.plugins { assert FoundInv(s, p); }
    if h in s.hooks && p in s.plugins && s.hooks[h].kind == OnLoad { assert PairInv(s.hooks[h], h, s.plugins[p], p); }
  }

  /** Once Hook has returned and the plugin is active, the hook was invoked exactly once, unless Hook joined
      while LoadOne was between its look at the hooks and the plugin becoming active; then never. */
  lemma LoadHookExactlyOnceUnlessInGap(should: Should, steps: seq<Step>, run: seq<State>, i: nat, h: HookId, p: PluginId)
    requires IsRun(should, steps, run) && i < |run|
    requires At(run[i], h, Finished) && run[i].hooks[h].kind == OnLoad
    requires p in run[i].plugins && run[i].plugins[p].stage == Active && should(h, p)
    ensures Invocations(run[i], h, p) == if JoinedInGap(steps, run, i, h, p) then 0 else 1
  {
    var s := run[i];
    MissedMeansGap(should, steps, run, i, h, p);
    RunInv(should, steps, run, i);
    assert CallsRight(should, s, h, p) && PairInv(s.hooks[h], h, s.plugins[p], p);
  }

  /** The hook's late join happened, in this run, while the plugin was in the gap. */
  ghost predicate JoinedInGap(steps: seq<Step>, run: seq<State>, i: nat, h: HookId, p: PluginId)
    requires |run| == |steps| + 1 && i < |run|
  {
    exists j :: 0 <= j < i && steps[j] == LateJoin(h) && p in InGap(run[j])
  }

  lemma MissedChanges(should: Should, s: State, step: Step, h: HookId, p: PluginId)
    requires Enabled(s, step) && h in s.hooks && SawInv(s, h) && s.hooks[h].kind == OnLoad
    ensures var t := Next(should, s, step);
            && h in t.hooks && t.hooks[h].kind == OnLoad
            && (p in t.hooks[h].missed <==> p in s.hooks[h].missed || (step == LateJoin(h) && p in InGap(s)))
  {
  }

  lemma {:induction false} MissedMeansGap(should: Should, steps: seq<Step>, run: seq<State>, i: nat, h: HookId, p: PluginId)
    requires IsRun(should, steps, run) && i < |run|
    requires h in run[i].hooks && run[i].hooks[h].kind == OnLoad
    ensures p in run[i].hooks[h].missed <==> JoinedInGap(steps, run, i, h, p)
  {
    if i > 0 {
      GapGrows(steps, run, i, h, p);
      if h in run[i - 1].hooks {
        JoinedHookInv(should, steps, run, i - 1, h);
        Advances(should, run[i - 1], steps[i - 1], h);
        MissedMeansGap(should, steps, run, i - 1, h, p);
        MissedChanges(should, run[i - 1], steps[i - 1], h, p);
      } else {
        NoJoinBefore(should, steps, run, i - 1, h);
        assert run[i].hooks[h].missed == {};
      }
    }
  }

  lemma JoinedHookInv(should: Should, steps: seq<Step>, run: seq<State>, i: nat, h: HookId)
    requires IsRun(should, steps, run) && i < |run| && h in run[i].hooks
    ensures SawInv(run[i], h)
  {
    RunInv(should, steps, run, i);
  }

  lemma GapGrows(steps: seq<Step>, run: seq<State>, i: nat, h: HookId, p: PluginId)
    requires |run| == |steps| + 1 && 0 < i < |run|
    ensures JoinedInGap(steps, run, i, h, p) <==>
            JoinedInGap(steps, run, i - 1, h, p) || (steps[i - 1] == LateJoin(h) && p in InGap(run[i - 1]))
  {
  }

  /** A hook joins only after it exists, and never stops existing. */
  lemma {:induction false} NoJoinBefore(should: Should, steps: seq<Step>, run: seq<State>, i: nat, h: HookId)
    requires IsRun(should, steps, run) && i < |run| && h !in run[i].hooks
    ensures forall j :: 0 <= j < i ==> steps[j] != LateJoin(h)
  {
    if i > 0 {
      if h in run[i - 1].hooks { Advances(should, run[i - 1], steps[i - 1], h); }
      NoJoinBefore(should, steps, run, i - 1, h);
    }
  }

  lemma {:induction false} OfCount(ns: seq<(HookId, nat)>, h: HookId, n: nat)
    requires forall m :: (h, m) in ns ==> m == n
    ensures |Of(ns, h)| == multiset(ns)[(h, n)]
  {
    if ns != [] {
      OfCount(ns[..|ns| - 1], h, n);
      LastCount(ns, (h, n));
      var last := ns[|ns| - 1];
      assert last == (last.0, last.1) && last in ns;
    }
  }

  /** A completion hook is invoked at most twice in any run, only after completion and always with the number
      of all plugins; once Hook and Complete have both returned it was invoked at least once. */
  lemma CompletionHookOnceOrTwice(should: Should, steps: seq<Step>, run: seq<State>, i: nat, h: HookId)
    requires IsRun(should, steps, run) && i < |run|
    ensures Notifications(run[i], h) <= 2
    ensures forall n :: (h, n) in run[i].notices ==> run[i].Completed() && n == |run[i].activePlugins|
    ensures At(run[i], h, Finished) && run[i].hooks[h].kind == OnCompleted && run[i].completion == Notified ==>
              Notifications(run[i], h) >= 1
  {
    var s := run[i];
    RunInv(should, steps, run, i);
    forall n | (h, n) in s.notices ensures n == |s.activePlugins| {
      assert NoticesRight(s, h, n) && (h, n) in multiset(s.notices);
    }
    OfCount(s.notices, h, |s.activePlugins|);
    assert NoticesRight(s, h, |s.activePlugins|);
    if h in s.hooks { assert CompletionHookInv(s, h); }
  }

  // ------------------------------------------------- the gap is real

  function Joining(pc: Pc, missed: set<PluginId>): Hook {
    Hook(OnLoad, pc, Write, [], {}, missed, false, false)
  }

  function During(hook: Hook, list: seq<HookId>): State {
    State(map[0 := hook], map[0 := Plugin(Invoked, {})], list, [], [], NotStarted, [], [])
  }

  function Loaded(stage: Stage): State {
    State(map[], map[0 := Plugin(stage, {})], [], [], [], NotStarted, [], [])
  }

  function Over(): State {
    State(map[0 := Joining(Finished, {0})], map[0 := Plugin(Active, {})], [0], [], [0], NotStarted, [], [])
  }

  ghost predicate Reachable(should: Should, s: State) {
    exists steps, run :: IsRun(should, steps, run) && run[|run| - 1] == s
  }

  lemma ReachNext(should: Should, s: State, step: Step, t: State)
    requires Reachable(should, s) && Enabled(s, step) && t == Next(should, s, step)
    ensures Reachable(should, t)
  {
    var steps, run :| IsRun(should, steps, run) && run[|run| - 1] == s;
    var steps', run' := steps + [step], run + [t];
    forall i | 0 <= i < |steps'| ensures Enabled(run'[i], steps'[i]) && run'[i + 1] == Next(should, run'[i], steps'[i]) {
      if i < |steps| { assert run'[i] == run[i] && run'[i + 1] == run[i + 1] && steps'[i] == steps[i]; }
    }
    assert IsRun(should, steps', run') && run'[|run'| - 1] == t;
  }

  lemma GapOpens(should: Should)
    ensures Reachable(should, Loaded(Invoked))
  {
    assert IsRun(should, [], [Init()]) && Reachable(should, [Init()][0]);
    ReachNext(should, Init(), NewPlugin(0), Loaded(Loading));
    assert Elems(Loaded(Loading).loadHooks) == {};
    ReachNext(should, Loaded(Loading), InvokeHooks(0), Loaded(Invoked));
  }

  lemma HookStarts(should: Should)
    ensures Reachable(should, During(Joining(Wanting, {}), []))
  {
    GapOpens(should);
    ReachNext(should, Loaded(Invoked), NewHook(0, OnLoad), During(Joining(Start, {}), []));
    ReachNext(should, During(Joining(Start, {}), []), ReadFlag(0), During(Joining(Wanting, {}), []));
  }

  lemma HookLocks(should: Should)
    ensures Reachable(should, During(Joining(Copied, {}), []))
  {
    HookStarts(should);
    ReachNext(should, During(Joining(Wanting, {}), []), AcquireLock(0), During(Joining(Holding, {}), []));
    ReachNext(should, During(Joining(Holding, {}), []), CopyList(0), During(Joining(Copied, {}), []));
  }

  lemma HookJoins(should: Should)
    ensures Reachable(should, During(Joining(Joined, {0}), [0]))
  {
    HookLocks(should);
    ReachNext(should, During(Joining(Copied, {}), []), WriteList(0), During(Joining(Appended, {}), [0]));
    var s := During(Joining(Appended, {}), [0]);
    assert Elems(s.activePlugins) == {} && InGap(s) == {0};
    ReachNext(should, s, LateJoin(0), During(Joining(Joined, {0}), [0]));
  }

  /** A hook added while a plugin is between its look at the hooks and becoming active is never invoked for it. */
  lemma GapHappens(should: Should)
    requires should(0, 0)
    ensures Reachable(should, Over())
    ensures At(Over(), 0, Finished) && Over().activePlugins == [0] && Invocations(Over(), 0, 0) == 0
  {
    HookJoins(should);
    ReachNext(should, During(Joining(Joined, {0}), [0]), ReleaseLock(0), During(Joining(Finished, {0}), [0]));
    ReachNext(should, During(Joining(Finished, {0}), [0]), Activate(0), Over());
  }
}
