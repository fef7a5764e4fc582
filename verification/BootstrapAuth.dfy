/** Any number of concurrent Auth calls on one bootstrap server (pkg/bootstrap/server_v2.go), as a machine
    whose steps are the calls' storage operations. */
module BootstrapAuth {
  import opened Common
  import opened KeyAgreement

  type CallId = nat
  type ClientId = Bytes
  type TokenId = Bytes

  /** `token` is the token in the verified payload, or none if the signature does not verify; `valid` says
      whether the request passes validation. */
  datatype Request = Request(client: ClientId, public: Bytes, token: Option<TokenId>, valid: bool)

  datatype Code = PermissionDenied | InvalidArgument | AlreadyExists | Unavailable | Internal

  /** Success, an error before the cluster was created, or an error of the two writes after it. */
  datatype Result = Success(server: KeyPair) | Refused(code: Code) | Uncounted | Unstored

  datatype Pc = Arrived | Waiting | Locked | Absent | Derived(server: KeyPair) | Created(server: KeyPair)
              | Counted(server: KeyPair) | Done(result: Result)

  datatype Call = Call(req: Request, pc: Pc)

  /** `existing` are the clusters there before; `clusters` those created since, with the token used. */
  datatype State = State(
    calls: map<CallId, Call>,
    existing: set<ClientId>,
    clusters: map<ClientId, TokenId>,
    usage: map<TokenId, nat>,
    keyrings: map<ClientId, Bytes>)

  datatype Step =
    | Arrive(c: CallId, req: Request)
    | CheckToken(c: CallId)
    | Lock(c: CallId)
    | LookUp(c: CallId)
    | Derive(c: CallId, private: Bytes)
    | Create(c: CallId)
    | Count(c: CallId)
    | Store(c: CallId)
    | StorageError(c: CallId)     // the storage operation the call is at fails, without effect

  predicate Holds(pc: Pc) {
    pc.Locked? || pc.Absent? || pc.Derived? || pc.Created? || pc.Counted?
  }

  predicate At(s: State, c: CallId) {
    c in s.calls && !s.calls[c].pc.Done?
  }

  predicate Exists(s: State, client: ClientId) {
    client in s.existing || client in s.clusters
  }

  predicate Enabled(crypto: Crypto, s: State, step: Step) {
    match step
    case Arrive(c, _) => c !in s.calls
    case CheckToken(c) => At(s, c) && s.calls[c].pc.Arrived?
    case Lock(c) => At(s, c) && s.calls[c].pc.Waiting? && LockFree(s, s.calls[c].req.client)
    case LookUp(c) => At(s, c) && s.calls[c].pc.Locked?
    case Derive(c, private) => At(s, c) && s.calls[c].pc.Absent? && crypto.KeyPairOf(private).Some?
    case Create(c) => At(s, c) && s.calls[c].pc.Derived? && s.calls[c].req.token.Some?
    case Count(c) => At(s, c) && s.calls[c].pc.Created? && s.calls[c].req.token.Some? && s.calls[c].req.token.value in s.usage
    case Store(c) => At(s, c) && s.calls[c].pc.Counted? && Secret(crypto, s.calls[c].pc.server, s.calls[c].req).Some?
    case StorageError(c) => At(s, c) && !s.calls[c].pc.Absent? && !s.calls[c].pc.Waiting? && s.calls[c].req.token.Some?
  }

  predicate LockFree(s: State, client: ClientId) {
    forall c :: c in s.calls && Holds(s.calls[c].pc) ==> s.calls[c].req.client != client
  }

  function Secret(crypto: Crypto, server: KeyPair, req: Request): Option<Bytes> {
    DeriveSharedSecret(crypto, server, PeerKey(req.public, CLIENT))
  }

  function NextPc(crypto: Crypto, s: State, step: Step): Pc
    requires Enabled(crypto, s, step)
  {
    if step.Arrive? then Arrived
    else
      var req, pc := s.calls[step.c].req, s.calls[step.c].pc;
      match step
      case CheckToken(_) =>
        if req.token.None? || req.token.value !in s.usage then Done(Refused(PermissionDenied))
        else if !req.valid then Done(Refused(InvalidArgument))
        else Waiting
      case Lock(_) => Locked
      case LookUp(_) => if Exists(s, req.client) then Done(Refused(AlreadyExists)) else Absent
      case Derive(_, private) =>
        var server := crypto.KeyPairOf(private).value;
        if Secret(crypto, server, req).None? then Done(Refused(InvalidArgument)) else Derived(server)
      case Create(_) => Created(pc.server)
      case Count(_) => Counted(pc.server)
      case Store(_) => Done(Success(pc.server))
      case StorageError(_) =>
        if pc.Created? then Done(Uncounted) else if pc.Counted? then Done(Unstored) else Done(Refused(if pc.Derived? then Internal else Unavailable))
  }

  function NextCall(crypto: Crypto, s: State, step: Step): Call
    requires Enabled(crypto, s, step)
  {
    Call(if step.Arrive? then step.req else s.calls[step.c].req, NextPc(crypto, s, step))
  }

  function NextClusters(crypto: Crypto, s: State, step: Step): map<ClientId, TokenId>
    requires Enabled(crypto, s, step)
  {
    if step.Create? then s.clusters[s.calls[step.c].req.client := s.calls[step.c].req.token.value] else s.clusters
  }

  function NextUsage(crypto: Crypto, s: State, step: Step): map<TokenId, nat>
    requires Enabled(crypto, s, step)
  {
    if step.Count? then
      var token := s.calls[step.c].req.token.value;
      s.usage[token := s.usage[token] + 1]
    else s.usage
  }

  function NextKeyrings(crypto: Crypto, s: State, step: Step): map<ClientId, Bytes>
    requires Enabled(crypto, s, step)
  {
    if step.Store? then
      var req := s.calls[step.c].req;
      s.keyrings[req.client := Secret(crypto, s.calls[step.c].pc.server, req).value]
    else s.keyrings
  }

  function Next(crypto: Crypto, s: State, step: Step): State
    requires Enabled(crypto, s, step)
  {
    State(s.calls[step.c := NextCall(crypto, s, step)], s.existing, NextClusters(crypto, s, step),
          NextUsage(crypto, s, step), NextKeyrings(crypto, s, step))
  }

  /** Runs start with no call in progress, any clusters and keyrings, and any tokens with any usage. */
  ghost predicate IsRun(crypto: Crypto, steps: seq<Step>, run: seq<State>) {
    && |run| == |steps| + 1 && run[0].calls == map[] && run[0].clusters == map[]
    && forall i :: 0 <= i < |steps| ==> Enabled(crypto, run[i], steps[i]) && run[i + 1] == Next(crypto, run[i], steps[i])
  }

  // ------------------------------------------------- the invariant

  /** The call has created its cluster. */
  predicate Made(pc: Pc) {
    pc.Created? || pc.Counted? || (pc.Done? && !pc.result.Refused?)
  }

  /** Calls that hold the lock or have created the cluster of one client are one call. */
  predicate Apart(x: Call, y: Call) {
    x.req.client == y.req.client ==> !(Holds(x.pc) && Holds(y.pc)) && !(Made(x.pc) && Made(y.pc))
  }

  ghost predicate CallInv(crypto: Crypto, s: State, c: CallId)
    requires c in s.calls
  {
    var req, pc := s.calls[c].req, s.calls[c].pc;
    && (!pc.Arrived? && !pc.Done? ==> req.token.Some?)
    && (pc.Absent? || pc.Derived? ==> !Exists(s, req.client))
    && (Made(pc) ==> req.token.Some? && req.client in s.clusters && s.clusters[req.client] == req.token.value
                     && req.client !in s.existing)
    && (pc.Derived? || pc.Created? || pc.Counted? ==> KeysOf(crypto, pc.server, req))
    && (pc.Done? && pc.result.Success? ==>
          KeysOf(crypto, pc.result.server, req) && req.client in s.keyrings
          && Secret(crypto, pc.result.server, req) == Some(s.keyrings[req.client]))
  }

  predicate KeysOf(crypto: Crypto, server: KeyPair, req: Request) {
    crypto.KeyPairOf(server.private) == Some(server) && Secret(crypto, server, req).Some?
  }

  ghost predicate Inv(crypto: Crypto, s: State) {
    && (forall c :: c in s.calls ==> CallInv(crypto, s, c))
    && (forall c, d :: c in s.calls && d in s.calls && c != d ==> Apart(s.calls[c], s.calls[d]))
  }

  lemma NextApart(crypto: Crypto, s: State, step: Step, d: CallId)
    requires Inv(crypto, s) && Enabled(crypto, s, step) && d in s.calls && d != step.c
    ensures Apart(NextCall(crypto, s, step), s.calls[d])
  {
    assert CallInv(crypto, s, d);
    if !step.Arrive? { assert CallInv(crypto, s, step.c) && Apart(s.calls[step.c], s.calls[d]); }
  }

  lemma NextOwn(crypto: Crypto, s: State, step: Step)
    requires Inv(crypto, s) && Enabled(crypto, s, step)
    ensures CallInv(crypto, Next(crypto, s, step), step.c)
  {
    if !step.Arrive? { assert CallInv(crypto, s, step.c); }
  }

  lemma NextOther(crypto: Crypto, s: State, step: Step, d: CallId)
    requires Inv(crypto, s) && Enabled(crypto, s, step) && d in s.calls && d != step.c
    ensures CallInv(crypto, Next(crypto, s, step), d)
  {
    assert CallInv(crypto, s, d);
    if step.Create? || step.Store? { assert CallInv(crypto, s, step.c) && Apart(s.calls[step.c], s.calls[d]); }
  }

  lemma NextKeepsInv(crypto: Crypto, s: State, step: Step)
    requires Inv(crypto, s) && Enabled(crypto, s, step)
    ensures Inv(crypto, Next(crypto, s, step))
  {
    var t := Next(crypto, s, step);
    forall c | c in t.calls ensures CallInv(crypto, t, c) {
      if c == step.c { NextOwn(crypto, s, step); } else { NextOther(crypto, s, step, c); }
    }
    forall c, d | c in t.calls && d in t.calls && c != d ensures Apart(t.calls[c], t.calls[d]) {
      if c == step.c { NextApart(crypto, s, step, d); }
      else if d == step.c { NextApart(crypto, s, step, c); }
      else { assert Apart(s.calls[c], s.calls[d]); }
    }
  }

  lemma {:induction false} RunInv(crypto: Crypto, steps: seq<Step>, run: seq<State>, i: nat)
    requires IsRun(crypto, steps, run) && i < |run|
    ensures Inv(crypto, run[i])
  {
    if i > 0 {
      RunInv(crypto, steps, run, i - 1);
      NextKeepsInv(crypto, run[i - 1], steps[i - 1]);
    }
  }

  // ------------------------------------------------- the usage counts

  function CreatedWith(s: State, t: TokenId): set<ClientId> {
    set client | client in s.clusters && s.clusters[client] == t
  }

  predicate Owes(call: Call, t: TokenId) {
    call.req.token == Some(t) && (call.pc.Created? || call.pc == Done(Uncounted))
  }

  /** Calls that created a cluster with the token and did not increment its usage count, or not yet. */
  function Owing(s: State, t: TokenId): set<CallId> {
    set c | c in s.calls && Owes(s.calls[c], t)
  }

  function Balance(s: State, t: TokenId): int
    requires t in s.usage
  {
    s.usage[t] + |Owing(s, t)| - |CreatedWith(s, t)|
  }

  lemma OwingChanges(crypto: Crypto, s: State, step: Step, t: TokenId)
    requires Enabled(crypto, s, step)
    ensures var after := Next(crypto, s, step);
            Owing(after, t) ==
            if Owes(NextCall(crypto, s, step), t) then Owing(s, t) + {step.c} else Owing(s, t) - {step.c}
  {
  }

  lemma CreatedChanges(crypto: Crypto, s: State, step: Step, t: TokenId)
    requires Inv(crypto, s) && Enabled(crypto, s, step)
    ensures var after := Next(crypto, s, step);
            && (step.Create? ==> s.calls[step.c].req.client !in CreatedWith(s, t))
            && CreatedWith(after, t) ==
               if step.Create? && s.calls[step.c].req.token == Some(t) then CreatedWith(s, t) + {s.calls[step.c].req.client}
               else CreatedWith(s, t)
  {
    if step.Create? { assert CallInv(crypto, s, step.c); }
  }

  lemma BalanceKept(crypto: Crypto, s: State, step: Step, t: TokenId)
    requires Inv(crypto, s) && Enabled(crypto, s, step) && t in s.usage
    ensures t in Next(crypto, s, step).usage && Balance(Next(crypto, s, step), t) == Balance(s, t)
  {
    OwingChanges(crypto, s, step, t);
    CreatedChanges(crypto, s, step, t);
    OwesChanges(crypto, s, step, t);
  }

  /** A call comes to owe an increment by creating a cluster, and no longer does once it has counted it. */
  lemma OwesChanges(crypto: Crypto, s: State, step: Step, t: TokenId)
    requires Enabled(crypto, s, step)
    ensures var owed, owes := step.c in Owing(s, t), Owes(NextCall(crypto, s, step), t);
            var mine := !step.Arrive? && s.calls[step.c].req.token == Some(t);
            && (step.Create? ==> !owed && owes == mine)
            && (step.Count? ==> owed == mine && !owes)
            && (!step.Create? && !step.Count? ==> owed == owes)
  {
    if !step.Arrive? { assert step.c in Owing(s, t) <==> Owes(s.calls[step.c], t); }
  }

  // ------------------------------------------------- theorems about runs

  predicate Succeeded(s: State, c: CallId) {
    c in s.calls && s.calls[c].pc.Done? && s.calls[c].pc.result.Success?
  }

  /** In every run at most one call per client id succeeds, and only for a client without a cluster before. */
  lemma OneSuccessPerClient(crypto: Crypto, steps: seq<Step>, run: seq<State>, i: nat, c: CallId, d: CallId)
    requires IsRun(crypto, steps, run) && i < |run| && Succeeded(run[i], c) && Succeeded(run[i], d)
    requires run[i].calls[c].req.client == run[i].calls[d].req.client
    ensures c == d && run[i].calls[c].req.client !in run[0].existing
  {
    RunInv(crypto, steps, run, i);
    ExistingKept(crypto, steps, run, i);
    assert CallInv(crypto, run[i], c);
    assert c != d ==> Apart(run[i].calls[c], run[i].calls[d]);
  }

  lemma {:induction false} ExistingKept(crypto: Crypto, steps: seq<Step>, run: seq<State>, i: nat)
    requires IsRun(crypto, steps, run) && i < |run|
    ensures run[i].existing == run[0].existing
  {
    if i > 0 { ExistingKept(crypto, steps, run, i - 1); }
  }

  /** Every cluster created was created by some call, which is past that point. */
  lemma {:induction false} ClusterHasMaker(crypto: Crypto, steps: seq<Step>, run: seq<State>, i: nat, client: ClientId)
    returns (c: CallId)
    requires IsRun(crypto, steps, run) && i < |run| && client in run[i].clusters
    ensures c in run[i].calls && run[i].calls[c].req.client == client && Made(run[i].calls[c].pc)
  {
    if client in run[i - 1].clusters {
      c := ClusterHasMaker(crypto, steps, run, i - 1, client);
    } else {
      c := steps[i - 1].c;
    }
  }

  /** Without storage errors, once no call is in progress, a client has a new cluster exactly if one of its
      calls succeeded. */
  lemma ClusterIffSuccess(crypto: Crypto, steps: seq<Step>, run: seq<State>, i: nat, client: ClientId)
    requires IsRun(crypto, steps, run) && i < |run|
    requires forall k :: 0 <= k < i ==> !steps[k].StorageError?
    requires forall c :: c in run[i].calls ==> run[i].calls[c].pc.Done?
    ensures client in run[i].clusters <==> exists c :: Succeeded(run[i], c) && run[i].calls[c].req.client == client
  {
    RunInv(crypto, steps, run, i);
    if client in run[i].clusters {
      var c := ClusterHasMaker(crypto, steps, run, i, client);
      NoneUncounted(crypto, steps, run, i, c);
      assert Succeeded(run[i], c);
    }
    forall c | Succeeded(run[i], c) ensures run[i].calls[c].req.client in run[i].clusters {
      assert CallInv(crypto, run[i], c);
    }
  }

  /** Whoever holds the private key of a successful request derives, from the response, exactly the secret of
      the keyring the server stores, now and ever after. */
  lemma KeyringAgreed(crypto: Crypto, steps: seq<Step>, run: seq<State>, i: nat, c: CallId, client: KeyPair)
    requires crypto.Commutes() && IsRun(crypto, steps, run) && i < |run| && Succeeded(run[i], c)
    requires crypto.KeyPairOf(client.private) == Some(client) && run[i].calls[c].req.public == client.public
    ensures run[i].calls[c].req.client in run[i].keyrings
    ensures DeriveSharedSecret(crypto, client, PeerKey(run[i].calls[c].pc.result.server.public, SERVER))
            == Some(run[i].keyrings[run[i].calls[c].req.client])
  {
    RunInv(crypto, steps, run, i);
    assert CallInv(crypto, run[i], c);
    SecretAgreed(crypto, client, run[i].calls[c].pc.result.server);
  }

  /** A successful call stays so, with the same response. */
  lemma {:induction false} SuccessStays(crypto: Crypto, steps: seq<Step>, run: seq<State>, i: nat, j: nat, c: CallId)
    requires IsRun(crypto, steps, run) && i <= j < |run| && Succeeded(run[i], c)
    ensures Succeeded(run[j], c) && run[j].calls[c] == run[i].calls[c]
    ensures run[j].calls[c].req.client in run[j].keyrings && run[i].calls[c].req.client in run[i].keyrings
    ensures run[j].keyrings[run[j].calls[c].req.client] == run[i].keyrings[run[i].calls[c].req.client]
  {
    RunInv(crypto, steps, run, i);
    RunInv(crypto, steps, run, j);
    assert CallInv(crypto, run[i], c);
    if i < j { SuccessStays(crypto, steps, run, i, j - 1, c); }
    assert CallInv(crypto, run[j], c);
  }

  /** Each token's usage count has grown by the clusters created with it, less the calls that created one and
      are yet to increment the count or failed to. */
  lemma {:induction false} UsageAccountedFor(crypto: Crypto, steps: seq<Step>, run: seq<State>, i: nat, t: TokenId)
    requires IsRun(crypto, steps, run) && i < |run| && t in run[0].usage
    ensures t in run[i].usage
    ensures run[i].usage[t] + |Owing(run[i], t)| == run[0].usage[t] + |CreatedWith(run[i], t)|
  {
    if i > 0 {
      UsageAccountedFor(crypto, steps, run, i - 1, t);
      RunInv(crypto, steps, run, i - 1);
      BalanceKept(crypto, run[i - 1], steps[i - 1], t);
    } else {
      assert Owing(run[0], t) == {} && CreatedWith(run[0], t) == {};
    }
  }

  lemma {:induction false} NoneUncounted(crypto: Crypto, steps: seq<Step>, run: seq<State>, i: nat, c: CallId)
    requires IsRun(crypto, steps, run) && i < |run| && c in run[i].calls
    requires forall k :: 0 <= k < i ==> !steps[k].StorageError?
    ensures run[i].calls[c].pc != Done(Uncounted) && run[i].calls[c].pc != Done(Unstored)
  {
    if i > 0 && c in run[i - 1].calls { NoneUncounted(crypto, steps, run, i - 1, c); }
  }

  /** Without storage errors the count is exact whenever no call is in progress. */
  lemma UsageExactWhenQuiet(crypto: Crypto, steps: seq<Step>, run: seq<State>, i: nat, t: TokenId)
    requires IsRun(crypto, steps, run) && i < |run| && t in run[0].usage
    requires forall k :: 0 <= k < i ==> !steps[k].StorageError?
    requires forall c :: c in run[i].calls ==> run[i].calls[c].pc.Done?
    ensures t in run[i].usage && run[i].usage[t] == run[0].usage[t] + |CreatedWith(run[i], t)|
  {
    UsageAccountedFor(crypto, steps, run, i, t);
    forall c | c in run[i].calls ensures !Owes(run[i].calls[c], t) { NoneUncounted(crypto, steps, run, i, c); }
    assert Owing(run[i], t) == {};
  }

  // ------------------------------------------------- only with a token

  /** The request's token is one of the server's and the request passes validation. */
  predicate Admitted(s: State, req: Request) {
    req.token.Some? && req.token.value in s.usage && req.valid
  }

  /** A call that has got further than the check of its token, or succeeded, was admitted; one without a known token
      ends with PermissionDenied, an invalid one with InvalidArgument, unless the storage fails. */
  predicate CheckedCall(s: State, call: Call) {
    && (!call.pc.Arrived? && !(call.pc.Done? && call.pc.result.Refused?) ==> Admitted(s, call.req))
    && (call.pc.Done? && call.pc.result.Refused? && !Admitted(s, call.req) ==>
          var code := call.pc.result.code;
          || (code == Unavailable && call.req.token.Some?)
          || code == if call.req.token.None? || call.req.token.value !in s.usage then PermissionDenied else InvalidArgument)
  }

  lemma CheckedNext(crypto: Crypto, s: State, step: Step)
    requires Enabled(crypto, s, step) && forall c :: c in s.calls ==> CheckedCall(s, s.calls[c])
    ensures var t := Next(crypto, s, step);
            t.usage.Keys == s.usage.Keys && forall c :: c in t.calls ==> CheckedCall(t, t.calls[c])
  {
    var t := Next(crypto, s, step);
    assert t.usage.Keys == s.usage.Keys;
    forall c | c in t.calls ensures CheckedCall(t, t.calls[c]) {
      if c == step.c {
        if !step.Arrive? { assert CheckedCall(s, s.calls[c]); }
      } else {
        assert CheckedCall(s, s.calls[c]);
      }
    }
  }

  /** In every run the tokens stay, and no call gets past the check without a token of the server and a valid request:
      none of the others ever holds a lock, creates a cluster or succeeds. */
  lemma {:induction false} OnlyAdmitted(crypto: Crypto, steps: seq<Step>, run: seq<State>, i: nat)
    requires IsRun(crypto, steps, run) && i < |run|
    ensures run[i].usage.Keys == run[0].usage.Keys
    ensures forall c :: c in run[i].calls ==> CheckedCall(run[0], run[i].calls[c])
  {
    if i > 0 {
      OnlyAdmitted(crypto, steps, run, i - 1);
      var s := run[i - 1];
      forall c | c in s.calls ensures CheckedCall(s, s.calls[c]) { assert CheckedCall(run[0], s.calls[c]); }
      CheckedNext(crypto, run[i - 1], steps[i - 1]);
      forall c | c in run[i].calls ensures CheckedCall(run[0], run[i].calls[c]) {
        assert CheckedCall(run[i], run[i].calls[c]);
      }
    }
  }

  /** A call refused because its cluster exists is right about that. */
  lemma {:induction false} RefusedExisting(crypto: Crypto, steps: seq<Step>, run: seq<State>, i: nat, c: CallId)
    requires IsRun(crypto, steps, run) && i < |run| && c in run[i].calls && run[i].calls[c].pc == Done(Refused(AlreadyExists))
    ensures Exists(run[i], run[i].calls[c].req.client)
  {
    var s, step := run[i - 1], steps[i - 1];
    assert run[i] == Next(crypto, s, step);
    if c in s.calls && s.calls[c].pc == Done(Refused(AlreadyExists)) { RefusedExisting(crypto, steps, run, i - 1, c); }
  }

  /** In particular a call that succeeded presented a token the server had, in a valid request. */
  lemma SuccessNeedsToken(crypto: Crypto, steps: seq<Step>, run: seq<State>, i: nat, c: CallId)
    requires IsRun(crypto, steps, run) && i < |run| && Succeeded(run[i], c)
    ensures var req := run[i].calls[c].req;
            req.valid && req.token.Some? && req.token.value in run[0].usage && req.token.value in run[i].usage
  {
    OnlyAdmitted(crypto, steps, run, i);
    assert CheckedCall(run[0], run[i].calls[c]);
  }

  // ------------------------------------------------- clients left without a keyring

  /** The call created its cluster, and then one of the two writes after that failed. */
  predicate LeftOver(s: State, c: CallId) {
    c in s.calls && (s.calls[c].pc == Done(Uncounted) || s.calls[c].pc == Done(Unstored))
  }

  lemma {:induction false} LeftOverStays(crypto: Crypto, steps: seq<Step>, run: seq<State>, i: nat, j: nat, c: CallId)
    requires IsRun(crypto, steps, run) && i <= j < |run| && LeftOver(run[i], c)
    ensures LeftOver(run[j], c) && run[j].calls[c] == run[i].calls[c]
  {
    if i < j { LeftOverStays(crypto, steps, run, i, j - 1, c); }
  }

  /** Such a client is lost for good: its cluster is there, and no call for it ever succeeds, before or after. */
  lemma StrandedForGood(crypto: Crypto, steps: seq<Step>, run: seq<State>, i: nat, j: nat, c: CallId, d: CallId)
    requires IsRun(crypto, steps, run) && i < |run| && j < |run| && LeftOver(run[i], c)
    requires d in run[j].calls && run[j].calls[d].req.client == run[i].calls[c].req.client
    ensures !Succeeded(run[j], d)
    ensures i <= j ==> run[j].calls[d].req.client in run[j].clusters
  {
    var k := if i <= j then j else i;
    LeftOverStays(crypto, steps, run, i, k, c);
    RunInv(crypto, steps, run, k);
    assert CallInv(crypto, run[k], c);
    if Succeeded(run[j], d) {
      SuccessStays(crypto, steps, run, j, k, d);
      NoSuccessBeside(crypto, run[k], c, d);
    }
  }

  lemma NoSuccessBeside(crypto: Crypto, s: State, c: CallId, d: CallId)
    requires Inv(crypto, s) && LeftOver(s, c) && d in s.calls && s.calls[d].req.client == s.calls[c].req.client
    ensures !Succeeded(s, d)
  {
    if c != d { assert Apart(s.calls[c], s.calls[d]); }
  }

  /** With no call in progress, a client has a new cluster and no success exactly if one of its calls was left
      over: only a storage error at one of the two writes after the cluster's creation does that. */
  lemma StrandedIff(crypto: Crypto, steps: seq<Step>, run: seq<State>, i: nat, client: ClientId)
    requires IsRun(crypto, steps, run) && i < |run|
    requires forall c :: c in run[i].calls ==> run[i].calls[c].pc.Done?
    ensures (client in run[i].clusters && forall c :: Succeeded(run[i], c) ==> run[i].calls[c].req.client != client)
            <==> exists c :: LeftOver(run[i], c) && run[i].calls[c].req.client == client
  {
    RunInv(crypto, steps, run, i);
    if client in run[i].clusters && forall c :: Succeeded(run[i], c) ==> run[i].calls[c].req.client != client {
      var c := ClusterHasMaker(crypto, steps, run, i, client);
      assert LeftOver(run[i], c);
    }
    if c :| LeftOver(run[i], c) && run[i].calls[c].req.client == client {
      assert CallInv(crypto, run[i], c);
      forall d | Succeeded(run[i], d) ensures run[i].calls[d].req.client != client {
        assert Apart(run[i].calls[c], run[i].calls[d]);
      }
    }
  }

  // ------------------------------------------------- left over clients are real

  ghost predicate Reachable(crypto: Crypto, s: State) {
    exists steps, run :: IsRun(crypto, steps, run) && run[|run| - 1] == s
  }

  lemma ReachNext(crypto: Crypto, s: State, step: Step, t: State)
    requires Reachable(crypto, s) && Enabled(crypto, s, step) && t == Next(crypto, s, step)
    ensures Reachable(crypto, t)
  {
    var steps, run :| IsRun(crypto, steps, run) && run[|run| - 1] == s;
    var steps', run' := steps + [step], run + [t];
    forall i | 0 <= i < |steps'| ensures Enabled(crypto, run'[i], steps'[i]) && run'[i + 1] == Next(crypto, run'[i], steps'[i]) {
      if i < |steps| { assert run'[i] == run[i] && run'[i + 1] == run[i + 1] && steps'[i] == steps[i]; }
    }
    assert IsRun(crypto, steps', run') && run'[|run'| - 1] == t;
  }

  /** A server with one token and one call at most. */
  function OneCall(token: TokenId, req: Request, pc: Pc, clusters: map<ClientId, TokenId>, used: nat): State {
    State(map[0 := Call(req, pc)], {}, clusters, map[token := used], map[])
  }

  lemma OneMoves(crypto: Crypto, token: TokenId, req: Request, pc: Pc, clusters: map<ClientId, TokenId>, used: nat, step: Step)
    requires var s := OneCall(token, req, pc, clusters, used); Reachable(crypto, s) && Enabled(crypto, s, step) && step.c == 0
    requires !step.Arrive? && !step.Store?
    ensures var s := OneCall(token, req, pc, clusters, used);
            Reachable(crypto, OneCall(token, req, NextPc(crypto, s, step), NextClusters(crypto, s, step),
                                      if step.Count? then used + 1 else used))
  {
    var s := OneCall(token, req, pc, clusters, used);
    var used' := if step.Count? then used + 1 else used;
    var t := OneCall(token, req, NextPc(crypto, s, step), NextClusters(crypto, s, step), used');
    assert s.calls[0 := NextCall(crypto, s, step)] == t.calls;
    assert NextUsage(crypto, s, step) == t.usage;
    ReachNext(crypto, s, step, t);
  }

  /** The request is valid, with that token, and its key can be used. */
  predicate Usable(crypto: Crypto, token: TokenId, req: Request, server: KeyPair) {
    req.token == Some(token) && req.valid && KeysOf(crypto, server, req)
  }

  lemma LockReached(crypto: Crypto, token: TokenId, req: Request, server: KeyPair)
    requires Usable(crypto, token, req, server)
    ensures Reachable(crypto, OneCall(token, req, Locked, map[], 0))
  {
    var s0 := State(map[], {}, map[], map[token := 0], map[]);
    assert IsRun(crypto, [], [s0]) && Reachable(crypto, [s0][0]);
    assert s0.calls[0 := Call(req, Arrived)] == map[0 := Call(req, Arrived)];
    ReachNext(crypto, s0, Arrive(0, req), OneCall(token, req, Arrived, map[], 0));
    OneMoves(crypto, token, req, Arrived, map[], 0, CheckToken(0));
    OneMoves(crypto, token, req, Waiting, map[], 0, Lock(0));
  }

  lemma CreatedReached(crypto: Crypto, token: TokenId, req: Request, server: KeyPair)
    requires Usable(crypto, token, req, server)
    ensures Reachable(crypto, OneCall(token, req, Created(server), map[req.client := token], 0))
  {
    LockReached(crypto, token, req, server);
    OneMoves(crypto, token, req, Locked, map[], 0, LookUp(0));
    OneMoves(crypto, token, req, Absent, map[], 0, Derive(0, server.private));
    OneMoves(crypto, token, req, Derived(server), map[], 0, Create(0));
    var none: map<ClientId, TokenId> := map[];
    assert none[req.client := token] == map[req.client := token];
  }

  /** Either write after the creation of the cluster can fail, and leaves the client behind. */
  lemma LeftOverHappens(crypto: Crypto, token: TokenId, req: Request, server: KeyPair)
    requires Usable(crypto, token, req, server)
    ensures var s := OneCall(token, req, Done(Uncounted), map[req.client := token], 0); Reachable(crypto, s) && LeftOver(s, 0)
    ensures var s := OneCall(token, req, Done(Unstored), map[req.client := token], 1); Reachable(crypto, s) && LeftOver(s, 0)
  {
    CreatedReached(crypto, token, req, server);
    var clusters := map[req.client := token];
    OneMoves(crypto, token, req, Created(server), clusters, 0, StorageError(0));
    OneMoves(crypto, token, req, Created(server), clusters, 0, Count(0));
    OneMoves(crypto, token, req, Counted(server), clusters, 1, StorageError(0));
  }
}
