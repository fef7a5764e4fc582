/** The gateway's diff of two plugin manifests (pkg/patch/manifest.go). */
module Manifests {
  import opened Common

  datatype Entry = Entry(id: Bytes, filename: Bytes, digest: Bytes)

  /** The wire enumeration; `Unknown` stands for any number outside it. */
  datatype Op = NoOp | Update | Create | Remove | Rename | Unknown

  datatype Patch = Patch(
    id: Bytes, op: Op, filename: Bytes, data: Bytes, oldDigest: Bytes, newDigest: Bytes)

  function CreateOf(ours: Entry): Patch {
    Patch(ours.id, Create, ours.filename, "", "", ours.digest)
  }

  function UpdateOf(ours: Entry, theirs: Entry): Patch {
    Patch(ours.id, Update, ours.filename, "", theirs.digest, ours.digest)
  }

  function RenameOf(ours: Entry, theirs: Entry): Patch {
    Patch(ours.id, Rename, theirs.filename, ours.filename, theirs.digest, ours.digest)
  }

  function RemoveOf(theirs: Entry): Patch {
    Patch(theirs.id, Remove, theirs.filename, "", theirs.digest, "")
  }

  /** What a map filled from the list in order holds for `id`: the last entry with that id. */
  function Lookup(m: seq<Entry>, id: Bytes): Option<Entry> {
    if m == [] then None
    else if m[|m| - 1].id == id then Some(m[|m| - 1])
    else Lookup(m[..|m| - 1], id)
  }

  function Digests(m: seq<Entry>): set<Bytes> {
    set e | e in m :: e.digest
  }

  function OpFor(ours: Entry, agent: seq<Entry>): seq<Patch> {
    match Lookup(agent, ours.id)
    case None => [CreateOf(ours)]
    case Some(theirs) =>
      if ours.digest != theirs.digest then [UpdateOf(ours, theirs)]
      else if ours.filename != theirs.filename then [RenameOf(ours, theirs)]
      else []
  }

  function RemovalFor(theirs: Entry, gateway: seq<Entry>): seq<Patch> {
    if Lookup(gateway, theirs.id).None? && theirs.digest !in Digests(gateway) then [RemoveOf(theirs)] else []
  }

  /** Every operation the join emits, in the order of emission, for arbitrary manifests. */
  function GatewayOps(ours: seq<Entry>, agent: seq<Entry>): seq<Patch> {
    if ours == [] then [] else GatewayOps(ours[..|ours| - 1], agent) + OpFor(ours[|ours| - 1], agent)
  }

  function AgentOps(theirs: seq<Entry>, gateway: seq<Entry>): seq<Patch> {
    if theirs == [] then [] else AgentOps(theirs[..|theirs| - 1], gateway) + RemovalFor(theirs[|theirs| - 1], gateway)
  }

  function JoinOps(gateway: seq<Entry>, agent: seq<Entry>): seq<Patch> {
    GatewayOps(gateway, agent) + AgentOps(agent, gateway)
  }

  // ---------------------------------------------------------------- ordering

  /** Go's `<` on strings: bytewise, a proper prefix first. */
  predicate TextLess(a: Bytes, b: Bytes) {
    if b == "" then false
    else if a == "" then true
    else if a[0] != b[0] then a[0] < b[0]
    else TextLess(a[1..], b[1..])
  }

  lemma {:induction false} TextLessTrans(a: Bytes, b: Bytes, c: Bytes)
    requires !TextLess(b, a) && !TextLess(c, b)
    ensures !TextLess(c, a)
  {
    if a != "" && b != "" && c != "" && a[0] == b[0] == c[0] {
      TextLessTrans(a[1..], b[1..], c[1..]);
    }
  }

  lemma {:induction false} TextLessTotal(a: Bytes, b: Bytes)
    ensures !(TextLess(a, b) && TextLess(b, a))
    ensures !TextLess(a, b) && !TextLess(b, a) ==> a == b
  {
    if a != "" && b != "" && a[0] == b[0] {
      TextLessTotal(a[1..], b[1..]);
      assert a == [a[0]] + a[1..] && b == [b[0]] + b[1..];
    }
  }

  function OpNumber(op: Op): nat {
    match op case NoOp => 0 case Update => 1 case Create => 2 case Remove => 3 case Rename => 4 case Unknown => 5
  }

  /** The comparison PatchList.Sort sorts by. */
  predicate PatchLess(a: Patch, b: Patch) {
    if a.op != b.op then OpNumber(a.op) < OpNumber(b.op)
    else if a.id != b.id then TextLess(a.id, b.id)
    else TextLess(a.filename, b.filename)
  }

  lemma PatchLessTrans(a: Patch, b: Patch, c: Patch)
    requires !PatchLess(b, a) && !PatchLess(c, b)
    ensures !PatchLess(c, a)
  {
    if a.op == b.op == c.op {
      TextLessTotal(a.id, b.id);
      TextLessTotal(b.id, c.id);
      TextLessTotal(a.id, c.id);
      if !TextLess(b.id, a.id) && !TextLess(c.id, b.id) { TextLessTrans(a.id, b.id, c.id); }
      if a.id == b.id == c.id { TextLessTrans(a.filename, b.filename, c.filename); }
    }
  }

  /** The kinds in the order of the protocol's numbers. */
  const KINDS := [NoOp, Update, Create, Remove, Rename, Unknown]

  /** One text is less than another if it is a proper beginning of it, or smaller at the first place where they
      differ. */
  ghost predicate ComesBefore(a: Bytes, b: Bytes) {
    exists k: nat :: k <= |a| && k < |b| && a[..k] == b[..k] && (k == |a| || a[k] < b[k])
  }

  lemma FirstSame(a: Bytes, b: Bytes)
    ensures forall k: nat :: 0 < k <= |a| && k <= |b| && a[..k] == b[..k] ==> a[0] == b[0]
  {
    forall k: nat | 0 < k <= |a| && k <= |b| && a[..k] == b[..k] ensures a[0] == b[0] {
      assert a[..k][0] == b[..k][0];
    }
  }

  lemma {:induction false} TextLessMeans(a: Bytes, b: Bytes)
    ensures TextLess(a, b) <==> ComesBefore(a, b)
  {
    if a == "" {
      if b != "" { assert a[..0] == b[..0]; }
    } else if b != "" {
      if a[0] == b[0] {
        TextLessMeans(a[1..], b[1..]);
        if k: nat :| k <= |a[1..]| && k < |b[1..]| && a[1..][..k] == b[1..][..k] && (k == |a[1..]| || a[1..][k] < b[1..][k]) {
          assert a[..k + 1] == [a[0]] + a[1..][..k] && b[..k + 1] == [b[0]] + b[1..][..k];
        }
        if k: nat :| k <= |a| && k < |b| && a[..k] == b[..k] && (k == |a| || a[k] < b[k]) {
          assert k > 0;
          assert a[1..][..k - 1] == a[..k][1..] && b[1..][..k - 1] == b[..k][1..];
        }
      } else {
        if a[0] < b[0] { assert a[..0] == b[..0]; }
        FirstSame(a, b);
      }
    }
  }

  /** What sorting compares, written out: the kind, then the module, then the file name. */
  lemma PatchLessMeans(a: Patch, b: Patch, i: nat, j: nat)
    requires i < 6 && j < 6 && KINDS[i] == a.op && KINDS[j] == b.op
    ensures PatchLess(a, b) <==>
            i < j || (i == j && (ComesBefore(a.id, b.id) || (a.id == b.id && ComesBefore(a.filename, b.filename))))
  {
    TextLessMeans(a.id, b.id);
    TextLessMeans(a.filename, b.filename);
    TextLessTotal(a.id, a.id);
  }

  ghost predicate Sorted(s: seq<Patch>) {
    forall i, j :: 0 <= i < j < |s| ==> !PatchLess(s[j], s[i])
  }

  /** Where the operation goes: after the last one that is not greater. */
  method PlaceFor(p: Patch, r: seq<Patch>) returns (k: nat)
    ensures k <= |r| && (forall i :: k <= i < |r| ==> PatchLess(p, r[i])) && (k > 0 ==> !PatchLess(p, r[k - 1]))
  {
    k := |r|;
    while k > 0 && PatchLess(p, r[k - 1])
      invariant k <= |r| && forall i :: k <= i < |r| ==> PatchLess(p, r[i])
    {
      k := k - 1;
    }
  }

  /** PatchList.Sort; the library's algorithm is immaterial, its result is some sorted permutation. */
  method Sort(s: seq<Patch>) returns (r: seq<Patch>)
    ensures Permutes(s, r) && Sorted(r)
  {
    r := [];
    for n := 0 to |s|
      invariant Permutes(s[..n], r) && Sorted(r)
    {
      var k := PlaceFor(s[n], r);
      InsertSorted(r, k, s[n]);
      InsertPermutes(s, n, r, k);
      r := r[..k] + [s[n]] + r[k..];
    }
    assert s[..|s|] == s;
  }

  lemma InsertPermutes(s: seq<Patch>, n: nat, r: seq<Patch>, k: nat)
    requires n < |s| && k <= |r| && Permutes(s[..n], r)
    ensures Permutes(s[..n + 1], r[..k] + [s[n]] + r[k..])
  {
    assert r == r[..k] + r[k..];
    assert s[..n + 1] == s[..n] + [s[n]];
  }

  lemma InsertSorted(r: seq<Patch>, k: nat, p: Patch)
    requires Sorted(r) && k <= |r|
    requires forall i :: k <= i < |r| ==> PatchLess(p, r[i])
    requires k > 0 ==> !PatchLess(p, r[k - 1])
    ensures Sorted(r[..k] + [p] + r[k..])
  {
    var t := r[..k] + [p] + r[k..];
    forall i, j | 0 <= i < j < |t| ensures !PatchLess(t[j], t[i]) {
      if j == k {
        if i < k - 1 { PatchLessTrans(r[i], r[k - 1], p); }
      } else if i == k {
        TextLessTotal(p.id, t[j].id);
        TextLessTotal(p.filename, t[j].filename);
      }
    }
  }

  // ---------------------------------------------------------------- the join

  /** The plugins by id, and their digests. */
  method IndexPlugins(m: seq<Entry>) returns (plugins: map<Bytes, Entry>, digests: set<Bytes>)
    ensures Holds(plugins, m) && digests == Digests(m)
  {
    plugins, digests := map[], {};
    for i := 0 to |m|
      invariant digests == Digests(m[..i])
      invariant Holds(plugins, m[..i])
    {
      digests := digests + {m[i].digest};
      HoldsPut(plugins, m[..i], m[i]);
      plugins := plugins[m[i].id := m[i]];
      assert m[..i + 1] == m[..i] + [m[i]];
    }
    assert m[..|m|] == m;
  }

  /** The loop over the gateway's entries. */
  method CompareAll(gateway: seq<Entry>, agent: seq<Entry>, theirPlugins: map<Bytes, Entry>) returns (res: seq<Patch>)
    requires Holds(theirPlugins, agent)
    ensures res == GatewayOps(gateway, agent)
  {
    res := [];
    for i := 0 to |gateway|
      invariant res == GatewayOps(gateway[..i], agent)
    {
      var ours := gateway[i];
      assert gateway[..i + 1][..i] == gateway[..i];
      assert HoldsAt(theirPlugins, agent, ours.id);
      if ours.id !in theirPlugins {
        res := res + [CreateOf(ours)];
      } else {
        var theirs := theirPlugins[ours.id];
        if ours.digest != theirs.digest {
          res := res + [UpdateOf(ours, theirs)];
        } else if ours.filename != theirs.filename {
          res := res + [RenameOf(ours, theirs)];
        }
      }
    }
    assert gateway[..|gateway|] == gateway;
  }

  /** The loop over the agent's entries. */
  method RemoveRest(gateway: seq<Entry>, agent: seq<Entry>, ourPlugins: map<Bytes, Entry>, ourDigests: set<Bytes>)
    returns (res: seq<Patch>)
    requires Holds(ourPlugins, gateway) && ourDigests == Digests(gateway)
    ensures res == AgentOps(agent, gateway)
  {
    res := [];
    for i := 0 to |agent|
      invariant res == AgentOps(agent[..i], gateway)
    {
      var theirs := agent[i];
      assert agent[..i + 1][..i] == agent[..i];
      assert HoldsAt(ourPlugins, gateway, theirs.id);
      if theirs.id !in ourPlugins {
        if theirs.digest !in ourDigests {
          res := res + [RemoveOf(theirs)];
        }
      }
    }
    assert agent[..|agent|] == agent;
  }

  method LeftJoinOn(gateway: seq<Entry>, agent: seq<Entry>) returns (res: seq<Patch>)
    ensures Permutes(JoinOps(gateway, agent), res)
    ensures Sorted(res)
  {
    var ourPlugins, ourDigests := IndexPlugins(gateway);
    var theirPlugins, theirDigests := IndexPlugins(agent);
    var front := CompareAll(gateway, agent, theirPlugins);
    var back := RemoveRest(gateway, agent, ourPlugins, ourDigests);
    res := Sort(front + back);
  }

  /** A map filled from the list holds, under each id, what Lookup finds. */
  ghost predicate HoldsAt(plugins: map<Bytes, Entry>, m: seq<Entry>, id: Bytes) {
    Lookup(m, id) == if id in plugins then Some(plugins[id]) else None
  }

  ghost predicate Holds(plugins: map<Bytes, Entry>, m: seq<Entry>) {
    forall id :: HoldsAt(plugins, m, id)
  }

  lemma HoldsPut(plugins: map<Bytes, Entry>, m: seq<Entry>, e: Entry)
    requires Holds(plugins, m)
    ensures Holds(plugins[e.id := e], m + [e])
  {
    var plugins', m' := plugins[e.id := e], m + [e];
    assert m'[..|m|] == m;
    forall id ensures HoldsAt(plugins', m', id) {
      assert HoldsAt(plugins, m, id);
    }
  }

  // ------------------------------------------- the join of well-formed manifests

  ghost predicate IdsUnique(m: seq<Entry>) {
    forall i, j :: 0 <= i < j < |m| ==> m[i].id != m[j].id
  }

  /** What the join means when ids identify entries: one operation for each difference. */
  ghost predicate Differs(gateway: seq<Entry>, agent: seq<Entry>, p: Patch) {
    || (exists g :: g in gateway && p == CreateOf(g) && forall a :: a in agent ==> a.id != g.id)
    || (exists g, a :: g in gateway && a in agent && a.id == g.id && a.digest != g.digest && p == UpdateOf(g, a))
    || (exists g, a :: g in gateway && a in agent && a.id == g.id && a.digest == g.digest
                       && a.filename != g.filename && p == RenameOf(g, a))
    || (exists a :: a in agent && p == RemoveOf(a)
                    && forall g :: g in gateway ==> g.id != a.id && g.digest != a.digest)
  }

  lemma {:induction false} LookupFinds(m: seq<Entry>, id: Bytes)
    ensures match Lookup(m, id)
            case None => forall e :: e in m ==> e.id != id
            case Some(e) => e in m && e.id == id
  {
    if m != [] && m[|m| - 1].id != id {
      var init := m[..|m| - 1];
      LookupFinds(init, id);
      assert m == init + [m[|m| - 1]];
    }
  }

  lemma LookupIs(m: seq<Entry>, e: Entry)
    requires IdsUnique(m) && e in m
    ensures Lookup(m, e.id) == Some(e)
  {
    LookupFinds(m, e.id);
  }

  lemma LookupMisses(m: seq<Entry>, id: Bytes)
    requires forall e :: e in m ==> e.id != id
    ensures Lookup(m, id) == None
  {
    LookupFinds(m, id);
  }

  lemma {:induction false} GatewayOpsMembers(ours: seq<Entry>, agent: seq<Entry>, p: Patch)
    ensures p in GatewayOps(ours, agent) <==> exists g :: g in ours && p in OpFor(g, agent)
  {
    if ours != [] {
      var init, last := ours[..|ours| - 1], ours[|ours| - 1];
      GatewayOpsMembers(init, agent, p);
      assert ours == init + [last];
      if g :| g in ours && p in OpFor(g, agent) {
        assert g in init || g == last;
      }
    }
  }

  lemma {:induction false} AgentOpsMembers(theirs: seq<Entry>, gateway: seq<Entry>, p: Patch)
    ensures p in AgentOps(theirs, gateway) <==> exists a :: a in theirs && p in RemovalFor(a, gateway)
  {
    if theirs != [] {
      var init, last := theirs[..|theirs| - 1], theirs[|theirs| - 1];
      AgentOpsMembers(init, gateway, p);
      assert theirs == init + [last];
      if a :| a in theirs && p in RemovalFor(a, gateway) {
        assert a in init || a == last;
      }
    }
  }

  lemma EmittedDiffers(gateway: seq<Entry>, agent: seq<Entry>, p: Patch)
    requires p in JoinOps(gateway, agent)
    ensures Differs(gateway, agent, p)
  {
    GatewayOpsMembers(gateway, agent, p);
    AgentOpsMembers(agent, gateway, p);
    if p in GatewayOps(gateway, agent) {
      var g :| g in gateway && p in OpFor(g, agent);
      OpDiffers(gateway, agent, g, p);
    } else {
      var a :| a in agent && p in RemovalFor(a, gateway);
      RemovalDiffers(gateway, agent, a, p);
    }
  }

  lemma OpDiffers(gateway: seq<Entry>, agent: seq<Entry>, g: Entry, p: Patch)
    requires g in gateway && p in OpFor(g, agent)
    ensures Differs(gateway, agent, p)
  {
    LookupFinds(agent, g.id);
  }

  lemma RemovalDiffers(gateway: seq<Entry>, agent: seq<Entry>, a: Entry, p: Patch)
    requires a in agent && p in RemovalFor(a, gateway)
    ensures Differs(gateway, agent, p)
  {
    LookupFinds(gateway, a.id);
    assert forall g :: g in gateway ==> g.digest in Digests(gateway);
  }

  lemma EmittedFor(gateway: seq<Entry>, agent: seq<Entry>, g: Entry, p: Patch)
    requires g in gateway && p in OpFor(g, agent)
    ensures p in JoinOps(gateway, agent)
  {
    GatewayOpsMembers(gateway, agent, p);
  }

  lemma MatchedEmitted(gateway: seq<Entry>, agent: seq<Entry>, g: Entry, a: Entry, p: Patch)
    requires IdsUnique(agent) && g in gateway && a in agent && a.id == g.id
    requires (a.digest != g.digest && p == UpdateOf(g, a)) ||
             (a.digest == g.digest && a.filename != g.filename && p == RenameOf(g, a))
    ensures p in JoinOps(gateway, agent)
  {
    LookupIs(agent, a);
    EmittedFor(gateway, agent, g, p);
  }

  lemma DifferenceEmitted(gateway: seq<Entry>, agent: seq<Entry>, p: Patch)
    requires IdsUnique(agent) && Differs(gateway, agent, p)
    ensures p in JoinOps(gateway, agent)
  {
    if a :| a in agent && p == RemoveOf(a) && forall g :: g in gateway ==> g.id != a.id && g.digest != a.digest {
      LookupMisses(gateway, a.id);
      AgentOpsMembers(agent, gateway, p);
    } else if g :| g in gateway && p == CreateOf(g) && forall a :: a in agent ==> a.id != g.id {
      LookupMisses(agent, g.id);
      EmittedFor(gateway, agent, g, p);
    } else if g, a :| g in gateway && a in agent && a.id == g.id && a.digest != g.digest && p == UpdateOf(g, a) {
      MatchedEmitted(gateway, agent, g, a, p);
    } else {
      var g, a :| g in gateway && a in agent && a.id == g.id && a.digest == g.digest
                  && a.filename != g.filename && p == RenameOf(g, a);
      MatchedEmitted(gateway, agent, g, a, p);
    }
  }

  /** For manifests whose ids identify their entries, the join emits exactly the differences. */
  lemma JoinMembers(gateway: seq<Entry>, agent: seq<Entry>)
    requires IdsUnique(gateway) && IdsUnique(agent)
    ensures NoDup(JoinOps(gateway, agent))
    ensures forall p :: p in JoinOps(gateway, agent) <==> Differs(gateway, agent, p)
  {
    JoinNoDup(gateway, agent);
    forall p ensures p in JoinOps(gateway, agent) <==> Differs(gateway, agent, p) {
      if p in JoinOps(gateway, agent) { EmittedDiffers(gateway, agent, p); }
      if Differs(gateway, agent, p) { DifferenceEmitted(gateway, agent, p); }
    }
  }

  lemma {:induction false} GatewayOpsIds(ours: seq<Entry>, agent: seq<Entry>)
    requires IdsUnique(ours)
    ensures NoDup(GatewayOps(ours, agent))
    ensures forall p :: p in GatewayOps(ours, agent) ==> p.op != Remove && exists g :: g in ours && g.id == p.id
  {
    if ours != [] {
      var init, last := ours[..|ours| - 1], ours[|ours| - 1];
      GatewayOpsIds(init, agent);
      assert forall g :: g in init ==> g.id != last.id;
    }
  }

  lemma {:induction false} AgentOpsIds(theirs: seq<Entry>, gateway: seq<Entry>)
    requires IdsUnique(theirs)
    ensures NoDup(AgentOps(theirs, gateway))
    ensures forall p :: p in AgentOps(theirs, gateway) ==> p.op == Remove && exists a :: a in theirs && a.id == p.id
  {
    if theirs != [] {
      var init, last := theirs[..|theirs| - 1], theirs[|theirs| - 1];
      AgentOpsIds(init, gateway);
      assert forall a :: a in init ==> a.id != last.id;
    }
  }

  lemma JoinNoDup(gateway: seq<Entry>, agent: seq<Entry>)
    requires IdsUnique(gateway) && IdsUnique(agent)
    ensures NoDup(JoinOps(gateway, agent))
  {
    GatewayOpsIds(gateway, agent);
    AgentOpsIds(agent, gateway);
    var ops, front := JoinOps(gateway, agent), GatewayOps(gateway, agent);
    forall i, j | 0 <= i < j < |ops| ensures ops[i] != ops[j] {
      if i < |front| <= j {
        assert ops[i] in front && ops[j] in AgentOps(agent, gateway);
      }
    }
  }
}
