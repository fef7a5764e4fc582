/** Plugin sync end to end: the operations the gateway computes, applied by the agent. */
module Convergence {
  import opened Common
  import opened Manifests
  import opened PluginWorld
  import opened PatchClient

  // Throughout, `g` is the gateway's plugin directory and `d` the agent's.

  /** Ids identify plugins on each side; a plugin whose contents change keeps its file name; no
      gateway file name holds a plugin with another id on the agent; and the target of a rename is free. */
  ghost predicate Compatible(w: World, g: Disk, d: Disk) {
    && w.IdsIdentify(g)
    && w.IdsIdentify(d)
    && forall o, a :: w.Has(g, o) && w.Has(d, a) ==> NoClash(d, o, a)
  }

  predicate NoClash(d: Disk, o: Entry, a: Entry) {
    && (a.id == o.id && a.digest != o.digest ==> a.filename == o.filename)
    && (a.filename == o.filename ==> a.id == o.id)
    && (a.id == o.id && a.digest == o.digest && a.filename != o.filename ==> o.filename !in d)
  }

  ghost predicate NeedsCreate(w: World, g: Disk, d: Disk, o: Entry) {
    w.Has(g, o) && forall a :: w.Has(d, a) ==> a.id != o.id
  }

  ghost predicate NeedsUpdate(w: World, g: Disk, d: Disk, o: Entry, a: Entry) {
    w.Has(g, o) && w.Has(d, a) && a.id == o.id && a.digest != o.digest
  }

  ghost predicate NeedsRename(w: World, g: Disk, d: Disk, o: Entry, a: Entry) {
    w.Has(g, o) && w.Has(d, a) && a.id == o.id && a.digest == o.digest && a.filename != o.filename
  }

  ghost predicate NeedsRemove(w: World, g: Disk, d: Disk, a: Entry) {
    w.Has(d, a) && forall o :: w.Has(g, o) ==> o.id != a.id && o.digest != a.digest
  }

  /** The operation p is a difference between the two directories. */
  ghost predicate Pending(w: World, g: Disk, d: Disk, p: Patch) {
    || (exists o :: NeedsCreate(w, g, d, o) && p == CreateOf(o))
    || (exists o, a :: NeedsUpdate(w, g, d, o, a) && p == UpdateOf(o, a))
    || (exists o, a :: NeedsRename(w, g, d, o, a) && p == RenameOf(o, a))
    || (exists a :: NeedsRemove(w, g, d, a) && p == RemoveOf(a))
  }

  /** q is what the gateway may send for p: Creates and Updates carry correct data, and an Update may
      have been turned into a Create of the whole file. */
  ghost predicate Answers(w: World, p: Patch, q: Patch) {
    && q.id == p.id && q.filename == p.filename && q.oldDigest == p.oldDigest && q.newDigest == p.newDigest
    && match p.op
       case Create => q.op == Create && w.digest(q.data) == p.newDigest
       case Update => (q.op == Create && w.digest(q.data) == p.newDigest) || (q.op == Update && Rebuilds(w, q))
       case _ => q == p
  }

  /** The patch turns whatever has the old digest into something with the new one. */
  ghost predicate Rebuilds(w: World, q: Patch) {
    && w.isPatch(q.data)
    && forall c :: w.digest(c) == q.oldDigest ==>
      w.apply(c, q.data).Some? && w.digest(w.apply(c, q.data).value) == q.newDigest
  }

  ghost predicate AllAnswer(w: World, ops: seq<Patch>, sent: seq<Patch>) {
    |sent| == |ops| && forall i :: 0 <= i < |ops| ==> Answers(w, ops[i], sent[i])
  }

  /** q asks for p, except that the data of an Update may be anything: a damaged patch. */
  ghost predicate Serves(w: World, p: Patch, q: Patch) {
    Answers(w, p, q) || (p.op == Update && q == p.(data := q.data))
  }

  ghost predicate AllServe(w: World, ops: seq<Patch>, sent: seq<Patch>) {
    |sent| == |ops| && forall i :: 0 <= i < |ops| ==> Serves(w, ops[i], sent[i])
  }

  /** ops lists each pending operation once: what LeftJoinOn returns, up to order. */
  ghost predicate ListsPending(w: World, g: Disk, d: Disk, ops: seq<Patch>) {
    NoDup(ops) && forall p :: p in ops <==> Pending(w, g, d, p)
  }

  // ------------------------------------------------- LeftJoinOn lists the differences

  lemma ListedIdsUnique(w: World, d: Disk, m: seq<Entry>)
    requires w.Lists(d, m)
    ensures w.IdsIdentify(d) <==> IdsUnique(m)
  {
    if IdsUnique(m) {
      forall a, b | w.Has(d, a) && w.Has(d, b) && a.id == b.id ensures a == b {
        assert a in m && b in m;
      }
    }
    if w.IdsIdentify(d) {
      forall i, j | 0 <= i < j < |m| ensures m[i].id != m[j].id {
        assert m[i] in m && m[j] in m;
      }
    }
  }

  lemma DiffersIsPending(w: World, g: Disk, d: Disk, gm: seq<Entry>, dm: seq<Entry>, p: Patch)
    requires w.Lists(g, gm) && w.Lists(d, dm)
    ensures Differs(gm, dm, p) <==> Pending(w, g, d, p)
  {
    forall o ensures NeedsCreate(w, g, d, o) <==> o in gm && forall a :: a in dm ==> a.id != o.id {
      assert o in gm <==> w.Has(g, o);
    }
    forall a ensures NeedsRemove(w, g, d, a) <==>
                     a in dm && forall o :: o in gm ==> o.id != a.id && o.digest != a.digest {
      assert a in dm <==> w.Has(d, a);
    }
  }

  /** Joining the manifests of two directories yields exactly the pending operations. */
  lemma JoinListsPending(w: World, g: Disk, d: Disk, gm: seq<Entry>, dm: seq<Entry>, ops: seq<Patch>)
    requires w.Lists(g, gm) && w.Lists(d, dm) && w.IdsIdentify(g) && w.IdsIdentify(d)
    requires Permutes(JoinOps(gm, dm), ops)
    ensures ListsPending(w, g, d, ops)
  {
    assert IdsUnique(gm) && IdsUnique(dm) by {
      ListedIdsUnique(w, g, gm);
      ListedIdsUnique(w, d, dm);
    }
    JoinMembers(gm, dm);
    PermutesMembers(JoinOps(gm, dm), ops);
    PermutesNoDup(JoinOps(gm, dm), ops);
    forall p ensures p in ops <==> Pending(w, g, d, p) {
      DiffersIsPending(w, g, d, gm, dm, p);
    }
  }

  // ------------------------------------------------- one operation

  /** After the operation the agent has, for the operation's id, what the gateway has. */
  ghost predicate Replaces(w: World, g: Disk, d: Disk, id: Bytes, d': Disk) {
    forall x :: w.Has(d', x) <==> (if x.id == id then w.Has(g, x) else w.Has(d, x))
  }

  lemma GatewayFile(w: World, g: Disk, o: Entry, c: Bytes)
    requires w.Lawful() && w.Has(g, o) && w.digest(c) == o.digest
    ensures c == g[o.filename]
  {
  }

  lemma WriteReplaces(w: World, g: Disk, d: Disk, o: Entry, c: Bytes)
    requires w.Lawful() && Compatible(w, g, d) && w.Has(g, o) && w.digest(c) == o.digest
    requires forall a :: w.Has(d, a) && a.id == o.id ==> a.filename == o.filename
    ensures Replaces(w, g, d, o.id, d[o.filename := c])
  {
    GatewayFile(w, g, o, c);
    var d' := d[o.filename := c];
    forall x ensures w.Has(d', x) <==> (if x.id == o.id then w.Has(g, x) else w.Has(d, x)) {
      if x.filename == o.filename {
        if w.Has(d, x) { assert NoClash(d, o, x); }
      }
    }
  }

  lemma UpdateReplaces(w: World, g: Disk, d: Disk, o: Entry, a: Entry, q: Patch)
    requires w.Lawful() && Compatible(w, g, d) && NeedsUpdate(w, g, d, o, a) && Answers(w, UpdateOf(o, a), q)
    ensures Apply(w, d, q) == (OK, d[o.filename := g[o.filename]])
    ensures Replaces(w, g, d, o.id, d[o.filename := g[o.filename]])
  {
    assert NoClash(d, o, a);
    WriteReplaces(w, g, d, o, g[o.filename]);
    if q.op == Create {
      GatewayFile(w, g, o, q.data);
    } else {
      GatewayFile(w, g, o, w.apply(d[a.filename], q.data).value);
    }
  }

  lemma RenameReplaces(w: World, g: Disk, d: Disk, o: Entry, a: Entry)
    requires w.Lawful() && Compatible(w, g, d) && NeedsRename(w, g, d, o, a)
    ensures Apply(w, d, RenameOf(o, a)) == (OK, (d - {a.filename})[o.filename := g[o.filename]])
    ensures Replaces(w, g, d, o.id, (d - {a.filename})[o.filename := g[o.filename]])
  {
    assert NoClash(d, o, a);
    GatewayFile(w, g, o, d[a.filename]);
    var d' := (d - {a.filename})[o.filename := g[o.filename]];
    forall x ensures w.Has(d', x) <==> (if x.id == o.id then w.Has(g, x) else w.Has(d, x)) {
    }
  }

  lemma RemoveReplaces(w: World, g: Disk, d: Disk, a: Entry)
    requires Compatible(w, g, d) && NeedsRemove(w, g, d, a)
    ensures Replaces(w, g, d, a.id, d - {a.filename})
  {
  }

  lemma OneReplaces(w: World, g: Disk, d: Disk, p: Patch, q: Patch)
    requires w.Lawful() && Compatible(w, g, d) && Pending(w, g, d, p) && Answers(w, p, q)
    ensures Apply(w, d, q).0 == OK
    ensures Replaces(w, g, d, p.id, Apply(w, d, q).1)
    ensures forall o :: w.Has(g, o) && o.id != p.id && o.filename !in d ==> o.filename !in Apply(w, d, q).1
  {
    match p.op
    case Create =>
      var o :| NeedsCreate(w, g, d, o) && p == CreateOf(o);
      WriteReplaces(w, g, d, o, q.data);
    case Update =>
      var o, a :| NeedsUpdate(w, g, d, o, a) && p == UpdateOf(o, a);
      UpdateReplaces(w, g, d, o, a, q);
    case Rename =>
      var o, a :| NeedsRename(w, g, d, o, a) && p == RenameOf(o, a);
      RenameReplaces(w, g, d, o, a);
    case Remove =>
      var a :| NeedsRemove(w, g, d, a) && p == RemoveOf(a);
      RemoveReplaces(w, g, d, a);
  }

  lemma ReplacedCompatible(w: World, g: Disk, d: Disk, id: Bytes, d': Disk)
    requires Compatible(w, g, d) && Replaces(w, g, d, id, d')
    requires forall o :: w.Has(g, o) && o.id != id && o.filename !in d ==> o.filename !in d'
    ensures Compatible(w, g, d')
  {
    forall o, a | w.Has(g, o) && w.Has(d', a) ensures NoClash(d', o, a) {
      if a.id != id { assert NoClash(d, o, a); }
    }
  }

  lemma ReplacedPending(w: World, g: Disk, d: Disk, id: Bytes, d': Disk, p: Patch)
    requires Replaces(w, g, d, id, d') && w.IdsIdentify(g)
    ensures Pending(w, g, d', p) <==> Pending(w, g, d, p) && p.id != id
  {
  }

  lemma CreateOnly(w: World, g: Disk, d: Disk, o: Entry, q: Patch)
    requires w.IdsIdentify(g) && NeedsCreate(w, g, d, o) && Pending(w, g, d, q) && q.id == o.id
    ensures q == CreateOf(o)
  {
  }

  lemma MatchedOnly(w: World, g: Disk, d: Disk, o: Entry, a: Entry, q: Patch)
    requires w.IdsIdentify(g) && w.IdsIdentify(d) && w.Has(g, o) && w.Has(d, a) && a.id == o.id
    requires Pending(w, g, d, q) && q.id == o.id
    ensures q == if a.digest != o.digest then UpdateOf(o, a) else RenameOf(o, a)
  {
  }

  lemma RemoveOnly(w: World, g: Disk, d: Disk, a: Entry, q: Patch)
    requires w.IdsIdentify(d) && NeedsRemove(w, g, d, a) && Pending(w, g, d, q) && q.id == a.id
    ensures q == RemoveOf(a)
  {
  }

  lemma CreateById(w: World, g: Disk, d: Disk, p: Patch, q: Patch)
    requires w.IdsIdentify(g) && Pending(w, g, d, p) && Pending(w, g, d, q) && p.id == q.id && p.op == Create
    ensures p == q
  {
    var o :| NeedsCreate(w, g, d, o) && p == CreateOf(o);
    CreateOnly(w, g, d, o, q);
  }

  lemma RemoveById(w: World, g: Disk, d: Disk, p: Patch, q: Patch)
    requires w.IdsIdentify(d) && Pending(w, g, d, p) && Pending(w, g, d, q) && p.id == q.id && p.op == Remove
    ensures p == q
  {
    var a :| NeedsRemove(w, g, d, a) && p == RemoveOf(a);
    RemoveOnly(w, g, d, a, q);
  }

  lemma MatchedById(w: World, g: Disk, d: Disk, p: Patch, q: Patch)
    requires w.IdsIdentify(g) && w.IdsIdentify(d) && Pending(w, g, d, p) && Pending(w, g, d, q) && p.id == q.id
    requires p.op == Update || p.op == Rename
    ensures p == q
  {
    if p.op == Update {
      var o, a :| NeedsUpdate(w, g, d, o, a) && p == UpdateOf(o, a);
      MatchedOnly(w, g, d, o, a, q);
    } else {
      var o, a :| NeedsRename(w, g, d, o, a) && p == RenameOf(o, a);
      MatchedOnly(w, g, d, o, a, q);
    }
  }

  lemma PendingById(w: World, g: Disk, d: Disk, p: Patch, q: Patch)
    requires w.IdsIdentify(g) && w.IdsIdentify(d) && Pending(w, g, d, p) && Pending(w, g, d, q) && p.id == q.id
    ensures p == q
  {
    match p.op
    case Create => CreateById(w, g, d, p, q);
    case Remove => RemoveById(w, g, d, p, q);
    case _ => MatchedById(w, g, d, p, q);
  }

  /** Applying one pending operation succeeds, keeps the directories compatible, and removes that
      operation, and nothing else, from what is pending. */
  lemma StepDischarges(w: World, g: Disk, d: Disk, p: Patch, q: Patch)
    requires w.Lawful() && Compatible(w, g, d) && Pending(w, g, d, p) && Answers(w, p, q)
    ensures Apply(w, d, q).0 == OK
    ensures Compatible(w, g, Apply(w, d, q).1)
    ensures forall p' :: Pending(w, g, Apply(w, d, q).1, p') <==> Pending(w, g, d, p') && p' != p
  {
    var d' := Apply(w, d, q).1;
    OneReplaces(w, g, d, p, q);
    ReplacedCompatible(w, g, d, p.id, d');
    forall p' ensures Pending(w, g, d', p') <==> Pending(w, g, d, p') && p' != p {
      ReplacedPending(w, g, d, p.id, d', p');
      if Pending(w, g, d, p') && p'.id == p.id { PendingById(w, g, d, p, p'); }
    }
  }

  /** Whatever data an operation came with, it fails and changes nothing or does what was asked. */
  lemma ServedDischarges(w: World, g: Disk, d: Disk, p: Patch, q: Patch)
    requires w.Lawful() && Compatible(w, g, d) && Pending(w, g, d, p) && Serves(w, p, q)
    ensures Apply(w, d, q).0 != OK ==> Apply(w, d, q).1 == d && !Answers(w, p, q)
    ensures Apply(w, d, q).0 == OK ==> Compatible(w, g, Apply(w, d, q).1)
    ensures Apply(w, d, q).0 == OK ==>
              forall p' :: Pending(w, g, Apply(w, d, q).1, p') <==> Pending(w, g, d, p') && p' != p
  {
    if Answers(w, p, q) {
      StepDischarges(w, g, d, p, q);
    } else if Apply(w, d, q).0 == OK {
      var whole := p.(op := Create, data := Patched(w, d[q.filename], q).1);
      StepDischarges(w, g, d, p, whole);
    }
  }

  // ------------------------------------------------- whole lists, in any order

  /** Every operation is attempted, as the error group does; the result says whether all succeeded. */
  function Run(w: World, d: Disk, sent: seq<Patch>): (r: (bool, Disk))
    decreases |sent|
  {
    if sent == [] then (true, d)
    else
      var (code, d') := Apply(w, d, sent[0]);
      var (ok, d'') := Run(w, d', sent[1..]);
      (code == OK && ok, d'')
  }

  /** Applying any of the pending operations, in any order, succeeds and leaves exactly the others pending. */
  lemma {:induction false} SomeDischarged(w: World, g: Disk, d: Disk, ops: seq<Patch>, sent: seq<Patch>)
    requires w.Lawful() && Compatible(w, g, d) && NoDup(ops) && AllAnswer(w, ops, sent)
    requires forall p :: p in ops ==> Pending(w, g, d, p)
    ensures Run(w, d, sent).0
    ensures Compatible(w, g, Run(w, d, sent).1)
    ensures forall p :: Pending(w, g, Run(w, d, sent).1, p) <==> Pending(w, g, d, p) && p !in ops
    decreases |ops|
  {
    if ops != [] {
      assert ops[0] in ops && ops == [ops[0]] + ops[1..];
      StepDischarges(w, g, d, ops[0], sent[0]);
      SomeDischarged(w, g, Apply(w, d, sent[0]).1, ops[1..], sent[1..]);
    }
  }

  lemma MissingIsPending(w: World, g: Disk, d: Disk, x: Entry) returns (p: Patch)
    requires w.Has(g, x) && !w.Has(d, x)
    ensures Pending(w, g, d, p)
  {
    if a :| w.Has(d, a) && a.id == x.id {
      p := if a.digest != x.digest then UpdateOf(x, a) else RenameOf(x, a);
      assert NeedsUpdate(w, g, d, x, a) || NeedsRename(w, g, d, x, a);
    } else {
      p := CreateOf(x);
      assert NeedsCreate(w, g, d, x);
    }
  }

  lemma ExtraIsPending(w: World, g: Disk, d: Disk, x: Entry) returns (p: Patch)
    requires w.Lawful() && w.Has(d, x) && !w.Has(g, x)
    ensures Pending(w, g, d, p)
  {
    if o :| w.Has(g, o) && (o.id == x.id || o.digest == x.digest) {
      if o.digest == x.digest { GatewayFile(w, g, o, d[x.filename]); }
      p := if o.digest != x.digest then UpdateOf(o, x) else RenameOf(o, x);
      assert NeedsUpdate(w, g, d, o, x) || NeedsRename(w, g, d, o, x);
    } else {
      p := RemoveOf(x);
      assert NeedsRemove(w, g, d, x);
    }
  }

  /** Nothing is pending exactly when the two directories hold the same plugins. */
  lemma NothingPending(w: World, g: Disk, d: Disk)
    requires w.Lawful() && w.IdsIdentify(g)
    ensures (forall p :: !Pending(w, g, d, p)) <==> w.SamePlugins(g, d)
  {
    if x :| w.Has(g, x) && !w.Has(d, x) {
      var p := MissingIsPending(w, g, d, x);
    } else if x :| w.Has(d, x) && !w.Has(g, x) {
      var p := ExtraIsPending(w, g, d, x);
    }
  }

  /** The answers to all pending operations, in whatever order they run, succeed, make the agent's
      plugins exactly the gateway's, and leave nothing pending. */
  lemma AllOrdersConverge(w: World, g: Disk, d: Disk, ops: seq<Patch>, sent: seq<Patch>)
    requires w.Lawful() && Compatible(w, g, d) && ListsPending(w, g, d, ops) && AllAnswer(w, ops, sent)
    ensures Run(w, d, sent).0
    ensures w.SamePlugins(g, Run(w, d, sent).1)
    ensures ListsPending(w, g, Run(w, d, sent).1, [])
  {
    SomeDischarged(w, g, d, ops, sent);
    NothingPending(w, g, Run(w, d, sent).1);
  }
}
