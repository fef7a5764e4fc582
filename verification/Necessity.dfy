/** Compatibility is not only enough for convergence but needed for it: without it some order of the
    operations fails or leaves the agent with the wrong plugins. */
module Necessity {
  import opened Common
  import opened Manifests
  import opened PluginWorld
  import opened PatchClient
  import opened Convergence

  /** However the pending operations are ordered and correctly answered, they all succeed and give the agent
      the gateway's plugins. */
  ghost predicate Converges(w: World, g: Disk, d: Disk) {
    forall ops, sent :: ListsPending(w, g, d, ops) && AllAnswer(w, ops, sent) ==>
      Run(w, d, sent).0 && w.SamePlugins(g, Run(w, d, sent).1)
  }

  ghost predicate SameKinds(ops: seq<Patch>, sent: seq<Patch>) {
    |sent| == |ops| && forall i :: 0 <= i < |ops| ==> sent[i].op == ops[i].op
  }

  /** Correct data for a pending operation. */
  ghost function Serve(w: World, g: Disk, p: Patch): Patch
    requires p.op == Update ==> exists c :: w.digest(c) == p.oldDigest
    requires p.op == Create || p.op == Update ==> p.filename in g
  {
    match p.op
    case Create => p.(data := g[p.filename])
    case Update => var c :| w.digest(c) == p.oldDigest; p.(data := w.generate(c, g[p.filename]))
    case _ => p
  }

  ghost predicate Servable(w: World, g: Disk, p: Patch) {
    && (p.op == Update ==> exists c :: w.digest(c) == p.oldDigest)
    && (p.op == Create || p.op == Update ==> p.filename in g && w.digest(g[p.filename]) == p.newDigest)
  }

  lemma PendingServable(w: World, g: Disk, d: Disk, p: Patch)
    requires Pending(w, g, d, p)
    ensures Servable(w, g, p)
  {
    if p.op == Update {
      var o, a :| NeedsUpdate(w, g, d, o, a) && p == UpdateOf(o, a);
      assert w.digest(d[a.filename]) == p.oldDigest;
    }
  }

  lemma ServeAnswers(w: World, g: Disk, p: Patch)
    requires w.Lawful() && Servable(w, g, p)
    ensures Answers(w, p, Serve(w, g, p)) && Serve(w, g, p).op == p.op
  {
  }

  lemma ServeAll(w: World, g: Disk, d: Disk, ops: seq<Patch>) returns (sent: seq<Patch>)
    requires w.Lawful() && ListsPending(w, g, d, ops)
    ensures AllAnswer(w, ops, sent) && SameKinds(ops, sent)
  {
    forall i | 0 <= i < |ops| ensures Servable(w, g, ops[i]) {
      assert ops[i] in ops;
      PendingServable(w, g, d, ops[i]);
    }
    sent := seq(|ops|, i requires 0 <= i < |ops| => Serve(w, g, ops[i]));
    forall i | 0 <= i < |ops| ensures Answers(w, ops[i], sent[i]) && sent[i].op == ops[i].op {
      ServeAnswers(w, g, ops[i]);
    }
  }

  lemma ReorderedLists(w: World, g: Disk, d: Disk, ops: seq<Patch>, t: seq<Patch>)
    requires ListsPending(w, g, d, ops) && Permutes(ops, t)
    ensures ListsPending(w, g, d, t)
  {
    PermutesMembers(ops, t);
    PermutesNoDup(ops, t);
  }

  /** If everything converges, an operation run first succeeds. */
  lemma FirstSucceeds(w: World, g: Disk, d: Disk, ops: seq<Patch>, p: Patch) returns (q: Patch)
    requires w.Lawful() && Converges(w, g, d) && ListsPending(w, g, d, ops) && Pending(w, g, d, p)
    ensures Answers(w, p, q) && q.op == p.op && Apply(w, d, q).0 == OK
  {
    assert p in ops;
    var rest := Others(ops, p);
    var t := [p] + rest;
    ReorderedLists(w, g, d, ops, t);
    var sent := ServeAll(w, g, d, t);
    assert Run(w, d, sent).0;
    q := sent[0];
    assert Answers(w, t[0], sent[0]);
  }

  lemma Others(ops: seq<Patch>, p: Patch) returns (rest: seq<Patch>)
    requires p in ops
    ensures Permutes(ops, [p] + rest) && Permutes(ops, rest + [p])
  {
    var i :| 0 <= i < |ops| && ops[i] == p;
    rest := Without(ops, i);
    assert multiset([p] + rest) == multiset{p} + multiset(rest);
    assert multiset(rest + [p]) == multiset(rest) + multiset{p};
  }

  lemma {:induction false} RunAppend(w: World, d: Disk, s: seq<Patch>, q: Patch)
    ensures Run(w, d, s + [q]) ==
            var (ok, d') := Run(w, d, s); var (code, d'') := Apply(w, d', q); (ok && code == OK, d'')
    decreases |s|
  {
    if s == [] {
      assert s + [q] == [q];
    } else {
      assert (s + [q])[1..] == s[1..] + [q];
      RunAppend(w, Apply(w, d, s[0]).1, s[1..], q);
    }
  }

  /** If everything converges, an operation run last succeeds on some directory and leaves the agent converged. */
  lemma LastConverges(w: World, g: Disk, d: Disk, ops: seq<Patch>, p: Patch) returns (q: Patch, before: Disk)
    requires w.Lawful() && Converges(w, g, d) && ListsPending(w, g, d, ops) && Pending(w, g, d, p)
    ensures Answers(w, p, q) && q.op == p.op
    ensures Apply(w, before, q).0 == OK && w.SamePlugins(g, Apply(w, before, q).1)
  {
    assert p in ops;
    var rest := Others(ops, p);
    var t := rest + [p];
    ReorderedLists(w, g, d, ops, t);
    var sent := ServeAll(w, g, d, t);
    q, before := ConvergedLast(w, g, d, t, sent);
  }

  lemma ConvergedLast(w: World, g: Disk, d: Disk, t: seq<Patch>, sent: seq<Patch>) returns (q: Patch, before: Disk)
    requires Converges(w, g, d) && ListsPending(w, g, d, t) && AllAnswer(w, t, sent) && SameKinds(t, sent)
    requires |t| > 0
    ensures Answers(w, t[|t| - 1], q) && q.op == t[|t| - 1].op
    ensures Apply(w, before, q).0 == OK && w.SamePlugins(g, Apply(w, before, q).1)
  {
    var n := |sent| - 1;
    assert Run(w, d, sent).0 && w.SamePlugins(g, Run(w, d, sent).1);
    assert sent == sent[..n] + [sent[n]];
    RunAppend(w, d, sent[..n], sent[n]);
    q, before := sent[n], Run(w, d, sent[..n]).1;
  }

  lemma SameFileSameEntry(w: World, d: Disk, a: Entry, b: Entry)
    requires w.Has(d, a) && w.Has(d, b) && a.filename == b.filename
    ensures a == b
  {
  }

  /** Update looks for the old contents under the gateway's file name. */
  lemma UpdateKeepsName(w: World, g: Disk, d: Disk, ops: seq<Patch>, o: Entry, a: Entry)
    requires w.Lawful() && w.IdsIdentify(d) && Converges(w, g, d) && ListsPending(w, g, d, ops)
    requires NeedsUpdate(w, g, d, o, a)
    ensures a.filename == o.filename
  {
    assert Pending(w, g, d, UpdateOf(o, a));
    var q := FirstSucceeds(w, g, d, ops, UpdateOf(o, a));
    assert o.filename in d && w.digest(d[o.filename]) == a.digest;
    assert w.Has(d, Entry(a.id, o.filename, a.digest));
  }

  lemma RenameTargetFree(w: World, g: Disk, d: Disk, ops: seq<Patch>, o: Entry, a: Entry)
    requires w.Lawful() && Converges(w, g, d) && ListsPending(w, g, d, ops) && NeedsRename(w, g, d, o, a)
    ensures o.filename !in d
  {
    assert Pending(w, g, d, RenameOf(o, a));
    var q := FirstSucceeds(w, g, d, ops, RenameOf(o, a));
  }

  /** A file the gateway wants for one id cannot be the one another operation takes away. */
  lemma FileNotTaken(w: World, g: Disk, d: Disk, ops: seq<Patch>, o: Entry, p: Patch)
    requires w.Lawful() && Converges(w, g, d) && ListsPending(w, g, d, ops) && w.Has(g, o)
    requires Pending(w, g, d, p) && p.filename == o.filename
    ensures p.op != Remove
    ensures p.op == Rename ==> p.data == o.filename
  {
    if p.op == Remove || (p.op == Rename && p.data != o.filename) {
      var q, before := LastConverges(w, g, d, ops, p);
    }
  }

  lemma NoForeignFile(w: World, g: Disk, d: Disk, ops: seq<Patch>, o: Entry, a: Entry)
    requires w.Lawful() && w.IdsIdentify(g) && w.IdsIdentify(d) && Converges(w, g, d) && ListsPending(w, g, d, ops)
    requires w.Has(g, o) && w.Has(d, a) && a.filename == o.filename
    ensures a.id == o.id
  {
    if a.id != o.id {
      if o' :| w.Has(g, o') && o'.id == a.id {
        if o'.filename == a.filename {
          SameFileSameEntry(w, g, o, o');
        } else if o'.digest != a.digest {
          UpdateKeepsName(w, g, d, ops, o', a);
        } else {
          assert NeedsRename(w, g, d, o', a);
          FileNotTaken(w, g, d, ops, o, RenameOf(o', a));
        }
      } else {
        assert w.Lawful();
        assert NeedsRemove(w, g, d, a);
        FileNotTaken(w, g, d, ops, o, RemoveOf(a));
      }
    }
  }

  /** Sync converges in every order exactly when the directories are compatible. The manifests are
      those discovery reports; ids identify plugins within each directory. */
  lemma ConvergesIffCompatible(w: World, g: Disk, d: Disk, gm: seq<Entry>, dm: seq<Entry>)
    requires w.Lawful() && w.IdsIdentify(g) && w.IdsIdentify(d)
    requires w.Lists(g, gm) && w.Lists(d, dm)
    ensures Converges(w, g, d) <==> Compatible(w, g, d)
  {
    var ops := JoinOps(gm, dm);
    JoinListsPending(w, g, d, gm, dm, ops);
    if Compatible(w, g, d) {
      forall ops, sent | ListsPending(w, g, d, ops) && AllAnswer(w, ops, sent)
        ensures Run(w, d, sent).0 && w.SamePlugins(g, Run(w, d, sent).1)
      {
        AllOrdersConverge(w, g, d, ops, sent);
      }
    }
    if Converges(w, g, d) {
      forall o, a | w.Has(g, o) && w.Has(d, a) ensures NoClash(d, o, a) {
        if a.id == o.id && a.digest != o.digest { UpdateKeepsName(w, g, d, ops, o, a); }
        if a.filename == o.filename { NoForeignFile(w, g, d, ops, o, a); }
        if a.id == o.id && a.digest == o.digest && a.filename != o.filename { RenameTargetFree(w, g, d, ops, o, a); }
      }
    }
  }
}
