/** A world that meets the assumptions, and directories for which sync does not converge. */
module SyncExamples {
  import opened Common
  import opened Manifests
  import opened PluginWorld
  import opened PatchClient
  import opened Convergence
  import opened Necessity
  import opened PatchSteps
  import opened Retry

  /** Each character as that many ones and a zero. */
  function Unary(b: Bytes): Bytes {
    if b == "" then "" else seq(b[0] as int, _ => '1') + "0" + Unary(b[1..])
  }

  lemma {:induction false} UnaryInjective(a: Bytes, b: Bytes)
    requires Unary(a) == Unary(b)
    ensures a == b
  {
    if a == "" || b == "" {
      assert a != "" ==> |Unary(a)| > 0;
      assert b != "" ==> |Unary(b)| > 0;
    } else {
      var u, m, n := Unary(a), a[0] as int, b[0] as int;
      assert u[m] == '0' && u[n] == '0';
      assert forall i :: 0 <= i < m ==> u[i] == '1';
      assert forall i :: 0 <= i < n ==> u[i] == '1';
      assert m == n;
      assert u[m + 1..] == Unary(a[1..]) && u[m + 1..] == Unary(b[1..]);
      UnaryInjective(a[1..], b[1..]);
      assert a == [a[0]] + a[1..] && b == [b[0]] + b[1..];
    }
  }

  lemma {:induction false} UnaryHex(b: Bytes)
    ensures forall i :: 0 <= i < |Unary(b)| ==> Unary(b)[i] in "01"
  {
    if b != "" { UnaryHex(b[1..]); }
  }

  /** A patch is simply the new file, and nothing is compressed. */
  function Toy(moduleOf: Bytes -> Option<Bytes>): World {
    World(b => "f" + Unary(b), moduleOf, b => true, (a, b) => b, (a, p) => Some(p), b => b, b => Some(b))
  }

  /** A plugin's module is its first character, or its last. */
  const TOY: World := Toy(b => if b == "" then None else Some(b[..1]))
  const TAIL: World := Toy(b => if b == "" then None else Some(b[|b| - 1..]))

  lemma ToyLawful(moduleOf: Bytes -> Option<Bytes>)
    ensures Toy(moduleOf).Lawful()
  {
    var w := Toy(moduleOf);
    forall a, b | w.digest(a) == w.digest(b) ensures a == b {
      assert ("f" + Unary(a))[1..] == Unary(a) && ("f" + Unary(b))[1..] == Unary(b);
      UnaryInjective(a, b);
    }
    forall a ensures IsDigest(w.digest(a)) {
      UnaryHex(a);
    }
  }

  lemma OneFile(name: Bytes, content: Bytes)
    requires "plugin_" <= name && content != ""
    ensures TOY.Lists(map[name := content], [Entry(content[..1], name, TOY.digest(content))])
    ensures TOY.IdsIdentify(map[name := content])
  {
  }

  /** A module whose contents and file name both changed: the update looks for the old contents under
      the new name, so sync does not converge. */
  lemma ChangedAndRenamed(name: Bytes, content: Bytes, newName: Bytes, newContent: Bytes)
    requires "plugin_" <= name && "plugin_" <= newName && name != newName
    requires content != "" && newContent != "" && content[..1] == newContent[..1] && content != newContent
    ensures TOY.Lawful()
    ensures TOY.IdsIdentify(map[newName := newContent]) && TOY.IdsIdentify(map[name := content])
    ensures !Converges(TOY, map[newName := newContent], map[name := content])
  {
    ToyLawful(TOY.moduleOf);
    var g, d := map[newName := newContent], map[name := content];
    OneFile(newName, newContent);
    OneFile(name, content);
    var o, a := Entry(newContent[..1], newName, TOY.digest(newContent)), Entry(content[..1], name, TOY.digest(content));
    ConvergesIffCompatible(TOY, g, d, [o], [a]);
    assert o in [o] && a in [a];
    assert !NoClash(d, o, a);
  }

  const NEW_ENTRY := Entry("y", "plugin_a", TAIL.digest("xy"))
  const NEW_PATCH := CreateOf(NEW_ENTRY).(data := "xy")

  /** A new plugin of which one byte has been written. */
  function HalfWritten(): seq<State> {
    [State(map[], [Ready]), State(map["plugin_a" := ""], [Writing(0)]), State(map["plugin_a" := "x"], [Writing(1)])]
  }

  lemma NewPluginSetup()
    ensures Setup(TAIL, map["plugin_a" := "xy"], map[], [CreateOf(NEW_ENTRY)], [NEW_PATCH])
  {
    ToyLawful(TAIL.moduleOf);
    var g: Disk, d: Disk, op := map["plugin_a" := "xy"], map[], CreateOf(NEW_ENTRY);
    assert "xy"[1..] == "y";
    forall e | TAIL.Has(g, e) ensures e == NEW_ENTRY { }
    assert TAIL.Has(g, NEW_ENTRY);
    assert NeedsCreate(TAIL, g, d, NEW_ENTRY);
    forall p ensures p in [op] <==> Pending(TAIL, g, d, p) { }
    assert Answers(TAIL, op, NEW_PATCH);
  }

  lemma HalfWrittenRun()
    ensures IsRun(TAIL, map[], [NEW_PATCH], HalfWritten())
  {
    var sent, run := [NEW_PATCH], HalfWritten();
    assert run[0] == Init(map[], sent);
    assert run[1].disk == run[0].disk["plugin_a" := ""] && run[1].pcs == run[0].pcs[0 := Writing(0)];
    assert Advance(TAIL, sent, run[0], run[1], 0);
    assert "xy"[..1] == "x";
    assert run[2].disk == run[1].disk["plugin_a" := NEW_PATCH.data[..1]] && run[2].pcs == run[1].pcs[0 := Writing(1)];
    assert Advance(TAIL, sent, run[1], run[2], 0);
  }

  /** A file torn while being written can be taken for a plugin of another module, and then the directories are
      not compatible any more. */
  lemma TornFileClashes()
    ensures TAIL.Lawful()
    ensures Setup(TAIL, map["plugin_a" := "xy"], map[], [CreateOf(NEW_ENTRY)], [NEW_PATCH])
    ensures IsRun(TAIL, map[], [NEW_PATCH], HalfWritten())
    ensures !Compatible(TAIL, map["plugin_a" := "xy"], HalfWritten()[2].disk)
  {
    NewPluginSetup();
    HalfWrittenRun();
    var s := HalfWritten()[2];
    assert "x"[0..] == "x" && TAIL.moduleOf("x") == Some("x");
    assert !Benign(TAIL, CreateOf(NEW_ENTRY), "x");
    assert Torn(s.pcs[0]) && s.disk[[NEW_PATCH][0].filename] == "x" && [CreateOf(NEW_ENTRY)][0] == CreateOf(NEW_ENTRY);
    assert !AllBenign(TAIL, [CreateOf(NEW_ENTRY)], [NEW_PATCH], s);
    CompatibleIffBenign(TAIL, map["plugin_a" := "xy"], map[], [CreateOf(NEW_ENTRY)], [NEW_PATCH], HalfWritten(), 2);
  }
}
