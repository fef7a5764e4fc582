/** The gateway's plugin sync server (pkg/patch/server.go). */
module SyncServer {
  import opened Common
  import opened Manifests
  import opened PluginWorld
  import opened PatchKeys
  import opened CachePaths
  import opened CacheFiles
  import opened PatchCache
  import opened Convergence

  datatype Code = OK | InvalidArgument | Internal

  /** Discovery: every plugin in the directory with its contents, sorted by module in the source; the
      order plays no part here. */
  method GetFilesystemPlugins(w: World, d: Disk) returns (items: seq<ArchiveEntry>)
    ensures w.Lists(d, ToManifest(items))
    ensures forall f :: f in d && "plugin_" <= f && w.moduleOf(d[f]).Some? ==>
              Entry(w.moduleOf(d[f]).value, f, w.digest(d[f])) in ToManifest(items)
    ensures forall e :: e in items ==> "plugin_" <= e.metadata.filename && w.moduleOf(e.data) == Some(e.metadata.id)
    ensures forall e :: e in items ==> e.metadata.filename in d && e.data == d[e.metadata.filename]
                                       && e.metadata.digest == w.digest(e.data)
  {
    items := [];
    var rest := d.Keys;
    while rest != {}
      invariant rest <= d.Keys
      invariant forall e :: e in items ==> e.metadata.filename in d.Keys - rest && w.Has(d, e.metadata)
                                           && e.data == d[e.metadata.filename]
      invariant forall i, j :: 0 <= i < j < |items| ==> items[i].metadata.filename != items[j].metadata.filename
      invariant forall x :: w.Has(d, x) && x.filename !in rest ==> x in ToManifest(items)
    {
      var f :| f in rest;
      rest := rest - {f};
      if w.IsPlugin(f, d[f]) {
        var e := ArchiveEntry(Entry(w.moduleOf(d[f]).value, f, w.digest(d[f])), d[f]);
        ghost var before := items;
        items := items + [e];
        assert ToManifest(items) == ToManifest(before) + [e.metadata];
      }
    }
    forall x ensures x in ToManifest(items) <==> w.Has(d, x) {
      if x in ToManifest(items) {
        var i :| 0 <= i < |items| && ToManifest(items)[i] == x;
        assert items[i] in items;
      }
    }
  }

  function ToManifest(items: seq<ArchiveEntry>): (m: seq<Entry>)
    ensures |m| == |items| && forall i :: 0 <= i < |items| ==> m[i] == items[i].metadata
  {
    seq(|items|, i requires 0 <= i < |items| => items[i].metadata)
  }

  lemma ManifestDigests(items: seq<ArchiveEntry>)
    ensures Digests(ToManifest(items)) == ArchivedDigests(items)
  {
    var m := ToManifest(items);
    forall e | e in items ensures e.metadata in m {
      var i :| 0 <= i < |items| && items[i] == e;
      assert m[i] == e.metadata;
    }
    forall e | e in m ensures e.digest in ArchivedDigests(items) {
      var i :| 0 <= i < |m| && m[i] == e;
      assert items[i] in items;
    }
  }

  /** The digest such an operation names as the old one is a plain name. */
  predicate NamesPlainly(p: Patch) {
    p.op == Update ==> Plain(p.oldDigest)
  }

  predicate Serviceable(w: World, l: Layout, plugins: map<Bytes, Bytes>, p: Patch) {
    && (p.op == Create || p.op == Update ==> Intact(w, plugins, p.newDigest))
    && (p.op == Update ==> l.Usable(p.oldDigest) && (p.oldDigest in plugins ==> Intact(w, plugins, p.oldDigest)))
  }

  lemma StillStored(w: World, f: Files, g: Files, digests: set<Bytes>)
    requires Careful(w, f, g) && g.plugins.Keys <= f.plugins.Keys
    ensures (forall h :: h in f.plugins ==> Intact(w, f.plugins, h)) ==>
              (forall h :: h in g.plugins ==> Intact(w, g.plugins, h)) && (digests <= f.plugins.Keys ==> digests <= g.plugins.Keys)
  {
    if forall h :: h in f.plugins ==> Intact(w, f.plugins, h) {
      forall h | h in f.plugins ensures Intact(w, g.plugins, h) { assert Intact(w, f.plugins, h); }
    }
  }

  lemma StillServiceable(w: World, l: Layout, f: Files, g: Files, p: Patch)
    requires Serviceable(w, l, f.plugins, p) && Careful(w, f, g) && g.plugins.Keys <= f.plugins.Keys
    ensures Serviceable(w, l, g.plugins, p)
  {
  }

  predicate AllPlain(m: seq<Entry>) {
    forall h :: h in Digests(m) ==> Plain(h)
  }

  predicate AllUsable(l: Layout, m: seq<Entry>) {
    forall h :: h in Digests(m) ==> l.Usable(h)
  }

  predicate ValidManifest(m: seq<Entry>) {
    forall e :: e in m ==> e.digest != "" && e.filename != "" && e.id != ""
  }

  class PluginSyncServer {
    const w: World
    const dir: Disk           // the gateway's plugin directory
    const cache: FilesystemCache
    var loaded: bool
    var manifest: seq<Entry>

    constructor (w: World, dir: Disk, cache: FilesystemCache)
      requires cache.w == w
      ensures this.w == w && this.dir == dir && this.cache == cache && !loaded
    {
      this.w, this.dir, this.cache := w, dir, cache;
      loaded, manifest := false, [];
    }

    ghost predicate Valid()
      reads this, cache
    {
      cache.w == w && cache.Valid() && (loaded ==> w.Lists(dir, manifest))
    }

    /** Every plugin of the gateway's manifest is cached, and nothing cached is damaged. */
    ghost predicate Whole()
      reads this, cache
    {
      AllStored() && Digests(manifest) <= cache.plugins.Keys
    }

    /** Nothing is damaged or torn, and nothing of a loaded manifest is missing. */
    ghost predicate Ready()
      reads this, cache
    {
      AllStored() && cache.torn == {} && (loaded ==> Digests(manifest) <= cache.plugins.Keys)
    }

    /** Every cached plugin is undamaged. */
    ghost predicate AllStored()
      reads cache
    {
      forall h :: h in cache.plugins ==> cache.Stored(h)
    }

    /** Loads the manifest and archives the plugins once. */
    method GetPluginManifest() returns (m: seq<Entry>)
      requires Valid()
      modifies this, cache
      ensures Valid() && loaded && m == manifest
      ensures old(loaded) ==> manifest == old(manifest) && cache.plugins == old(cache.plugins)
      ensures !old(loaded) ==> forall e :: e in m ==> cache.Stored(e.digest)
      ensures !old(loaded) && old(AllStored()) ==> Whole()
      ensures old(Ready()) ==> Ready()
      ensures cache.Now() == old(cache.Now()).(plugins := cache.plugins) && cache.torn == old(cache.torn)
      ensures cache.hits == old(cache.hits) && cache.misses == old(cache.misses)
      ensures Careful(w, old(cache.Now()), cache.Now())
      ensures cache.plugins.Keys == old(cache.plugins.Keys) + if old(loaded) then {} else Digests(m)
    {
      if !loaded {
        var items := GetFilesystemPlugins(w, dir);
        cache.Archive(items);
        PutAllStores(w, old(cache.plugins), items);
        ArchivedCareful(w, old(cache.Now()), items);
        manifest := ToManifest(items);
        loaded := true;
        ManifestDigests(items);
        forall e | e in manifest ensures cache.Stored(e.digest) {
          assert e.digest in ArchivedDigests(items);
          var item :| item in items && item.metadata.digest == e.digest;
        }
      }
      m := manifest;
    }

    /** The cache can serve the operation: nothing it needs is damaged or lost, and an old digest is a name. */
    predicate Servable(entry: Patch)
      reads cache
    {
      Serviceable(cache.w, cache.layout, cache.plugins, entry)
    }

    /** The patch for the operation is in the cache only in part. */
    ghost predicate TornFor(entry: Patch)
      reads cache
    {
      entry.op == Update && PatchKey(entry.oldDigest, entry.newDigest) in cache.torn
    }

    /** Sends the new plugin itself, as a Create. */
    method SendWhole(entry: Patch) returns (code: Code, sent: Patch)
      requires Valid() && (entry.op == Create || entry.op == Update) && IsDigest(entry.newDigest)
      modifies cache
      ensures Valid() && code != InvalidArgument
      ensures code == OK ==> Answers(w, entry, sent) && sent.op == Create
      ensures code == OK <==> old(cache.Stored(entry.newDigest))
      ensures Careful(w, old(cache.Now()), cache.Now())
      ensures cache.plugins.Keys <= old(cache.plugins.Keys) && cache.torn <= old(cache.torn)
    {
      PlainDigest(entry.newDigest);
      var data := cache.GetPlugin(entry.newDigest);
      if data.Err? { return Internal, entry; }
      code, sent := OK, entry.(data := data.value, op := Create);
    }

    /** What the cache's answer means for the operation. */
    method AskPatch(entry: Patch, write: WriteOutcome) returns (r: Result<Bytes>)
      requires Valid() && entry.op == Update && IsDigest(entry.newDigest)
      modifies cache
      ensures Valid() && cache.plugins.Keys <= old(cache.plugins.Keys)
      ensures r.Ok? || r == Err(NotExist) ==> cache.torn <= old(cache.torn)
      ensures Plain(entry.oldDigest) ==> Careful(w, old(cache.Now()), cache.Now())
      ensures Plain(entry.oldDigest) && r.Ok? ==>
                !old(Absent(entry)) && (!old(TornFor(entry)) ==> Correct(w, entry.oldDigest, entry.newDigest, r.value))
      ensures Plain(entry.oldDigest) && r == Err(NotExist) ==> old(Absent(entry))
      ensures old(Servable(entry)) && write == Written ==> r.Ok? || r == Err(NotExist)
    {
      if Plain(entry.oldDigest) {
        cache.HitPlain(entry.oldDigest, entry.newDigest);
        MissingPlain(w, cache.layout, cache.Now(), entry.oldDigest, entry.newDigest);
      }
      r := cache.RequestPatch(entry.oldDigest, entry.newDigest, write);
    }

    /** Sends a patch, or the new plugin itself if one end of the patch is not in the cache. If the old digest is a
        plain name, the data is right unless it is a patch that is there only in part, and nothing undamaged is
        lost. */
    method SendPatch(entry: Patch, write: WriteOutcome) returns (code: Code, sent: Patch)
      requires Valid() && entry.op == Update && IsDigest(entry.newDigest)
      modifies cache
      ensures Valid() && code != InvalidArgument
      ensures code == OK ==> Serves(w, entry, sent) && cache.torn <= old(cache.torn)
      ensures code == OK && Plain(entry.oldDigest) && !old(TornFor(entry)) ==> Answers(w, entry, sent)
      ensures Plain(entry.oldDigest) ==> Careful(w, old(cache.Now()), cache.Now())
      ensures code == OK && Plain(entry.oldDigest) ==> (sent.op == Create <==> old(Absent(entry)))
      ensures old(Servable(entry)) && write == Written ==> code == OK
      ensures cache.plugins.Keys <= old(cache.plugins.Keys)
    {
      var patch := AskPatch(entry, write);
      if patch.Ok? {
        return OK, entry.(data := patch.value);
      } else if patch.error == NotExist {
        ghost var left := cache.Now();
        code, sent := SendWhole(entry);
        if Plain(entry.oldDigest) { CarefulTwice(w, old(cache.Now()), left, cache.Now()); }
      } else {
        return Internal, entry;
      }
    }

    /** There is no patch for the operation, and one of the plugins it takes to make one is not there. */
    predicate Absent(entry: Patch)
      reads cache
    {
      && PatchKey(entry.oldDigest, entry.newDigest) !in cache.patches
      && (entry.oldDigest !in cache.plugins || entry.newDigest !in cache.plugins)
    }

    /** Fills in the data of one operation. */
    method FillEntry(entry: Patch, write: WriteOutcome) returns (code: Code, sent: Patch)
      requires Valid() && (entry.op == Create || entry.op == Update ==> IsDigest(entry.newDigest))
      modifies cache
      ensures Valid() && code != InvalidArgument
      ensures code == OK ==> Serves(w, entry, sent) && cache.torn <= old(cache.torn)
      ensures code == OK && NamesPlainly(entry) && !old(TornFor(entry)) ==> Answers(w, entry, sent)
      ensures NamesPlainly(entry) ==> Careful(w, old(cache.Now()), cache.Now())
      ensures code == OK && entry.op == Update && NamesPlainly(entry) ==> (sent.op == Create <==> old(Absent(entry)))
      ensures entry.op != Create && entry.op != Update ==> code == OK
      ensures entry.op == Create ==> (code == OK <==> old(cache.Stored(entry.newDigest)))
      ensures old(Servable(entry)) && write == Written ==> code == OK
      ensures cache.plugins.Keys <= old(cache.plugins.Keys)
    {
      code, sent := OK, entry;
      match entry.op {
        case Create => code, sent := SendWhole(entry);
        case Update => code, sent := SendPatch(entry, write);
        case _ =>
      }
    }

    /** Fills the operations in any order. Every one is tried; the first error is the result. */
    method FillAll(ops: seq<Patch>, writes: Bytes -> WriteOutcome) returns (code: Code, sent: seq<Patch>)
      requires Valid() && forall p :: p in ops && (p.op == Create || p.op == Update) ==> IsDigest(p.newDigest)
      modifies cache
      ensures Valid() && code != InvalidArgument
      ensures code == OK ==> AllServe(w, ops, sent)
      ensures code == OK ==> forall i :: 0 <= i < |ops| && NamesPlainly(ops[i]) && !old(TornFor(ops[i])) ==>
                Answers(w, ops[i], sent[i])
      ensures (forall p :: p in ops ==> NamesPlainly(p)) ==> Careful(w, old(cache.Now()), cache.Now())
      ensures (forall p :: p in ops ==> old(Servable(p))) && AllWritten(writes) ==> code == OK
      ensures cache.plugins.Keys <= old(cache.plugins.Keys) && (code == OK ==> cache.torn <= old(cache.torn))
    {
      code, sent := OK, ops;
      var todo := Below(|ops|);
      ghost var was, start := cache.torn, cache.Now();
      ghost var plain := forall p :: p in ops ==> NamesPlainly(p);
      ghost var whole := (forall p :: p in ops ==> Servable(p)) && AllWritten(writes);
      while todo != {}
        invariant Valid() && |sent| == |ops| && code != InvalidArgument && (forall i :: i in todo ==> 0 <= i < |ops|)
        invariant code == OK ==> cache.torn <= was
        invariant code == OK ==> forall i :: 0 <= i < |ops| && i !in todo ==> Filled(w, ops[i], sent[i], was)
        invariant plain ==> Careful(w, start, cache.Now())
        invariant cache.plugins.Keys <= old(cache.plugins.Keys)
        invariant whole ==> code == OK
        decreases |todo|
      {
        var i :| i in todo;
        todo := todo - {i};
        assert ops[i] in ops;
        ghost var before := cache.Now();
        if whole { StillServiceable(w, cache.layout, start, before, ops[i]); }
        var c, filled := FillEntry(ops[i], writes(ops[i].id));
        if plain { CarefulTwice(w, start, before, cache.Now()); }
        if c == OK {
          sent := sent[i := filled];
        } else if code == OK {
          code := c;
        }
      }
      assert code == OK ==> forall i :: 0 <= i < |ops| ==> Filled(w, ops[i], sent[i], was);
    }

    method Reply(theirs: seq<Entry>, writes: Bytes -> WriteOutcome) returns (code: Code, sent: seq<Patch>, ghost ops: seq<Patch>)
      requires Valid() && loaded
      modifies cache
      ensures Valid() && code != InvalidArgument && Permutes(JoinOps(manifest, theirs), ops)
      ensures code == OK ==> AllServe(w, ops, sent)
      ensures code == OK ==> forall i :: 0 <= i < |ops| && NamesPlainly(ops[i]) && !old(TornFor(ops[i])) ==>
                Answers(w, ops[i], sent[i])
      ensures AllPlain(theirs) ==> Careful(w, old(cache.Now()), cache.Now()) && forall p :: p in ops ==> NamesPlainly(p)
      ensures AllWritten(writes) && (forall p :: p in ops ==> old(Servable(p))) ==> code == OK
      ensures AllWritten(writes) && AllUsable(cache.layout, theirs) && old(Whole()) ==> code == OK
      ensures AllPlain(theirs) && code == OK && old(Ready()) ==> Ready()
    {
      var archive := LeftJoinOn(manifest, theirs);
      ops := archive;
      PermutesMembers(JoinOps(manifest, theirs), ops);
      forall p | p in ops ensures FromManifests(p, theirs) { JoinedDigests(w, dir, manifest, theirs, p); }
      ghost var before := cache.Now();
      code, sent := FillAll(archive, writes);
      if AllPlain(theirs) { StillStored(w, before, cache.Now(), Digests(manifest)); }
    }

    ghost predicate FromManifests(p: Patch, theirs: seq<Entry>)
      reads this
    {
      && (p.op == Create || p.op == Update ==> IsDigest(p.newDigest) && p.newDigest in Digests(manifest))
      && (p.op == Update ==> p.oldDigest in Digests(theirs))
    }

    /** The reply to an agent's manifest: the join of the two manifests. If the agent's digests are plain names, each
        operation has correct data unless its patch is in the cache only in part, and nothing undamaged is lost.
        `writes` says how writing each module's new patch ends. */
    method SyncPluginManifest(theirs: seq<Entry>, writes: Bytes -> WriteOutcome)
      returns (code: Code, sent: seq<Patch>, ghost ops: seq<Patch>)
      requires Valid()
      modifies this, cache
      ensures Valid()
      ensures code == InvalidArgument <==> !ValidManifest(theirs)
      ensures code == InvalidArgument <==> exists e :: e in theirs && (e.digest == "" || e.filename == "" || e.id == "")
      ensures code == InvalidArgument ==> cache.Now() == old(cache.Now())
      ensures code != InvalidArgument ==> loaded && Permutes(JoinOps(manifest, theirs), ops)
      ensures code == OK ==> AllServe(w, ops, sent)
      ensures code == OK && AllPlain(theirs) ==> forall i :: 0 <= i < |ops| && !old(TornFor(ops[i])) ==>
                Answers(w, ops[i], sent[i])
      ensures AllPlain(theirs) ==> Careful(w, old(cache.Now()), cache.Now())
      ensures AllWritten(writes) && old(loaded) && (forall p :: p in ops ==> old(Servable(p))) ==> code != Internal
      ensures AllWritten(writes) && AllUsable(cache.layout, theirs) && old(Ready()) ==> code != Internal
      ensures AllPlain(theirs) && code == OK && old(Ready()) ==> Ready()
      ensures AllWritten(writes) && !old(loaded) && old(AllStored()) && AllUsable(cache.layout, theirs) ==> code != Internal
    {
      ops := [];
      if !ValidManifest(theirs) {
        return InvalidArgument, [], ops;
      }
      var m := GetPluginManifest();
      ghost var loadedFiles := cache.Now();
      code, sent, ops := Reply(theirs, writes);
      if AllPlain(theirs) { CarefulTwice(w, old(cache.Now()), loadedFiles, cache.Now()); }
    }

    /** Afterwards the cached plugins are exactly those cached before (or loaded now) that the gateway or
        some cluster still uses, and the patches exactly those whose two ends survived. */
    method RunGarbageCollection(clusters: seq<map<Bytes, Bytes>>)
      requires Valid()
      modifies this, cache
      ensures Valid() && loaded
      ensures var keep := DigestsToKeep(manifest, clusters);
        && cache.plugins.Keys == (old(cache.plugins.Keys) + if old(loaded) then {} else Digests(manifest)) * keep
        && cache.patches == Untouched(old(cache.patches), old(cache.plugins.Keys) - keep)
        && cache.torn == old(cache.torn) * cache.patches.Keys
      ensures old(Linked(cache.Now())) ==> Linked(cache.Now())
      ensures forall c, k :: c in clusters && k in c && c[k] in old(cache.plugins.Keys) ==> c[k] in cache.plugins.Keys
      ensures forall h :: h in old(cache.plugins.Keys) ==>
                (h !in cache.plugins.Keys <==> (forall e :: e in manifest ==> e.digest != h)
                                               && (forall c, k :: c in clusters && k in c ==> c[k] != h))
    {
      var m := GetPluginManifest();
      var digestsToKeep := CollectDigests(m, clusters);
      ghost var added := if old(loaded) then {} else Digests(manifest);
      UnwantedBefore(old(cache.plugins.Keys), added, digestsToKeep);
      CleanExcept(digestsToKeep);
      KeptAfter(old(cache.plugins.Keys), added, cache.plugins.Keys, m, clusters);
    }

    method CleanExcept(digestsToKeep: set<Bytes>)
      requires Valid()
      modifies cache
      ensures Valid()
      ensures cache.plugins.Keys == old(cache.plugins.Keys) * digestsToKeep
      ensures cache.patches == Untouched(old(cache.patches), old(cache.plugins.Keys) - digestsToKeep)
      ensures cache.torn == old(cache.torn) * cache.patches.Keys
      ensures old(Linked(cache.Now())) ==> Linked(cache.Now())
    {
      var curDigests := cache.ListDigests();
      var toClean := Unwanted(curDigests, digestsToKeep);
      assert Elems(toClean) == old(cache.plugins.Keys) - digestsToKeep;
      cache.Clean(toClean);
    }
  }

  ghost predicate AllWritten(writes: Bytes -> WriteOutcome) {
    forall id :: writes(id) == Written
  }

  ghost predicate Filled(w: World, p: Patch, q: Patch, torn: set<Bytes>) {
    && Serves(w, p, q)
    && (NamesPlainly(p) && (p.op != Update || PatchKey(p.oldDigest, p.newDigest) !in torn) ==> Answers(w, p, q))
  }

  method CollectDigests(m: seq<Entry>, clusters: seq<map<Bytes, Bytes>>) returns (digestsToKeep: set<Bytes>)
    ensures digestsToKeep == DigestsToKeep(m, clusters)
    ensures (forall e :: e in m ==> e.digest in digestsToKeep)
            && (forall c, k :: c in clusters && k in c ==> c[k] in digestsToKeep)
    ensures forall h :: h in digestsToKeep ==> (exists e :: e in m && e.digest == h) || (exists c, k :: c in clusters && k in c && c[k] == h)
  {
    digestsToKeep := Digests(m);
    for i := 0 to |clusters|
      invariant digestsToKeep == DigestsToKeep(m, clusters[..i])
    {
      digestsToKeep := digestsToKeep + clusters[i].Values;
      assert clusters[..i + 1] == clusters[..i] + [clusters[i]];
    }
    assert clusters[..|clusters|] == clusters;
    forall h { KeptMeans(m, clusters, h); }
  }

  method Unwanted(curDigests: seq<Bytes>, digestsToKeep: set<Bytes>) returns (toClean: seq<Bytes>)
    ensures Elems(toClean) == Elems(curDigests) - digestsToKeep
    ensures forall h :: h in toClean ==> h in curDigests
  {
    toClean := [];
    for i := 0 to |curDigests|
      invariant Elems(toClean) == Elems(curDigests[..i]) - digestsToKeep
    {
      ElemsAppend(toClean, curDigests[i]);
      ElemsAppend(curDigests[..i], curDigests[i]);
      if curDigests[i] !in digestsToKeep {
        toClean := toClean + [curDigests[i]];
      }
      assert curDigests[..i + 1] == curDigests[..i] + [curDigests[i]];
    }
    assert curDigests[..|curDigests|] == curDigests;
    assert forall h :: h in toClean ==> h in Elems(toClean);
  }

  lemma UnwantedBefore(before: set<Bytes>, added: set<Bytes>, keep: set<Bytes>)
    requires added <= keep
    ensures (before + added) - keep == before - keep
  {
  }

  function DigestsToKeep(m: seq<Entry>, clusters: seq<map<Bytes, Bytes>>): set<Bytes> {
    Digests(m) + set c, h | c in clusters && h in c.Values :: h
  }

  /** The digests kept are those of the manifest and those some cluster was last known to have. */
  lemma KeptMeans(m: seq<Entry>, clusters: seq<map<Bytes, Bytes>>, h: Bytes)
    ensures h !in DigestsToKeep(m, clusters) <==>
            (forall e :: e in m ==> e.digest != h) && (forall c, k :: c in clusters && k in c ==> c[k] != h)
  {
    forall c, k | c in clusters && k in c ensures c[k] in DigestsToKeep(m, clusters) {
      assert c[k] in c.Values;
    }
    if h in DigestsToKeep(m, clusters) && h !in Digests(m) {
      var c :| c in clusters && h in c.Values;
      var k :| k in c && c[k] == h;
    }
  }

  lemma KeptAfter(before: set<Bytes>, added: set<Bytes>, after: set<Bytes>, m: seq<Entry>, clusters: seq<map<Bytes, Bytes>>)
    requires after == (before + added) * DigestsToKeep(m, clusters)
    ensures forall c, k :: c in clusters && k in c && c[k] in before ==> c[k] in after
    ensures forall h :: h in before ==>
              (h !in after <==> (forall e :: e in m ==> e.digest != h) && (forall c, k :: c in clusters && k in c ==> c[k] != h))
  {
    forall h | h in before
      ensures h !in after <==> (forall e :: e in m ==> e.digest != h) && (forall c, k :: c in clusters && k in c ==> c[k] != h)
    {
      KeptMeans(m, clusters, h);
    }
  }

  lemma JoinedDigests(w: World, dir: Disk, ours: seq<Entry>, theirs: seq<Entry>, p: Patch)
    requires w.Lawful() && w.Lists(dir, ours) && p in JoinOps(ours, theirs)
    ensures p.op == Create || p.op == Update ==> IsDigest(p.newDigest) && p.newDigest in Digests(ours)
    ensures p.op == Update ==> p.oldDigest in Digests(theirs)
  {
    EmittedDiffers(ours, theirs, p);
  }
}
