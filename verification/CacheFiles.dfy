/** The files of the gateway's cache (pkg/patch/filesystem.go), and what cleaning and archiving do to them. */
module CacheFiles {
  import opened Common
  import opened Manifests
  import opened PluginWorld
  import opened PatchKeys
  import opened CachePaths
  import opened Text

  datatype Error = NotExist | Corrupted | NotWritten | Unreadable

  datatype Result<+T> = Ok(value: T) | Err(error: Error)

  datatype ArchiveEntry = ArchiveEntry(metadata: Entry, data: Bytes)

  /** A patch file name built from two digests, and the digests it was built from. */
  predicate IsKey(k: Bytes) {
    var i := Dash(k);
    i + 4 <= |k| && k[i..i + 4] == "-to-" && IsDigest(k[..i]) && IsDigest(k[i + 4..])
  }

  function From(k: Bytes): Bytes
    requires IsKey(k)
  {
    k[..Dash(k)]
  }

  function To(k: Bytes): Bytes
    requires IsKey(k)
  {
    k[Dash(k) + 4..]
  }

  lemma KeyParts(o: Bytes, n: Bytes)
    requires IsDigest(o) && IsDigest(n)
    ensures IsKey(PatchKey(o, n)) && From(PatchKey(o, n)) == o && To(PatchKey(o, n)) == n
  {
    var k := PatchKey(o, n);
    DigestPlain(o);
    assert k == o + ("-to-" + n);
    DashAt(o, "-to-" + n);
    assert k[..|o|] == o && k[|o| + 4..] == n && k[|o|..|o| + 4] == "-to-";
  }

  lemma KeyWhole(k: Bytes)
    requires IsKey(k)
    ensures k == PatchKey(From(k), To(k))
  {
    var i := Dash(k);
    assert k == k[..i] + k[i..i + 4] + k[i + 4..];
  }

  /** The data turns contents with digest o into contents with digest n. */
  ghost predicate Correct(w: World, o: Bytes, n: Bytes, data: Bytes) {
    && w.isPatch(data)
    && forall c :: w.digest(c) == o ==> w.apply(c, data).Some? && w.digest(w.apply(c, data).value) == n
  }

  lemma GeneratedCorrect(w: World, a: Bytes, b: Bytes)
    requires w.Lawful()
    ensures Correct(w, w.digest(a), w.digest(b), w.generate(a, b))
  {
  }

  // ------------------------------------------------- the files

  /** The regular files: those in the cache's two directories, by name, and any others. */
  datatype Files = Files(plugins: map<Bytes, Bytes>, patches: map<Bytes, Bytes>, others: map<Path, Bytes>)

  function Contents(l: Layout, f: Files, p: Path): Option<Bytes> {
    if l.InPlugins(p) then (if p[|l.root| + 1] in f.plugins then Some(f.plugins[p[|l.root| + 1]]) else None)
    else if l.InPatches(p) then (if p[|l.root| + 1] in f.patches then Some(f.patches[p[|l.root| + 1]]) else None)
    else if p in f.others then Some(f.others[p]) else None
  }

  lemma ContentsIn(l: Layout, f: Files, name: Bytes)
    ensures Contents(l, f, l.PluginPath(name)) == if name in f.plugins then Some(f.plugins[name]) else None
    ensures Contents(l, f, l.PatchPath(name)) == if name in f.patches then Some(f.patches[name]) else None
  {
    assert l.PluginPath(name)[..|l.root|] == l.root && l.PatchPath(name)[..|l.root|] == l.root;
  }

  /** The cache invariant. Plugin files are named by digests; each patch file is a correct patch, unless its
      writing was broken off: then it is a part of one. The contents of plugin files are not constrained: they
      may have been damaged from outside at any time. */
  ghost predicate Sound(w: World, l: Layout, f: Files, torn: set<Bytes>) {
    && w.Lawful() && l.Good()
    && (forall h :: h in f.plugins ==> IsDigest(h))
    && torn <= f.patches.Keys
    && (forall k :: k in f.patches ==> PatchOk(w, k, f.patches[k], k in torn))
    && (forall p :: p in f.others ==> !l.InPlugins(p) && !l.InPatches(p))
  }

  ghost predicate PatchOk(w: World, k: Bytes, data: Bytes, cut: bool) {
    IsKey(k) && if cut then exists whole :: PartOf(w, k, data, whole) else Correct(w, From(k), To(k), data)
  }

  ghost predicate PartOf(w: World, k: Bytes, data: Bytes, whole: Bytes)
    requires IsKey(k)
  {
    data < whole && Correct(w, From(k), To(k), whole)
  }

  /** Both ends of every patch are there. */
  predicate Linked(f: Files) {
    forall k :: k in f.patches && IsKey(k) ==> From(k) in f.plugins && To(k) in f.plugins
  }

  /** What is left of the patches when everything touching the given digests is removed. */
  function Untouched(patches: map<Bytes, Bytes>, gone: set<Bytes>): map<Bytes, Bytes> {
    map k | k in patches && !(IsKey(k) && (From(k) in gone || To(k) in gone)) :: patches[k]
  }

  lemma UntouchedTwice(patches: map<Bytes, Bytes>, gone: set<Bytes>, h: Bytes)
    ensures Untouched(Untouched(patches, gone), {h}) == Untouched(patches, gone + {h})
  {
  }

  lemma KeepsInter(torn: set<Bytes>, keys: set<Bytes>, fewer: set<Bytes>)
    requires fewer <= keys
    ensures (torn * keys) * fewer == torn * fewer
  {
  }

  /** The plugin with this digest is in the cache, undamaged. */
  predicate Intact(w: World, plugins: map<Bytes, Bytes>, h: Bytes) {
    h in plugins && w.decompress(plugins[h]).Some? && w.digest(w.decompress(plugins[h]).value) == h
  }

  lemma UntouchedSound(w: World, l: Layout, f: Files, torn: set<Bytes>, hash: Bytes)
    requires Sound(w, l, f, torn)
    ensures var g := Files(f.plugins - {hash}, Untouched(f.patches, {hash}), f.others);
            Sound(w, l, g, torn * g.patches.Keys) && (Linked(f) ==> Linked(g))
  {
    var g := Files(f.plugins - {hash}, Untouched(f.patches, {hash}), f.others);
    forall k | k in g.patches ensures PatchOk(w, k, g.patches[k], k in torn * g.patches.Keys) {
      assert PatchOk(w, k, f.patches[k], k in torn);
    }
  }

  // ------------------------------------------------- cleaning

  /** Cleaning a name removes the file it leads to as a plugin, and whatever the two globs made of it match. */
  predicate Gone(l: Layout, name: Bytes, p: Path) {
    || p == Resolve(l.Plugins(), name)
    || MatchPath(Resolve(l.Patches(), "*-to-" + name), p)
    || MatchPath(Resolve(l.Patches(), name + "-to-*"), p)
  }

  function Sweep(l: Layout, f: Files, name: Bytes): Files {
    Files(map n | n in f.plugins && !Gone(l, name, l.PluginPath(n)) :: f.plugins[n],
          map k | k in f.patches && !Gone(l, name, l.PatchPath(k)) :: f.patches[k],
          map p | p in f.others && !Gone(l, name, p) :: f.others[p])
  }

  lemma SweepContents(l: Layout, f: Files, name: Bytes, p: Path)
    requires forall q :: q in f.others ==> !l.InPlugins(q) && !l.InPatches(q)
    ensures Contents(l, Sweep(l, f, name), p) == if Gone(l, name, p) then None else Contents(l, f, p)
  {
    if l.InPlugins(p) {
      assert p == l.PluginPath(p[|l.root| + 1]);
    } else if l.InPatches(p) {
      assert p == l.PatchPath(p[|l.root| + 1]);
    }
  }

  lemma CleanDirs(l: Layout)
    requires l.Good()
    ensures CachePaths.Clean(l.Plugins()) && CachePaths.Clean(l.Patches())
  {
  }

  lemma PlainDigest(h: Bytes)
    requires IsDigest(h)
    ensures Plain(h) && Plain("*-to-" + h) && Plain(h + "-to-*")
  {
    DigestPlain(h);
    assert h[0] in "0123456789abcdef" && h[0] != '.';
  }

  /** For a digest the globs are patterns for patch files alone. */
  lemma DigestPatterns(l: Layout, h: Bytes)
    requires l.Good() && IsDigest(h)
    ensures Resolve(l.Plugins(), h) == l.PluginPath(h)
    ensures Resolve(l.Patches(), "*-to-" + h) == l.PatchPath("*-to-" + h)
    ensures Resolve(l.Patches(), h + "-to-*") == l.PatchPath(h + "-to-*")
  {
    CleanDirs(l);
    PlainDigest(h);
    ResolvesToItself(l.Plugins(), h);
    ResolvesToItself(l.Patches(), "*-to-" + h);
    ResolvesToItself(l.Patches(), h + "-to-*");
    assert l.Plugins() + [h] == l.PluginPath(h);
    assert l.Patches() + ["*-to-" + h] == l.PatchPath("*-to-" + h);
    assert l.Patches() + [h + "-to-*"] == l.PatchPath(h + "-to-*");
  }

  lemma PatchPattern(l: Layout, pattern: Bytes, p: Path)
    requires l.Good()
    ensures MatchPath(l.PatchPath(pattern), p) <==> l.InPatches(p) && Match(pattern, p[|l.root| + 1])
  {
    assert l.PatchPath(pattern)[..|l.root|] == l.root;
    if |p| == |l.root| + 2 { RootMatches(l, l.PatchPath(pattern), p); }
  }

  /** Cleaning a digest removes its plugin and exactly the patches touching it. */
  lemma SweepDigest(w: World, l: Layout, f: Files, torn: set<Bytes>, h: Bytes)
    requires Sound(w, l, f, torn) && IsDigest(h)
    ensures Sweep(l, f, h) == Files(f.plugins - {h}, Untouched(f.patches, {h}), f.others)
  {
    forall n | n in f.plugins ensures Gone(l, h, l.PluginPath(n)) <==> n == h { GonePlugin(l, h, n); }
    forall k | k in f.patches ensures IsKey(k) && (Gone(l, h, l.PatchPath(k)) <==> From(k) == h || To(k) == h) {
      assert PatchOk(w, k, f.patches[k], k in torn);
      GonePatch(l, h, k);
    }
    forall p | p in f.others ensures !Gone(l, h, p) { GoneOther(l, h, p); }
    SweepBy(l, f, h);
  }

  lemma SweepBy(l: Layout, f: Files, h: Bytes)
    requires forall n :: n in f.plugins ==> (Gone(l, h, l.PluginPath(n)) <==> n == h)
    requires forall k :: k in f.patches ==> IsKey(k) && (Gone(l, h, l.PatchPath(k)) <==> From(k) == h || To(k) == h)
    requires forall p :: p in f.others ==> !Gone(l, h, p)
    ensures Sweep(l, f, h) == Files(f.plugins - {h}, Untouched(f.patches, {h}), f.others)
  {
    var g := Sweep(l, f, h);
    assert g.plugins == f.plugins - {h};
    assert g.patches == Untouched(f.patches, {h});
    assert g.others == f.others;
  }

  lemma GonePlugin(l: Layout, h: Bytes, n: Bytes)
    requires l.Good() && IsDigest(h)
    ensures Gone(l, h, l.PluginPath(n)) <==> n == h
  {
    DigestPatterns(l, h);
    PatchPattern(l, "*-to-" + h, l.PluginPath(n));
    PatchPattern(l, h + "-to-*", l.PluginPath(n));
    assert l.PluginPath(n)[|l.root|] == "plugins" && l.PluginPath(n)[|l.root| + 1] == n && l.PluginPath(h)[|l.root| + 1] == h;
  }

  lemma GonePatch(l: Layout, h: Bytes, k: Bytes)
    requires l.Good() && IsDigest(h) && IsKey(k)
    ensures Gone(l, h, l.PatchPath(k)) <==> From(k) == h || To(k) == h
  {
    DigestPatterns(l, h);
    PatchPattern(l, "*-to-" + h, l.PatchPath(k));
    PatchPattern(l, h + "-to-*", l.PatchPath(k));
    assert l.PatchPath(k)[..|l.root|] == l.root && l.PatchPath(k)[|l.root|] == "patches" && l.PatchPath(k)[|l.root| + 1] == k;
    assert l.PluginPath(h)[|l.root|] == "plugins";
    GlobsFindOne(k, h);
  }

  lemma GoneOther(l: Layout, h: Bytes, p: Path)
    requires l.Good() && IsDigest(h) && !l.InPlugins(p) && !l.InPatches(p)
    ensures !Gone(l, h, p)
  {
    DigestPatterns(l, h);
    PatchPattern(l, "*-to-" + h, p);
    PatchPattern(l, h + "-to-*", p);
    assert l.PluginPath(h)[..|l.root|] == l.root;
  }

  lemma GlobsFindOne(k: Bytes, hash: Bytes)
    requires IsKey(k) && IsDigest(hash)
    ensures (Match("*-to-" + hash, k) || Match(hash + "-to-*", k)) <==> From(k) == hash || To(k) == hash
  {
    KeyWhole(k);
    GlobsTouch(From(k), To(k), hash);
  }

  function SweepAll(l: Layout, f: Files, names: seq<Bytes>): Files {
    if names == [] then f else Sweep(l, SweepAll(l, f, names[..|names| - 1]), names[|names| - 1])
  }

  /** What is left when digests and everything touching them are removed. */
  function Without(f: Files, gone: set<Bytes>): Files {
    Files(f.plugins - gone, Untouched(f.patches, gone), f.others)
  }

  ghost predicate Swept(w: World, l: Layout, f: Files, torn: set<Bytes>, gone: set<Bytes>) {
    var g := Without(f, gone);
    Sound(w, l, g, torn * g.patches.Keys) && (Linked(f) ==> Linked(g))
  }

  /** Cleaning digests removes their plugins and exactly the patches, whole or not, from or to one of them. */
  lemma {:induction false} SweepDigests(w: World, l: Layout, f: Files, torn: set<Bytes>, hashes: seq<Bytes>)
    requires Sound(w, l, f, torn) && forall h :: h in hashes ==> IsDigest(h)
    ensures SweepAll(l, f, hashes) == Without(f, Elems(hashes)) && Swept(w, l, f, torn, Elems(hashes))
  {
    if hashes == [] {
      WithoutNone(f, torn);
    } else {
      var init, last := hashes[..|hashes| - 1], hashes[|hashes| - 1];
      SweepDigests(w, l, f, torn, init);
      SweepDigestAfter(w, l, f, torn, Elems(init), last);
      ElemsAppend(init, last);
      assert hashes == init + [last];
    }
  }

  lemma WithoutNone(f: Files, torn: set<Bytes>)
    ensures Without(f, {}) == f && (torn <= f.patches.Keys ==> torn * f.patches.Keys == torn)
  {
    assert Untouched(f.patches, {}) == f.patches;
  }

  lemma SweepDigestAfter(w: World, l: Layout, f: Files, torn: set<Bytes>, gone: set<Bytes>, h: Bytes)
    requires Swept(w, l, f, torn, gone) && IsDigest(h)
    ensures Sweep(l, Without(f, gone), h) == Without(f, gone + {h}) && Swept(w, l, f, torn, gone + {h})
  {
    var g := Without(f, gone);
    SweepDigest(w, l, g, torn * g.patches.Keys, h);
    UntouchedSound(w, l, g, torn * g.patches.Keys, h);
    UntouchedTwice(f.patches, gone, h);
    assert f.plugins - gone - {h} == f.plugins - (gone + {h});
    KeepsInter(torn, g.patches.Keys, Untouched(f.patches, gone + {h}).Keys);
  }

  /** Archiving keeps an undamaged copy and replaces anything else. */
  function Put(w: World, plugins: map<Bytes, Bytes>, e: ArchiveEntry): map<Bytes, Bytes> {
    if Intact(w, plugins, e.metadata.digest) then plugins else plugins[e.metadata.digest := w.compress(e.data)]
  }

  function PutAll(w: World, plugins: map<Bytes, Bytes>, items: seq<ArchiveEntry>): map<Bytes, Bytes> {
    if items == [] then plugins else Put(w, PutAll(w, plugins, items[..|items| - 1]), items[|items| - 1])
  }

  lemma PutStores(w: World, plugins: map<Bytes, Bytes>, e: ArchiveEntry)
    requires w.Lawful() && e.metadata.digest == w.digest(e.data)
    ensures Put(w, plugins, e).Keys == plugins.Keys + {e.metadata.digest} && Intact(w, Put(w, plugins, e), e.metadata.digest)
    ensures forall h :: Intact(w, plugins, h) ==> Intact(w, Put(w, plugins, e), h) && Put(w, plugins, e)[h] == plugins[h]
  {
    assert w.decompress(w.compress(e.data)) == Some(e.data);
  }

  function ArchivedDigests(items: seq<ArchiveEntry>): set<Bytes> {
    set e | e in items :: e.metadata.digest
  }

  /** After archiving, exactly the archived digests have been added, every archived plugin is undamaged,
      and no undamaged plugin was rewritten. */
  lemma {:induction false} PutAllStores(w: World, plugins: map<Bytes, Bytes>, items: seq<ArchiveEntry>)
    requires w.Lawful() && forall e :: e in items ==> e.metadata.digest == w.digest(e.data)
    ensures PutAll(w, plugins, items).Keys == plugins.Keys + ArchivedDigests(items)
    ensures forall e :: e in items ==> Intact(w, PutAll(w, plugins, items), e.metadata.digest)
    ensures forall h :: Intact(w, plugins, h) ==> Intact(w, PutAll(w, plugins, items), h)
                                                  && PutAll(w, plugins, items)[h] == plugins[h]
  {
    if items != [] {
      var init, last := items[..|items| - 1], items[|items| - 1];
      assert items == init + [last];
      PutAllStores(w, plugins, init);
      PutStores(w, PutAll(w, plugins, init), last);
      assert ArchivedDigests(items) == ArchivedDigests(init) + {last.metadata.digest};
    }
  }

  // ------------------------------------------------- what a name can do

  /** Opening the name as a plugin finds a file that decompresses to something with another digest, so that the
      name is cleaned. */
  predicate Sweeps(w: World, l: Layout, f: Files, name: Bytes) {
    var c := Contents(l, f, Resolve(l.Plugins(), name));
    c.Some? && w.decompress(c.value).Some? && w.digest(w.decompress(c.value).value) != name
  }

  lemma SweepSound(w: World, l: Layout, f: Files, torn: set<Bytes>, name: Bytes)
    requires Sound(w, l, f, torn)
    ensures Sound(w, l, Sweep(l, f, name), torn * Sweep(l, f, name).patches.Keys)
  {
    var g := Sweep(l, f, name);
    forall k | k in g.patches ensures PatchOk(w, k, g.patches[k], k in torn * g.patches.Keys) {
      assert PatchOk(w, k, f.patches[k], k in torn);
    }
  }

  /** A plain name leads to the plugin of that name. */
  lemma PlainPlugin(l: Layout, f: Files, name: Bytes)
    requires l.Good() && Plain(name)
    ensures Resolve(l.Plugins(), name) == l.PluginPath(name)
    ensures Contents(l, f, Resolve(l.Plugins(), name)) == if name in f.plugins then Some(f.plugins[name]) else None
  {
    CleanDirs(l);
    ResolvesToItself(l.Plugins(), name);
    assert l.Plugins() + [name] == l.PluginPath(name);
    ContentsIn(l, f, name);
  }

  /** And a key made from a name without a slash to the patch of that key. */
  lemma PlainPatch(l: Layout, f: Files, o: Bytes, n: Bytes)
    requires l.Good() && '/' !in o && IsDigest(n)
    ensures Resolve(l.Patches(), PatchKey(o, n)) == l.PatchPath(PatchKey(o, n))
    ensures Contents(l, f, l.PatchPath(PatchKey(o, n))) ==
            if PatchKey(o, n) in f.patches then Some(f.patches[PatchKey(o, n)]) else None
  {
    CleanDirs(l);
    DigestPlain(n);
    var key := PatchKey(o, n);
    assert |key| >= 4 && '/' !in key;
    ResolvesToItself(l.Patches(), key);
    assert l.Patches() + [key] == l.PatchPath(key);
    ContentsIn(l, f, key);
  }

  /** What looking a name up as a plugin gives. */
  function Found(w: World, l: Layout, f: Files, name: Bytes): Result<Bytes> {
    var p := Resolve(l.Plugins(), name);
    match Contents(l, f, p)
    case None => if l.kind(p) == Absent then Err(NotExist) else Err(Unreadable)
    case Some(c) =>
      if w.decompress(c).None? || w.digest(w.decompress(c).value) != name then Err(Corrupted)
      else Ok(w.decompress(c).value)
  }

  /** And what it leaves. */
  function Looked(w: World, l: Layout, f: Files, name: Bytes): Files {
    if Sweeps(w, l, f, name) then Sweep(l, f, name) else f
  }

  /** Only an undamaged plugin is found, whatever the name is made of. */
  lemma FoundIntact(w: World, l: Layout, f: Files, torn: set<Bytes>, name: Bytes)
    requires Sound(w, l, f, torn)
    ensures Found(w, l, f, name).Ok? <==> Intact(w, f.plugins, name)
    ensures Found(w, l, f, name).Ok? ==> Plain(name) && IsDigest(name) && !Sweeps(w, l, f, name)
  {
    if IsDigest(name) {
      PlainDigest(name);
      PlainPlugin(l, f, name);
    }
  }

  /** A usable name is missing exactly if there is no plugin file of that name. */
  lemma FoundMissing(w: World, l: Layout, f: Files, name: Bytes)
    requires l.Good() && Plain(name)
    ensures Found(w, l, f, name) == Err(NotExist) ==> name !in f.plugins
    ensures name !in f.plugins && l.Usable(name) ==> Found(w, l, f, name) == Err(NotExist)
    ensures name !in f.plugins ==> Found(w, l, f, name) in {Err(NotExist), Err(Unreadable)}
  {
    PlainPlugin(l, f, name);
  }

  lemma LookedSound(w: World, l: Layout, f: Files, torn: set<Bytes>, name: Bytes)
    requires Sound(w, l, f, torn)
    ensures Sound(w, l, Looked(w, l, f, name), torn * Looked(w, l, f, name).patches.Keys)
    ensures Looked(w, l, f, name).plugins.Keys <= f.plugins.Keys && Looked(w, l, f, name).patches.Keys <= f.patches.Keys
  {
    SweepSound(w, l, f, torn, name);
    assert torn * f.patches.Keys == torn;
  }

  /** Looking twice is looking once. */
  lemma LookedTwice(w: World, l: Layout, f: Files, torn: set<Bytes>, name: Bytes)
    requires Sound(w, l, f, torn)
    ensures Looked(w, l, Looked(w, l, f, name), name) == Looked(w, l, f, name)
  {
    if Sweeps(w, l, f, name) { SweepContents(l, f, name, Resolve(l.Plugins(), name)); }
  }

  /** No undamaged plugin is lost, and no end of a patch. */
  ghost predicate Careful(w: World, f: Files, g: Files) {
    (forall h :: Intact(w, f.plugins, h) ==> Intact(w, g.plugins, h)) && (Linked(f) ==> Linked(g))
  }

  lemma CarefulTwice(w: World, f: Files, g: Files, g': Files)
    requires Careful(w, f, g) && Careful(w, g, g')
    ensures Careful(w, f, g')
  {
  }

  lemma PutAllMore(w: World, plugins: map<Bytes, Bytes>, items: seq<ArchiveEntry>, n: nat)
    requires n < |items|
    ensures PutAll(w, plugins, items[..n + 1]) == Put(w, PutAll(w, plugins, items[..n]), items[n])
  {
    assert items[..n + 1][..n] == items[..n];
  }

  lemma ArchivedSound(w: World, l: Layout, f: Files, torn: set<Bytes>, items: seq<ArchiveEntry>)
    requires Sound(w, l, f, torn) && forall e :: e in items ==> e.metadata.digest == w.digest(e.data)
    ensures Sound(w, l, f.(plugins := PutAll(w, f.plugins, items)), torn)
  {
    PutAllStores(w, f.plugins, items);
    forall h | h in PutAll(w, f.plugins, items) ensures IsDigest(h) { }
  }

  /** Archiving is careful. */
  lemma ArchivedCareful(w: World, f: Files, items: seq<ArchiveEntry>)
    requires w.Lawful() && forall e :: e in items ==> e.metadata.digest == w.digest(e.data)
    ensures Careful(w, f, f.(plugins := PutAll(w, f.plugins, items)))
  {
    PutAllStores(w, f.plugins, items);
  }

  /** Looking up a plain name is careful. */
  lemma LookedCareful(w: World, l: Layout, f: Files, torn: set<Bytes>, name: Bytes)
    requires Sound(w, l, f, torn) && Plain(name)
    ensures Careful(w, f, Looked(w, l, f, name))
  {
    PlainPlugin(l, f, name);
    if Sweeps(w, l, f, name) {
      SweepDigest(w, l, f, torn, name);
      UntouchedSound(w, l, f, torn, name);
    }
  }

  /** What an attempt to generate a patch leaves, and the error if it fails. */
  function Generated(w: World, l: Layout, f: Files, o: Bytes, n: Bytes): Files {
    Looked(w, l, f, if Intact(w, f.plugins, o) then n else o)
  }

  function Missing(w: World, l: Layout, f: Files, o: Bytes, n: Bytes): Result<Bytes> {
    Found(w, l, f, if Intact(w, f.plugins, o) then n else o)
  }

  /** With a plain old name, an attempt that finds a plugin missing found one of the two files missing. */
  lemma MissingPlain(w: World, l: Layout, f: Files, o: Bytes, n: Bytes)
    requires l.Good() && Plain(o) && IsDigest(n)
    ensures Missing(w, l, f, o, n) == Err(NotExist) ==> o !in f.plugins || n !in f.plugins
    ensures o !in f.plugins && l.Usable(o) ==> Missing(w, l, f, o, n) == Err(NotExist)
  {
    PlainDigest(n);
    FoundMissing(w, l, f, o);
    FoundMissing(w, l, f, n);
  }

  /** A second attempt changes nothing. */
  lemma GeneratedTwice(w: World, l: Layout, f: Files, torn: set<Bytes>, o: Bytes, n: Bytes)
    requires Sound(w, l, f, torn) && IsDigest(n)
    ensures Generated(w, l, Generated(w, l, f, o, n), o, n) == Generated(w, l, f, o, n)
  {
    var g := Generated(w, l, f, o, n);
    if Intact(w, f.plugins, o) {
      PlainDigest(n);
      LookedCareful(w, l, f, torn, n);
      LookedTwice(w, l, f, torn, n);
    } else {
      LookedTwice(w, l, f, torn, o);
      LookedKeeps(w, l, f, o);
    }
  }

  lemma LookedKeeps(w: World, l: Layout, f: Files, name: Bytes)
    ensures forall h :: Intact(w, Looked(w, l, f, name).plugins, h) ==> Intact(w, f.plugins, h)
  {
  }

  /** The patch generated from two undamaged plugins. */
  function PatchFor(w: World, f: Files, o: Bytes, n: Bytes): Bytes {
    if Intact(w, f.plugins, o) && Intact(w, f.plugins, n) then
      w.generate(w.decompress(f.plugins[o]).value, w.decompress(f.plugins[n]).value)
    else []
  }

  /** The files after writing a patch, and the patches whose writing was broken off. */
  function WithPatch(f: Files, key: Bytes, data: Bytes, write: WriteOutcome): Files {
    match write
    case Written => f.(patches := f.patches[key := data])
    case Unopened => f
    case Cut(n) => f.(patches := f.patches[key := Kept(data, n)])
  }

  function TornBy(torn: set<Bytes>, key: Bytes, data: Bytes, write: WriteOutcome): set<Bytes> {
    if write.Cut? && write.kept < |data| then torn + {key} else torn
  }

  /** A write that is not even begun changes nothing; any other leaves a first part of the patch under its key and all
      else as it was: all of it if it succeeds, as many bytes as were written if it is broken off. */
  lemma WithPatchMeans(f: Files, torn: set<Bytes>, key: Bytes, data: Bytes, write: WriteOutcome)
    requires key !in f.patches && key !in torn
    ensures var g := WithPatch(f, key, data, write);
            && g.plugins == f.plugins && g.others == f.others && g.patches - {key} == f.patches
            && (key in g.patches <==> write != Unopened)
            && (write != Unopened ==> g.patches[key] <= data)
            && (write == Written ==> g.patches[key] == data)
            && (write.Cut? ==> |g.patches[key]| == if write.kept < |data| then write.kept else |data|)
            && (key in TornBy(torn, key, data, write) <==> write.Cut? && g.patches[key] != data)
            && TornBy(torn, key, data, write) - {key} == torn
  {
    var g := WithPatch(f, key, data, write);
    if write != Unopened { assert g.patches - {key} == f.patches; }
  }

  /** Writing a correct patch keeps the invariant, however it ends. */
  lemma WithPatchSound(w: World, l: Layout, f: Files, torn: set<Bytes>, o: Bytes, n: Bytes, data: Bytes, write: WriteOutcome)
    requires Sound(w, l, f, torn) && o in f.plugins && n in f.plugins && Correct(w, o, n, data)
    requires PatchKey(o, n) !in f.patches
    ensures var g := WithPatch(f, PatchKey(o, n), data, write);
            Sound(w, l, g, TornBy(torn, PatchKey(o, n), data, write)) && (Linked(f) ==> Linked(g))
  {
    var key := PatchKey(o, n);
    var g, torn' := WithPatch(f, key, data, write), TornBy(torn, key, data, write);
    KeyParts(o, n);
    if write.Cut? && write.kept < |data| { assert PartOf(w, key, data[..write.kept], data); }
    forall k | k in g.patches ensures PatchOk(w, k, g.patches[k], k in torn') {
      if k != key { assert PatchOk(w, k, f.patches[k], k in torn); }
    }
  }

  /** The patch file a key made from a name without a slash leads to is right, unless its writing was broken off. */
  lemma CachedCorrect(w: World, l: Layout, f: Files, torn: set<Bytes>, o: Bytes, n: Bytes)
    requires Sound(w, l, f, torn) && IsDigest(n) && PatchKey(o, n) in f.patches && PatchKey(o, n) !in torn
    ensures Correct(w, o, n, f.patches[PatchKey(o, n)])
  {
    var key := PatchKey(o, n);
    assert PatchOk(w, key, f.patches[key], key in torn);
    KeyWhole(key);
    KeyInjective(o, n, From(key), To(key));
  }

  /** The file is the plugin of that name or a patch from or to it. */
  predicate Own(l: Layout, name: Bytes, p: Path) {
    p == l.PluginPath(name)
    || (l.InPatches(p) && IsKey(p[|l.root| + 1]) && (From(p[|l.root| + 1]) == name || To(p[|l.root| + 1]) == name))
  }

  ghost predicate LosesOnlyOwn(w: World, l: Layout, f: Files, name: Bytes) {
    forall p :: Contents(l, f, p).Some? && Contents(l, Looked(w, l, f, name), p).None? ==> Own(l, name, p)
  }

  /** The exact condition: looking a name up loses nothing but the plugin it names and the patches touching that
      one if and only if the name is plain or leads to no readable file. */
  lemma LosesOnlyOwnIff(w: World, l: Layout, f: Files, torn: set<Bytes>, name: Bytes)
    requires Sound(w, l, f, torn)
    ensures LosesOnlyOwn(w, l, f, name) <==> Plain(name) || !Sweeps(w, l, f, name)
  {
    if Sweeps(w, l, f, name) {
      if Plain(name) { PlainLoss(w, l, f, torn, name); } else { StrangeLoss(w, l, f, torn, name); }
    }
  }

  lemma PlainLoss(w: World, l: Layout, f: Files, torn: set<Bytes>, name: Bytes)
    requires Sound(w, l, f, torn) && Sweeps(w, l, f, name) && Plain(name)
    ensures IsDigest(name) && LosesOnlyOwn(w, l, f, name)
  {
    PlainPlugin(l, f, name);
    forall p | Contents(l, f, p).Some? && Contents(l, Sweep(l, f, name), p).None? ensures Own(l, name, p) {
      SweepContents(l, f, name, p);
      LostOne(w, l, f, torn, name, p);
    }
  }

  lemma LostOne(w: World, l: Layout, f: Files, torn: set<Bytes>, h: Bytes, p: Path)
    requires Sound(w, l, f, torn) && IsDigest(h) && Contents(l, f, p).Some? && Gone(l, h, p)
    ensures Own(l, h, p)
  {
    if l.InPlugins(p) {
      LostPlugin(l, h, p);
    } else if l.InPatches(p) {
      LostPatch(w, l, f, torn, h, p);
    } else {
      GoneOther(l, h, p);
    }
  }

  lemma LostPlugin(l: Layout, h: Bytes, p: Path)
    requires l.Good() && IsDigest(h) && l.InPlugins(p) && Gone(l, h, p)
    ensures Own(l, h, p)
  {
    assert p == l.PluginPath(p[|l.root| + 1]);
    GonePlugin(l, h, p[|l.root| + 1]);
  }

  lemma KeyNamed(w: World, l: Layout, f: Files, torn: set<Bytes>, k: Bytes)
    requires Sound(w, l, f, torn) && k in f.patches
    ensures IsKey(k)
  {
    assert PatchOk(w, k, f.patches[k], k in torn);
  }

  lemma LostPatch(w: World, l: Layout, f: Files, torn: set<Bytes>, h: Bytes, p: Path)
    requires Sound(w, l, f, torn) && IsDigest(h) && l.InPatches(p) && p[|l.root| + 1] in f.patches && Gone(l, h, p)
    ensures Own(l, h, p)
  {
    KeyNamed(w, l, f, torn, p[|l.root| + 1]);
    LostKey(l, h, p, p[|l.root| + 1]);
  }

  lemma LostKey(l: Layout, h: Bytes, p: Path, k: Bytes)
    requires l.Good() && IsDigest(h) && l.InPatches(p) && k == p[|l.root| + 1] && IsKey(k) && Gone(l, h, p)
    ensures Own(l, h, p)
  {
    assert p == l.root + ["patches", k];
    GonePatch(l, h, k);
  }

  lemma StrangeLoss(w: World, l: Layout, f: Files, torn: set<Bytes>, name: Bytes)
    requires Sound(w, l, f, torn) && Sweeps(w, l, f, name) && !Plain(name)
    ensures !LosesOnlyOwn(w, l, f, name)
  {
    var p := Resolve(l.Plugins(), name);
    SweepContents(l, f, name, p);
    CleanDirs(l);
    ResolvesToItself(l.Plugins(), name);
    assert l.Plugins() + [name] == l.PluginPath(name);
    if l.InPatches(p) && p[|l.root| + 1] in f.patches {
      var k := p[|l.root| + 1];
      assert PatchOk(w, k, f.patches[k], k in torn);
      if IsDigest(name) { PlainDigest(name); }
    }
    assert !Own(l, name, p);
  }

  /** A name that leads to a plugin of another name, without being that name. */
  function Roundabout(h: Bytes): Bytes {
    "../" + "plugins" + "/" + h
  }

  lemma RoundaboutPatterns(l: Layout, h: Bytes)
    requires l.Good() && IsDigest(h)
    ensures Resolve(l.Plugins(), Roundabout(h)) == l.PluginPath(h)
    ensures Resolve(l.Patches(), "*-to-" + Roundabout(h)) == l.root + ["patches", "*-to-..", "plugins", h]
    ensures Resolve(l.Patches(), Roundabout(h) + "-to-*") == l.PluginPath(h + "-to-*")
  {
    PlainDigest(h);
    assert Plain("plugins");
    ResolvesBack(l.root, "plugins", h);
    UpAndAcross(l.root, "patches", "plugins", h + "-to-*");
    assert Roundabout(h) + "-to-*" == "../" + "plugins" + "/" + (h + "-to-*");
    DeepPattern(l, h);
  }

  lemma UpAndAcross(dir: Path, sub: Bytes, other: Bytes, name: Bytes)
    requires Plain(sub) && Plain(other) && Plain(name)
    ensures Resolve(dir + [sub], "../" + other + "/" + name) == dir + [other, name]
  {
    var text := "../" + other + "/" + name;
    assert text == ".." + ['/'] + (other + ['/'] + name);
    SplitFirst("..", '/', other + ['/'] + name);
    SplitPair(other, '/', name);
    assert [".."] + [other, name] == ["..", other, name];
    assert ["..", other, name][1..] == [other, name] && [other, name][1..] == [name];
    assert (dir + [sub])[..|dir|] == dir;
    WalkOne(dir + [other], name);
    assert Walk(dir, [other, name]) == dir + [other] + [name];
  }

  lemma DeepPattern(l: Layout, h: Bytes)
    requires l.Good() && IsDigest(h)
    ensures Resolve(l.Patches(), "*-to-" + Roundabout(h)) == l.root + ["patches", "*-to-..", "plugins", h]
  {
    PlainDigest(h);
    assert "*-to-" + Roundabout(h) == "*-to-.." + ['/'] + ("plugins" + ['/'] + h);
    assert Plain("*-to-..") && Plain("plugins");
    DownThree(l.Patches(), "*-to-..", "plugins", h);
    assert l.Patches() + ["*-to-..", "plugins", h] == l.root + ["patches", "*-to-..", "plugins", h];
  }

  lemma DownThree(dir: Path, a: Bytes, b: Bytes, c: Bytes)
    requires Plain(a) && Plain(b) && Plain(c)
    ensures Resolve(dir, a + ['/'] + (b + ['/'] + c)) == dir + [a, b, c]
  {
    SplitFirst(a, '/', b + ['/'] + c);
    SplitPair(b, '/', c);
    assert [a] + [b, c] == [a, b, c] && [a, b, c][1..] == [b, c] && [b, c][1..] == [c];
    WalkOne(dir + [a] + [b], c);
    assert Walk(dir + [a], [b, c]) == Walk(dir + [a] + [b], [c]);
    assert Walk(dir, [a, b, c]) == Walk(dir + [a], [b, c]);
    assert dir + [a] + [b] + [c] == dir + [a, b, c];
  }

  lemma RoundaboutSweeps(w: World, l: Layout, f: Files, h: Bytes)
    requires w.Lawful() && l.Good() && Intact(w, f.plugins, h) && IsDigest(h)
    ensures !Plain(Roundabout(h)) && Sweeps(w, l, f, Roundabout(h))
  {
    var name := Roundabout(h);
    RoundaboutPatterns(l, h);
    ContentsIn(l, f, h);
    assert name[2] == '/';
    DigestPlain(h);
  }

  lemma SweepsOne(l: Layout, f: Files, name: Bytes, h: Bytes)
    requires forall n :: n in f.plugins ==> (Gone(l, name, l.PluginPath(n)) <==> n == h)
    requires forall k :: k in f.patches ==> !Gone(l, name, l.PatchPath(k))
    ensures Sweep(l, f, name).plugins == f.plugins - {h} && Sweep(l, f, name).patches == f.patches
  {
  }

  /** The patch from a plugin named in a roundabout way to any other is never there. */
  lemma RoundaboutMiss(w: World, l: Layout, f: Files, torn: set<Bytes>, h: Bytes, n: Bytes)
    requires Sound(w, l, f, torn) && IsDigest(h) && IsDigest(n)
    ensures var p := Resolve(l.Patches(), PatchKey(Roundabout(h), n)); Contents(l, f, p).None? && l.kind(p) != Directory
  {
    var name := PatchKey(h, n);
    KeyNoDigest(h, n);
    assert Plain("patches") && Plain("plugins");
    UpAndAcross(l.root, "patches", "plugins", name);
    assert PatchKey(Roundabout(h), n) == "../" + "plugins" + "/" + name;
    ContentsIn(l, f, name);
  }

  lemma KeyNoDigest(h: Bytes, n: Bytes)
    requires IsDigest(h) && IsDigest(n)
    ensures Plain(PatchKey(h, n)) && !IsDigest(PatchKey(h, n))
  {
    PlainDigest(h);
    DigestPlain(n);
    assert PatchKey(h, n)[|h|] == '-' && '-' !in "0123456789abcdef";
  }

  /** Asking for a patch from an undamaged plugin named in a roundabout way removes that plugin, and leaves the
      patches from and to it. */
  lemma LossHappens(w: World, l: Layout, f: Files, torn: set<Bytes>, h: Bytes, n: Bytes)
    requires Sound(w, l, f, torn) && Intact(w, f.plugins, h) && IsDigest(n)
    ensures !Plain(Roundabout(h)) && Sweeps(w, l, f, Roundabout(h))
    ensures var p := Resolve(l.Patches(), PatchKey(Roundabout(h), n)); Contents(l, f, p).None? && l.kind(p) != Directory
    ensures var g := Generated(w, l, f, Roundabout(h), n); g.plugins == f.plugins - {h} && g.patches == f.patches
  {
    RoundaboutMiss(w, l, f, torn, h, n);
    FoundIntact(w, l, f, torn, Roundabout(h));
    RoundaboutSweeps(w, l, f, h);
    forall n | n in f.plugins ensures Gone(l, Roundabout(h), l.PluginPath(n)) <==> n == h { RoundaboutPlugin(l, h, n); }
    forall k | k in f.patches ensures !Gone(l, Roundabout(h), l.PatchPath(k)) { RoundaboutPatch(l, h, k); }
    SweepsOne(l, f, Roundabout(h), h);
  }

  lemma RoundaboutPlugin(l: Layout, h: Bytes, n: Bytes)
    requires l.Good() && IsDigest(h) && IsDigest(n)
    ensures Gone(l, Roundabout(h), l.PluginPath(n)) <==> n == h
  {
    RoundaboutPatterns(l, h);
    var pattern, p := l.PluginPath(h + "-to-*"), l.PluginPath(n);
    assert pattern[..|l.root|] == l.root;
    RootMatches(l, pattern, p);
    assert pattern[|l.root| + 1] == h + "-to-*" && p[|l.root| + 1] == n && l.PluginPath(h)[|l.root| + 1] == h;
    DigestPlain(n);
    DigestPlain(h);
    MatchPrefix(h + "-to-", n);
    assert h + "-to-*" == (h + "-to-") + "*" && (h + "-to-")[|h|] == '-';
  }

  lemma RoundaboutPatch(l: Layout, h: Bytes, k: Bytes)
    requires l.Good() && IsDigest(h)
    ensures !Gone(l, Roundabout(h), l.PatchPath(k))
  {
    RoundaboutPatterns(l, h);
    var pattern, p := l.PluginPath(h + "-to-*"), l.PatchPath(k);
    assert pattern[..|l.root|] == l.root && pattern[|l.root|] == "plugins" && p[|l.root|] == "patches";
    RootMatches(l, pattern, p);
    assert l.PluginPath(h)[|l.root|] == "plugins";
  }
}
