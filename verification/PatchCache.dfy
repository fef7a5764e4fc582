/** The gateway's plugin and patch cache (pkg/patch/filesystem.go). */
module PatchCache {
  import opened Common
  import opened Manifests
  import opened PluginWorld
  import opened PatchKeys
  import opened CachePaths
  import opened CacheFiles

  class FilesystemCache {
    const w: World
    const layout: Layout
    var plugins: map<Bytes, Bytes>  // digest to compressed contents
    var patches: map<Bytes, Bytes>  // patch key to patch
    var others: map<Path, Bytes>    // files outside the two directories
    ghost var torn: set<Bytes>      // keys of the patch files whose writing was broken off
    var hits: nat
    var misses: nat

    /** Opens the cache over whatever files are there. */
    constructor (w: World, layout: Layout, files: Files, ghost torn: set<Bytes>)
      ensures this.w == w && this.layout == layout && Now() == files && this.torn == torn && hits == misses == 0
      ensures Sound(w, layout, files, torn) ==> Valid()
    {
      this.w, this.layout := w, layout;
      plugins, patches, others := files.plugins, files.patches, files.others;
      this.torn := torn;
      hits, misses := 0, 0;
    }

    function Now(): Files
      reads this
    {
      Files(plugins, patches, others)
    }

    ghost predicate Valid()
      reads this
    {
      Sound(w, layout, Now(), torn)
    }

    predicate Stored(h: Bytes)
      reads this
    {
      Intact(w, plugins, h)
    }

    method Archive(items: seq<ArchiveEntry>)
      requires Valid() && forall e :: e in items ==> e.metadata.digest == w.digest(e.data)
      modifies this
      ensures Valid() && torn == old(torn) && hits == old(hits) && misses == old(misses)
      ensures Now() == old(Now()).(plugins := PutAll(w, old(plugins), items))
    {
      for n := 0 to |items|
        invariant patches == old(patches) && others == old(others) && torn == old(torn)
        invariant hits == old(hits) && misses == old(misses)
        invariant plugins == PutAll(w, old(plugins), items[..n])
      {
        var item := items[n];
        var digest := item.metadata.digest;
        PutAllMore(w, old(plugins), items, n);
        if digest in plugins {
          var existing := w.decompress(plugins[digest]);
          if existing.Some? && w.digest(existing.value) == digest {
            // an undamaged copy is kept
            continue;
          }
        }
        plugins := plugins[digest := w.compress(item.data)];
      }
      assert items[..|items|] == items;
      ArchivedSound(w, layout, old(Now()), torn, items);
    }

    /** Removes the file the name leads to and those the globs find. */
    method CleanOne(name: Bytes)
      requires Valid()
      modifies this
      ensures Valid() && hits == old(hits) && misses == old(misses)
      ensures Now() == Sweep(layout, old(Now()), name) && torn == old(torn) * patches.Keys
    {
      SweepSound(w, layout, Now(), torn, name);
      var left := Sweep(layout, Now(), name);
      plugins, patches, others := left.plugins, left.patches, left.others;
      torn := torn * patches.Keys;
    }

    /** Of digests, removes the plugins and every patch, whole or not, from or to one of them. */
    method Clean(names: seq<Bytes>)
      requires Valid()
      modifies this
      ensures Valid() && hits == old(hits) && misses == old(misses)
      ensures Now() == SweepAll(layout, old(Now()), names) && torn == old(torn) * patches.Keys
      ensures (forall h :: h in names ==> IsDigest(h)) ==>
                && plugins == old(plugins) - Elems(names)
                && patches == Untouched(old(patches), Elems(names))
                && (old(Linked(Now())) ==> Linked(Now()))
    {
      assert torn * patches.Keys == torn;
      for n := 0 to |names|
        invariant Valid() && hits == old(hits) && misses == old(misses)
        invariant Now() == SweepAll(layout, old(Now()), names[..n]) && torn == old(torn) * patches.Keys
      {
        ghost var before := patches;
        CleanOne(names[n]);
        KeepsInter(old(torn), before.Keys, patches.Keys);
        assert names[..n + 1][..n] == names[..n];
      }
      assert names[..|names|] == names;
      if forall h :: h in names ==> IsDigest(h) { SweepDigests(w, layout, old(Now()), old(torn), names); }
    }

    /** Returns undamaged contents only. A file whose contents do not have the digest asked for is removed, and what
        the globs find with it. */
    method GetPlugin(name: Bytes) returns (r: Result<Bytes>)
      requires Valid()
      modifies this
      ensures Valid() && hits == old(hits) && misses == old(misses)
      ensures r == Found(w, layout, old(Now()), name)
      ensures r.Ok? <==> old(Stored(name))
      ensures r.Ok? ==> w.digest(r.value) == name
      ensures Now() == Looked(w, layout, old(Now()), name) && torn == old(torn) * patches.Keys
      ensures Plain(name) ==> Careful(w, old(Now()), Now())
      ensures plugins.Keys <= old(plugins.Keys)
    {
      LookedSound(w, layout, Now(), torn, name);
      FoundIntact(w, layout, Now(), torn, name);
      if Plain(name) { LookedCareful(w, layout, Now(), torn, name); }
      assert torn * patches.Keys == torn;
      var path := Resolve(layout.Plugins(), name);
      var src := Contents(layout, Now(), path);
      if src == None {
        return Err(if layout.kind(path) == Absent then NotExist else Unreadable);
      }
      var pluginData := w.decompress(src.value);
      if pluginData == None { return Err(Corrupted); }
      if w.digest(pluginData.value) != name {
        CleanOne(name);
        return Err(Corrupted);
      }
      return Ok(pluginData.value);
    }

    method GeneratePatch(oldDigest: Bytes, newDigest: Bytes) returns (r: Result<Bytes>)
      requires Valid()
      modifies this
      ensures Valid() && hits == old(hits) && misses == old(misses)
      ensures r.Ok? <==> old(Stored(oldDigest) && Stored(newDigest))
      ensures r.Ok? ==> r.value == PatchFor(w, Now(), oldDigest, newDigest) && Now() == old(Now()) && torn == old(torn)
      ensures r.Ok? ==> Correct(w, oldDigest, newDigest, r.value)
      ensures r.Err? ==> r == Missing(w, layout, old(Now()), oldDigest, newDigest)
      ensures Now() == Generated(w, layout, old(Now()), oldDigest, newDigest) && torn == old(torn) * patches.Keys
      ensures Plain(oldDigest) && Plain(newDigest) ==> Careful(w, old(Now()), Now())
      ensures plugins.Keys <= old(plugins.Keys)
    {
      FoundIntact(w, layout, Now(), torn, oldDigest);
      FoundIntact(w, layout, Now(), torn, newDigest);
      var oldBin := GetPlugin(oldDigest);
      if oldBin.Err? { return oldBin; }
      assert torn == old(torn);
      var newBin := GetPlugin(newDigest);
      if newBin.Err? { return newBin; }
      GeneratedCorrect(w, oldBin.value, newBin.value);
      return Ok(w.generate(oldBin.value, newBin.value));
    }

    /** The patch file the request would look for is there, as a file or otherwise. */
    predicate Hit(oldDigest: Bytes, newDigest: Bytes)
      reads this
    {
      var p := Resolve(layout.Patches(), PatchKey(oldDigest, newDigest));
      Contents(layout, Now(), p).Some? || layout.kind(p) == Directory
    }

    /** One call with nobody else asking for the same patch. A file that is there is returned unseen, so that a
        patch whose writing was broken off is returned ever after. */
    method RequestPatch(oldDigest: Bytes, newDigest: Bytes, write: WriteOutcome) returns (r: Result<Bytes>)
      requires Valid() && IsDigest(newDigest)
      modifies this
      ensures Valid()
      ensures if old(Hit(oldDigest, newDigest)) then hits == old(hits) + 1 && misses == old(misses)
              else hits == old(hits) && misses == old(misses) + 1
      ensures old(Hit(oldDigest, newDigest)) ==>
                var c := Contents(layout, old(Now()), Resolve(layout.Patches(), PatchKey(oldDigest, newDigest)));
                r == (if c.Some? then Ok(c.value) else Err(Unreadable)) && Now() == old(Now()) && torn == old(torn)
      ensures !old(Hit(oldDigest, newDigest)) && !old(Stored(oldDigest) && Stored(newDigest)) ==>
                && r.Err? && r == Missing(w, layout, old(Now()), oldDigest, newDigest)
                && Now() == Generated(w, layout, old(Now()), oldDigest, newDigest) && torn == old(torn) * patches.Keys
      ensures !old(Hit(oldDigest, newDigest)) && old(Stored(oldDigest) && Stored(newDigest)) ==>
                var key, data := PatchKey(oldDigest, newDigest), PatchFor(w, old(Now()), oldDigest, newDigest);
                && r == (if write == Written then Ok(data) else Err(NotWritten))
                && Now() == WithPatch(old(Now()), key, data, write) && torn == TornBy(old(torn), key, data, write)
      ensures Plain(oldDigest) ==> Careful(w, old(Now()), Now())
      ensures plugins.Keys <= old(plugins.Keys)
      ensures Plain(oldDigest) && r.Ok? && PatchKey(oldDigest, newDigest) !in old(torn) ==>
                Correct(w, oldDigest, newDigest, r.value)
      ensures Plain(oldDigest) && r.Ok? ==>
                PatchKey(oldDigest, newDigest) in patches && patches[PatchKey(oldDigest, newDigest)] == r.value
    {
      var path := Resolve(layout.Patches(), PatchKey(oldDigest, newDigest));
      if Plain(oldDigest) { PlainPatch(layout, Now(), oldDigest, newDigest); }
      var cached := Contents(layout, Now(), path);
      if cached.Some? || layout.kind(path) == Directory {
        hits := hits + 1;
        if Plain(oldDigest) && PatchKey(oldDigest, newDigest) !in torn {
          CachedCorrect(w, layout, Now(), torn, oldDigest, newDigest);
        }
        return if cached.Some? then Ok(cached.value) else Err(Unreadable);
      }
      misses := misses + 1;
      r := MakePatch(oldDigest, newDigest, write);
    }

    /** Generates and writes the patch; a failed generation is tried once more, with no effect. */
    method MakePatch(oldDigest: Bytes, newDigest: Bytes, write: WriteOutcome) returns (r: Result<Bytes>)
      requires Valid() && IsDigest(newDigest) && !Hit(oldDigest, newDigest)
      modifies this
      ensures Valid() && hits == old(hits) && misses == old(misses)
      ensures !old(Stored(oldDigest) && Stored(newDigest)) ==>
                && r.Err? && r == Missing(w, layout, old(Now()), oldDigest, newDigest)
                && Now() == Generated(w, layout, old(Now()), oldDigest, newDigest) && torn == old(torn) * patches.Keys
      ensures old(Stored(oldDigest) && Stored(newDigest)) ==>
                var key, data := PatchKey(oldDigest, newDigest), PatchFor(w, old(Now()), oldDigest, newDigest);
                && r == (if write == Written then Ok(data) else Err(NotWritten))
                && Now() == WithPatch(old(Now()), key, data, write) && torn == TornBy(old(torn), key, data, write)
      ensures Plain(oldDigest) ==> Careful(w, old(Now()), Now())
      ensures plugins.Keys <= old(plugins.Keys)
      ensures r.Ok? ==> Correct(w, oldDigest, newDigest, r.value)
    {
      PlainDigest(newDigest);
      GeneratedTwice(w, layout, Now(), torn, oldDigest, newDigest);
      r := GeneratePatch(oldDigest, newDigest);
      if r.Err? {
        ghost var left := Now();
        var _ := GeneratePatch(oldDigest, newDigest);
        assert Now() == left;
        return;
      }
      PlainDigest(oldDigest);
      HitPlain(oldDigest, newDigest);
      r := WritePatch(oldDigest, newDigest, r.value, write);
    }

    /** With a plain old name, the patch file looked for is the one of that name. */
    lemma HitPlain(oldDigest: Bytes, newDigest: Bytes)
      requires Valid() && Plain(oldDigest) && IsDigest(newDigest)
      ensures Hit(oldDigest, newDigest) <==> PatchKey(oldDigest, newDigest) in patches
      ensures Hit(oldDigest, newDigest) ==>
                Contents(layout, Now(), Resolve(layout.Patches(), PatchKey(oldDigest, newDigest))).Some?
    {
      PlainPatch(layout, Now(), oldDigest, newDigest);
    }

    method WritePatch(oldDigest: Bytes, newDigest: Bytes, data: Bytes, write: WriteOutcome) returns (r: Result<Bytes>)
      requires Valid() && oldDigest in plugins && newDigest in plugins && Correct(w, oldDigest, newDigest, data)
      requires PatchKey(oldDigest, newDigest) !in patches
      modifies this`patches, this`torn
      ensures Valid() && Careful(w, old(Now()), Now())
      ensures r == (if write == Written then Ok(data) else Err(NotWritten))
      ensures Now() == WithPatch(old(Now()), PatchKey(oldDigest, newDigest), data, write)
      ensures torn == TornBy(old(torn), PatchKey(oldDigest, newDigest), data, write)
    {
      var key := PatchKey(oldDigest, newDigest);
      WithPatchSound(w, layout, Now(), torn, oldDigest, newDigest, data, write);
      match write {
        case Written =>
          patches := patches[key := data];
          r := Ok(data);
        case Unopened =>
          r := Err(NotWritten);
        case Cut(n) =>
          patches := patches[key := Kept(data, n)];
          if n < |data| { torn := torn + {key}; }
          r := Err(NotWritten);
      }
    }

    method ListDigests() returns (hashes: seq<Bytes>)
      ensures NoDup(hashes) && forall h :: h in hashes <==> h in plugins
    {
      hashes := [];
      var rest := plugins.Keys;
      while rest != {}
        invariant NoDup(hashes) && rest <= plugins.Keys
        invariant forall h :: h in hashes <==> h in plugins.Keys - rest
      {
        var h :| h in rest;
        assert h !in hashes;
        hashes, rest := hashes + [h], rest - {h};
      }
    }
  }
}
