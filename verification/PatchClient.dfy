/** The agent's side of plugin sync: applying patch operations to the plugin directory
    (pkg/patch/client.go). */
module PatchClient {
  import opened Common
  import opened Manifests
  import opened PluginWorld

  /** gRPC codes the client distinguishes: Unavailable asks the caller to retry, Internal does not. */
  datatype Code = OK | Unavailable | Internal

  /** The new contents an Update computes from the file it read, or the code it fails with. */
  function Patched(w: World, current: Bytes, p: Patch): (r: (Code, Bytes)) {
    if w.digest(current) != p.oldDigest then (Unavailable, "")
    else if !w.isPatch(p.data) then (Internal, "")
    else match w.apply(current, p.data)
      case None => (Unavailable, "")
      case Some(next) => if w.digest(next) != p.newDigest then (Unavailable, "") else (OK, next)
  }

  /** One operation run to its end without interference and without operating system errors. */
  function Apply(w: World, d: Disk, p: Patch): (r: (Code, Disk)) {
    match p.op
    case NoOp => (OK, d)
    case Unknown => (Internal, d)
    case Create => (OK, d[p.filename := p.data])
    case Remove => (OK, d - {p.filename})
    case Rename =>
      if p.data in d || p.filename !in d then (Unavailable, d)
      else (OK, (d - {p.filename})[p.data := d[p.filename]])
    case Update =>
      if p.filename !in d then (Unavailable, d)
      else
        var (code, next) := Patched(w, d[p.filename], p);
        (code, if code == OK then d[p.filename := next] else d)
  }

  /** The plugin directory as the patch client changes it, call by call. An `osError` argument is the
      failure of the system call that would have made the change: a permission error is reported
      as Internal, any other as Unavailable, and nothing is changed. */
  class PluginDir {
    var files: Disk
    const w: World

    constructor (w: World, files: Disk)
      ensures this.w == w && this.files == files
    {
      this.w := w;
      this.files := files;
    }

    /** The file is written in place: a failed write may leave the old file or some of the new bytes. */
    method DoCreate(p: Patch, write: WriteOutcome, osError: Code) returns (code: Code)
      requires p.op == Create && osError != OK
      modifies this
      ensures write == Written ==> (code, files) == Apply(w, old(files), p)
      ensures write == Written ==> code == OK && files == old(files)[p.filename := p.data]
      ensures write != Written ==> code == osError
      ensures write == Unopened ==> files == old(files)
      ensures write.Cut? ==> files.Keys == old(files.Keys) + {p.filename} && files[p.filename] <= p.data
                             && files - {p.filename} == old(files) - {p.filename}
    {
      match write {
        case Written =>
          files := files[p.filename := p.data];
          return OK;
        case Unopened =>
        case Cut(n) => files := files[p.filename := Kept(p.data, n)];
      }
      code := osError;
    }

    method DoRename(p: Patch, osError: Code) returns (code: Code)
      requires p.op == Rename
      modifies this
      ensures osError == OK ==> (code, files) == Apply(w, old(files), p)
      ensures osError != OK ==> code != OK && files == old(files)
      ensures code == OK <==> osError == OK && p.data !in old(files) && p.filename in old(files)
      ensures code == OK ==> files == (old(files) - {p.filename})[p.data := old(files)[p.filename]]
      ensures code == Internal ==> osError == Internal && p.data !in old(files)
    {
      var newFilename := p.data;
      if newFilename in files { return Unavailable; }
      if osError != OK { return osError; }
      if p.filename !in files { return Unavailable; }
      files := (files - {p.filename})[newFilename := files[p.filename]];
      code := OK;
    }

    method DoUpdate(p: Patch, osError: Code) returns (code: Code)
      requires p.op == Update
      modifies this
      ensures osError == OK ==> (code, files) == Apply(w, old(files), p)
      ensures osError != OK ==> code != OK && files == old(files)
      ensures code == OK ==> p.filename in old(files) && w.digest(old(files)[p.filename]) == p.oldDigest
                             && w.apply(old(files)[p.filename], p.data).Some? && p.filename in files
                             && files[p.filename] == w.apply(old(files)[p.filename], p.data).value
                             && w.digest(files[p.filename]) == p.newDigest && files - {p.filename} == old(files) - {p.filename}
      ensures code != OK ==> files == old(files)
      ensures code == Internal ==> osError == Internal || !w.isPatch(p.data)
      ensures osError == OK && p.filename in old(files) && w.digest(old(files)[p.filename]) == p.oldDigest && !w.isPatch(p.data) ==>
                code == Internal
    {
      if p.filename !in files { return Unavailable; }
      var oldPlugin := files[p.filename];
      if w.digest(oldPlugin) != p.oldDigest { return Unavailable; }
      if !w.isPatch(p.data) { return Internal; }
      var tmp := w.apply(oldPlugin, p.data);
      if tmp == None { return Unavailable; }
      if w.digest(tmp.value) != p.newDigest { return Unavailable; }
      // one rename puts the new contents in place
      if osError != OK { return osError; }
      files := files[p.filename := tmp.value];
      code := OK;
    }

    method DoRemove(p: Patch, osError: Code) returns (code: Code)
      requires p.op == Remove
      modifies this
      ensures osError == OK ==> (code, files) == Apply(w, old(files), p)
      ensures osError != OK ==> code == (if p.filename in old(files) then osError else OK) && files == old(files)
    {
      if p.filename !in files {
        assert files - {p.filename} == files;
        return OK;
      }
      if osError != OK { return osError; }
      files := files - {p.filename};
      code := OK;
    }
  }
}
