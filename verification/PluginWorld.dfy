/** The foreign functions the plugin sync protocol is built on, and what is assumed of them. */
module PluginWorld {
  import opened Common
  import opened Manifests

  /** A plugin directory: file name to contents. */
  type Disk = map<Bytes, Bytes>

  /** Hex text. The length is left open: a digest without collisions cannot have a fixed one. */
  predicate IsDigest(s: Bytes) {
    s != "" && forall i :: 0 <= i < |s| ==> s[i] in "0123456789abcdef"
  }

  /** `digest` is the hex blake2b-256 sum, `moduleOf` the module path in a Go binary's build
      information (None when the file is not a Go binary), `generate`/`apply` the bsdiff pair,
      `isPatch` the test for its file header and `compress`/`decompress` the zstd pair. */
  datatype World = World(
    digest: Bytes -> Bytes,
    moduleOf: Bytes -> Option<Bytes>,
    isPatch: Bytes -> bool,
    generate: (Bytes, Bytes) -> Bytes,
    apply: (Bytes, Bytes) -> Option<Bytes>,
    compress: Bytes -> Bytes,
    decompress: Bytes -> Option<Bytes>)
  {
    /** The digest has no collisions, a generated patch is recognised and rebuilds the new file, and
        decompression undoes compression. */
    ghost predicate Lawful() {
      && (forall a, b :: digest(a) == digest(b) ==> a == b)
      && (forall a :: IsDigest(digest(a)))
      && (forall a, b :: isPatch(generate(a, b)) && apply(a, generate(a, b)) == Some(b))
      && (forall a :: decompress(compress(a)) == Some(a))
    }

    /** Discovery globs `plugin_*` and skips files without build information. */
    predicate IsPlugin(name: Bytes, content: Bytes) {
      "plugin_" <= name && moduleOf(content).Some?
    }

    /** The manifest entry `e` describes a plugin in the directory. */
    predicate Has(d: Disk, e: Entry) {
      && e.filename in d
      && IsPlugin(e.filename, d[e.filename])
      && moduleOf(d[e.filename]).value == e.id
      && digest(d[e.filename]) == e.digest
    }

    /** What GetFilesystemPlugins reports: each plugin in the directory once, in some order. */
    ghost predicate Lists(d: Disk, m: seq<Entry>) {
      && NoDup(m)
      && forall e :: e in m <==> Has(d, e)
    }

    ghost predicate IdsIdentify(d: Disk) {
      forall a, b :: Has(d, a) && Has(d, b) && a.id == b.id ==> a == b
    }

    ghost predicate SamePlugins(d: Disk, e: Disk) {
      forall x :: Has(d, x) <==> Has(e, x)
    }
  }
}
