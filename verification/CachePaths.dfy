/** Where the cache's file names lead (pkg/patch/filesystem.go:262-264): a name is joined to a directory and the
    path cleaned, so that slashes and dots in a name lead elsewhere. */
module CachePaths {
  import opened Common
  import opened PluginWorld
  import opened PatchKeys
  import opened Text

  /** An absolute path without "." and "..", from the root of the file system. */
  type Path = seq<Bytes>

  /** filepath.Join of a clean directory and more segments. */
  function Walk(at: Path, segments: seq<Bytes>): Path
    decreases |segments|
  {
    if segments == [] then at
    else if segments[0] == "" || segments[0] == "." then Walk(at, segments[1..])
    else if segments[0] == ".." then Walk(if at == [] then [] else at[..|at| - 1], segments[1..])
    else Walk(at + [segments[0]], segments[1..])
  }

  function Resolve(dir: Path, name: Bytes): Path {
    Walk(dir, Split(name, '/'))
  }

  /** The name is one segment of a path. */
  predicate Plain(name: Bytes) {
    name != "" && name != "." && name != ".." && '/' !in name
  }

  predicate Clean(p: Path) {
    forall i :: 0 <= i < |p| ==> Plain(p[i])
  }

  lemma {:induction false} WalkClean(at: Path, segments: seq<Bytes>)
    requires Clean(at) && forall i :: 0 <= i < |segments| ==> '/' !in segments[i]
    ensures Clean(Walk(at, segments))
    decreases |segments|
  {
    if segments != [] {
      if segments[0] == "" || segments[0] == "." {
        WalkClean(at, segments[1..]);
      } else if segments[0] == ".." {
        WalkClean(if at == [] then [] else at[..|at| - 1], segments[1..]);
      } else {
        WalkClean(at + [segments[0]], segments[1..]);
      }
    }
  }

  lemma WalkOne(at: Path, name: Bytes)
    ensures Walk(at, [name]) ==
            if name == "" || name == "." then at
            else if name == ".." then (if at == [] then [] else at[..|at| - 1])
            else at + [name]
  {
    assert [name][1..] == [];
  }

  /** A name leads to the file of that name exactly if it is plain. */
  lemma ResolvesToItself(dir: Path, name: Bytes)
    requires Clean(dir)
    ensures Resolve(dir, name) == dir + [name] <==> Plain(name)
  {
    WalkClean(dir, Split(name, '/'));
    if '/' !in name {
      SplitNone(name, '/');
      WalkOne(dir, name);
    } else {
      assert !Plain((dir + [name])[|dir|]);
    }
  }

  /** Going up and down again. */
  lemma ResolvesBack(dir: Path, sub: Bytes, name: Bytes)
    requires Plain(sub) && Plain(name)
    ensures Resolve(dir + [sub], "../" + sub + "/" + name) == dir + [sub, name]
  {
    var text := "../" + sub + "/" + name;
    assert text == ".." + ['/'] + (sub + ['/'] + name);
    SplitFirst("..", '/', sub + ['/'] + name);
    SplitPair(sub, '/', name);
    var segments := ["..", sub, name];
    assert [".."] + [sub, name] == segments;
    assert segments[1..] == [sub, name] && [sub, name][1..] == [name] && [name][1..] == [];
    assert (dir + [sub])[..|dir|] == dir;
    assert Walk(dir + [sub] + [name], []) == dir + [sub] + [name];
    assert Walk(dir + [sub], [name]) == dir + [sub] + [name];
    assert Walk(dir, [sub, name]) == dir + [sub] + [name];
  }

  // ------------------------------------------------- the cache's directories

  /** What there is at a path where there is no regular file: nothing, a directory, or a path the system
      refuses. */
  datatype NoFile = Absent | Directory | Refused

  datatype Layout = Layout(root: Path, kind: Path -> NoFile) {
    function Plugins(): Path { root + ["plugins"] }

    function Patches(): Path { root + ["patches"] }

    function PluginPath(name: Bytes): Path { root + ["plugins", name] }

    function PatchPath(key: Bytes): Path { root + ["patches", key] }

    predicate InPlugins(p: Path) {
      |p| == |root| + 2 && p[..|root|] == root && p[|root|] == "plugins"
    }

    predicate InPatches(p: Path) {
      |p| == |root| + 2 && p[..|root|] == root && p[|root|] == "patches"
    }

    /** The root is a clean path without wildcards; digests and keys are names the system takes; and there are no
        directories inside the two. */
    ghost predicate Good() {
      && Clean(root) && (forall i :: 0 <= i < |root| ==> '*' !in root[i])
      && (forall n :: kind(PluginPath(n)) != Directory && kind(PatchPath(n)) != Directory)
      && (forall h :: IsDigest(h) ==> kind(PluginPath(h)) == Absent)
      && (forall o, n :: IsDigest(o) && IsDigest(n) ==> kind(PatchPath(PatchKey(o, n))) == Absent)
    }

    /** A plain name the system takes: a plugin of that name may be absent, but can be asked for. */
    predicate Usable(name: Bytes) {
      Plain(name) && kind(PluginPath(name)) == Absent
    }
  }

  /** filepath.Match, segment by segment. */
  predicate MatchPath(pattern: Path, p: Path) {
    |pattern| == |p| && forall i :: 0 <= i < |p| ==> Match(pattern[i], p[i])
  }

  lemma RootMatches(l: Layout, pattern: Path, p: Path)
    requires l.Good() && |pattern| == |p| == |l.root| + 2 && pattern[..|l.root|] == l.root && '*' !in pattern[|l.root|]
    ensures MatchPath(pattern, p) <==>
            p[..|l.root|] == l.root && p[|l.root|] == pattern[|l.root|] && Match(pattern[|l.root| + 1], p[|l.root| + 1])
  {
    var n := |l.root|;
    forall i | 0 <= i <= n ensures Match(pattern[i], p[i]) <==> pattern[i] == p[i] {
      assert i < n ==> pattern[i] == l.root[i];
      MatchLiteral(pattern[i], p[i]);
    }
    if MatchPath(pattern, p) {
      forall i | 0 <= i < n ensures p[..n][i] == l.root[i] { assert Match(pattern[i], p[i]) && pattern[i] == l.root[i]; }
      assert p[..n] == l.root;
    }
    if p[..n] == l.root && p[n] == pattern[n] && Match(pattern[n + 1], p[n + 1]) {
      forall i | 0 <= i < |p| ensures Match(pattern[i], p[i]) {
        if i < n { assert p[i] == p[..n][i] && pattern[i] == l.root[i]; }
      }
    }
  }
}
