/** Names of patch files and the globs that find them (pkg/patch/filesystem.go:182-184, 225-232). */
module PatchKeys {
  import opened Common
  import opened PluginWorld

  function PatchKey(oldDigest: Bytes, newDigest: Bytes): Bytes {
    oldDigest + "-to-" + newDigest
  }

  /** filepath.Match for patterns made of literal characters and `*`: a star matches any run of
      characters other than the path separator. */
  predicate Match(pattern: Bytes, name: Bytes)
    decreases |pattern|, |name|
  {
    if pattern == "" then name == ""
    else if pattern[0] == '*' then
      exists k :: 0 <= k <= |name| && '/' !in name[..k] && Match(pattern[1..], name[k..])
    else name != "" && name[0] == pattern[0] && Match(pattern[1..], name[1..])
  }

  lemma {:induction false} MatchLiteral(pattern: Bytes, name: Bytes)
    requires '*' !in pattern
    ensures Match(pattern, name) <==> pattern == name
  {
    if pattern != "" && name != "" && name[0] == pattern[0] {
      MatchLiteral(pattern[1..], name[1..]);
      assert pattern == [pattern[0]] + pattern[1..] && name == [name[0]] + name[1..];
    }
  }

  /** `*suffix` finds exactly the names with that suffix. */
  lemma MatchSuffix(suffix: Bytes, name: Bytes)
    requires '*' !in suffix && '/' !in name
    ensures Match("*" + suffix, name) <==> |suffix| <= |name| && name[|name| - |suffix|..] == suffix
  {
    var pattern := "*" + suffix;
    assert pattern[1..] == suffix;
    forall k | 0 <= k <= |name| ensures Match(suffix, name[k..]) <==> name[k..] == suffix {
      MatchLiteral(suffix, name[k..]);
    }
    if |suffix| <= |name| && name[|name| - |suffix|..] == suffix {
      assert Match(pattern[1..], name[|name| - |suffix|..]);
    }
  }

  /** `prefix*` finds exactly the names with that prefix. */
  lemma {:induction false} MatchPrefix(prefix: Bytes, name: Bytes)
    requires '*' !in prefix && '/' !in name
    ensures Match(prefix + "*", name) <==> prefix <= name
  {
    var pattern := prefix + "*";
    if prefix == "" {
      assert pattern == "*" && pattern[1..] == "";
      assert name[|name|..] == "" && Match("", name[|name|..]);
      assert name[..|name|] == name;
    } else if name != "" && name[0] == prefix[0] {
      MatchPrefix(prefix[1..], name[1..]);
      assert pattern[1..] == prefix[1..] + "*";
      assert prefix == [prefix[0]] + prefix[1..] && name == [name[0]] + name[1..];
    }
  }

  /** The position of the first dash. */
  function Dash(s: Bytes): (n: nat)
    ensures n <= |s|
  {
    if s == "" || s[0] == '-' then 0 else 1 + Dash(s[1..])
  }

  lemma {:induction false} DashAt(o: Bytes, rest: Bytes)
    requires '-' !in o && rest != "" && rest[0] == '-'
    ensures Dash(o + rest) == |o|
  {
    if o != "" {
      DashAt(o[1..], rest);
      assert (o + rest)[1..] == o[1..] + rest;
    } else {
      assert o + rest == rest;
    }
  }

  lemma DigestPlain(h: Bytes)
    requires IsDigest(h)
    ensures '*' !in h && '/' !in h && '-' !in h
  {
  }

  /** Keys of different patches differ; the old digest may be any text an agent sends. */
  lemma KeyInjective(o: Bytes, n: Bytes, o': Bytes, n': Bytes)
    requires IsDigest(n) && IsDigest(n') && PatchKey(o, n) == PatchKey(o', n')
    ensures o == o' && n == n'
  {
    DigestPlain(n);
    DigestPlain(n');
    var k := PatchKey(o, n);
    assert k[|k| - |n| - 1] == '-' && k[|k| - |n'| - 1] == '-';
    assert forall i :: |k| - |n| <= i < |k| ==> k[i] in n;
    assert forall i :: |k| - |n'| <= i < |k| ==> k[i] in n';
    assert |n| == |n'|;
    assert k[|k| - |n|..] == n && k[|k| - |n|..] == n';
    assert k[..|k| - |n| - 4] == o && k[..|k| - |n| - 4] == o';
  }

  lemma SuffixOfKey(o: Bytes, n: Bytes, h: Bytes)
    requires IsDigest(n) && IsDigest(h)
    ensures var k, suffix := PatchKey(o, n), "-to-" + h;
            |suffix| <= |k| && k[|k| - |suffix|..] == suffix <==> n == h
  {
    var k, suffix := PatchKey(o, n), "-to-" + h;
    if n == h {
      assert k[|k| - |suffix|..] == suffix;
    }
    if |suffix| <= |k| && k[|k| - |suffix|..] == suffix {
      var x := k[..|k| - |suffix|];
      assert k == x + suffix;
      assert x + suffix == PatchKey(x, h);
      KeyInjective(o, n, x, h);
    }
  }

  lemma PrefixOfKey(o: Bytes, n: Bytes, h: Bytes)
    requires IsDigest(o) && IsDigest(h)
    ensures h + "-to-" <= PatchKey(o, n) <==> o == h
  {
    DigestPlain(o);
    DigestPlain(h);
    var k, prefix := PatchKey(o, n), h + "-to-";
    assert k == o + ("-to-" + n);
    DashAt(o, "-to-" + n);
    if prefix <= k {
      assert k == prefix + k[|prefix|..];
      assert k == h + ("-to-" + k[|prefix|..]);
      DashAt(h, "-to-" + k[|prefix|..]);
      assert k[..|o|] == o && k[..|h|] == h;
    }
  }

  /** The first glob of Clean finds exactly the patches leading to h, the second those starting at h. */
  lemma GlobsTouch(o: Bytes, n: Bytes, h: Bytes)
    requires IsDigest(o) && IsDigest(n) && IsDigest(h)
    ensures Match("*-to-" + h, PatchKey(o, n)) <==> n == h
    ensures Match(h + "-to-*", PatchKey(o, n)) <==> o == h
  {
    DigestPlain(o);
    DigestPlain(n);
    DigestPlain(h);
    assert '/' !in PatchKey(o, n);
    assert "*-to-" + h == "*" + ("-to-" + h);
    MatchSuffix("-to-" + h, PatchKey(o, n));
    SuffixOfKey(o, n, h);
    assert h + "-to-*" == (h + "-to-") + "*";
    MatchPrefix(h + "-to-", PatchKey(o, n));
    PrefixOfKey(o, n, h);
  }
}
