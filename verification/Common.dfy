/** Types shared by the whole model. */
module Common {
  datatype Option<+T> = None | Some(value: T)

  /** Go's `string` and `[]byte` are both byte sequences; names, digests and file
      contents are modelled with one `char` per byte. */
  type Bytes = string

  /** How writing a file in place ends: done, not even begun, or broken off after some bytes. */
  datatype WriteOutcome = Written | Unopened | Cut(kept: nat)

  /** What a broken-off write leaves of the data. */
  function Kept(data: Bytes, n: nat): Bytes {
    if n < |data| then data[..n] else data
  }

  predicate NoDup<T(==)>(s: seq<T>) {
    forall i, j :: 0 <= i < j < |s| ==> s[i] != s[j]
  }

  function Elems<T(==)>(s: seq<T>): set<T> {
    set x | x in s
  }

  function Below(n: nat): (s: set<nat>)
    ensures forall i :: i in s <==> 0 <= i < n
  {
    if n == 0 then {} else Below(n - 1) + {n - 1}
  }

  lemma ElemsAppend<T>(s: seq<T>, x: T)
    ensures Elems(s + [x]) == Elems(s) + {x}
  {
  }

  ghost predicate Permutes<T>(s: seq<T>, t: seq<T>) {
    multiset(s) == multiset(t)
  }

  /** The sequence without its element at position i. */
  function Without<T>(s: seq<T>, i: nat): (r: seq<T>)
    requires i < |s|
    ensures |r| == |s| - 1
    ensures multiset(r) == multiset(s) - multiset{s[i]}
  {
    assert s == s[..i] + [s[i]] + s[i + 1..];
    s[..i] + s[i + 1..]
  }

  lemma PermutesMembers<T>(s: seq<T>, t: seq<T>)
    requires Permutes(s, t)
    ensures |s| == |t|
    ensures forall x :: x in s <==> x in t
  {
    assert |multiset(s)| == |multiset(t)|;
    forall x ensures x in s <==> x in t {
      assert x in s <==> x in multiset(s);
      assert x in t <==> x in multiset(t);
    }
  }

  lemma NoDupCount<T>(s: seq<T>)
    ensures NoDup(s) <==> forall x :: x in s ==> multiset(s)[x] == 1
  {
    if s == [] {
    } else {
      var init, last := s[..|s| - 1], s[|s| - 1];
      assert s == init + [last];
      NoDupCount(init);
      if NoDup(s) {
        assert NoDup(init);
        assert last !in init;
        forall x | x in s ensures multiset(s)[x] == 1 {
          assert multiset(s) == multiset(init) + multiset{last};
          if x == last {
            assert x !in multiset(init);
          } else {
            assert x in init;
          }
        }
      }
      if forall x :: x in s ==> multiset(s)[x] == 1 {
        assert multiset(s) == multiset(init) + multiset{last};
        forall x | x in init ensures multiset(init)[x] == 1 {
          assert x in s && x in multiset(init);
        }
        assert last in s && last !in multiset(init);
        assert last !in init;
      }
    }
  }

  lemma NoDupConcat<T>(s: seq<T>, t: seq<T>)
    requires NoDup(s) && NoDup(t) && forall x :: x in s ==> x !in t
    ensures NoDup(s + t)
  {
    forall i, j | 0 <= i < j < |s + t| ensures (s + t)[i] != (s + t)[j] {
      if i < |s| <= j { assert s[i] in s && t[j - |s|] in t; }
    }
  }

  lemma PermutesNoDup<T>(s: seq<T>, t: seq<T>)
    requires Permutes(s, t) && NoDup(s)
    ensures NoDup(t)
  {
    NoDupCount(s);
    NoDupCount(t);
    PermutesMembers(s, t);
  }

  /** A list without repetitions is no longer than any list holding all its elements. */
  lemma NoDupLength<T>(s: seq<T>, t: seq<T>)
    requires NoDup(s) && forall x :: x in s ==> x in t
    ensures |s| <= |t|
  {
    NoDupCount(s);
    forall x | x in multiset(s) ensures multiset(s)[x] <= multiset(t)[x] {
      assert x in s && x in t && x in multiset(t);
    }
    assert multiset(s) <= multiset(t);
    assert multiset(t) == multiset(s) + (multiset(t) - multiset(s));
  }
}
