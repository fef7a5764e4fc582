/** Hexadecimal and unpadded base64url text (section 5 of RFC 4648), as the token, header and pin formats use
    them. */
module Encodings {
  import opened Common

  type Octet = n: int | 0 <= n < 256

  // ------------------------------------------------- hexadecimal

  function HexDigit(n: nat): (c: char)
    requires n < 16
    ensures HexValue(c) == Some(n)
  {
    if n < 10 then ('0' as int + n) as char else ('a' as int + n - 10) as char
  }

  function HexValue(c: char): (r: Option<nat>)
    ensures r.Some? ==> r.value < 16
  {
    if '0' <= c <= '9' then Some(c as int - '0' as int)
    else if 'a' <= c <= 'f' then Some(c as int - 'a' as int + 10)
    else if 'A' <= c <= 'F' then Some(c as int - 'A' as int + 10)
    else None
  }

  function HexEncode(b: seq<Octet>): (s: string)
    ensures |s| == 2 * |b|
    ensures forall i :: 0 <= i < |s| ==> HexValue(s[i]).Some?
  {
    if b == [] then "" else [HexDigit(b[0] / 16), HexDigit(b[0] % 16)] + HexEncode(b[1..])
  }

  function HexDecode(s: string): (r: Option<seq<Octet>>)
    ensures r.Some? ==> |s| == 2 * |r.value|
  {
    if s == "" then Some([])
    else if |s| == 1 || HexValue(s[0]).None? || HexValue(s[1]).None? then None
    else
      var rest := HexDecode(s[2..]);
      if rest.None? then None
      else Some([(16 * HexValue(s[0]).value + HexValue(s[1]).value) as Octet] + rest.value)
  }

  function LowerHex(c: char): char {
    if 'A' <= c <= 'F' then (c as int - 'A' as int + 'a' as int) as char else c
  }

  function Lower(s: string): (r: string)
    ensures |r| == |s|
  {
    if s == "" then "" else [LowerHex(s[0])] + Lower(s[1..])
  }

  lemma {:induction false} LowerConcat(s: string, t: string)
    ensures Lower(s + t) == Lower(s) + Lower(t)
  {
    if s == "" {
      assert s + t == t;
    } else {
      assert (s + t)[1..] == s[1..] + t;
      LowerConcat(s[1..], t);
    }
  }

  lemma {:induction false} HexRoundTrip(b: seq<Octet>)
    ensures HexDecode(HexEncode(b)) == Some(b)
  {
    if b != [] {
      var s := HexEncode(b);
      assert s[2..] == HexEncode(b[1..]);
      HexRoundTrip(b[1..]);
      assert b == [b[0]] + b[1..];
    }
  }

  lemma HexDigitsBack(c: char, d: char)
    requires HexValue(c).Some? && HexValue(d).Some?
    ensures var n := 16 * HexValue(c).value + HexValue(d).value;
            0 <= n < 256 && HexDigit(n / 16) == LowerHex(c) && HexDigit(n % 16) == LowerHex(d)
  {
    var n := 16 * HexValue(c).value + HexValue(d).value;
    assert n / 16 == HexValue(c).value && n % 16 == HexValue(d).value;
  }

  /** Whatever decodes is the encoding of the result, up to the case of its letters. */
  lemma {:induction false} HexCanonical(s: string)
    requires HexDecode(s).Some?
    ensures HexEncode(HexDecode(s).value) == Lower(s)
  {
    if s != "" {
      HexCanonical(s[2..]);
      HexDigitsBack(s[0], s[1]);
      var b := HexDecode(s).value;
      assert b[1..] == HexDecode(s[2..]).value;
      assert s[1..][1..] == s[2..];
      assert Lower(s[1..]) == [LowerHex(s[1])] + Lower(s[2..]);
      assert HexEncode(b) == [LowerHex(s[0]), LowerHex(s[1])] + HexEncode(b[1..]);
    }
  }

  lemma HexInjective(a: seq<Octet>, b: seq<Octet>)
    requires HexEncode(a) == HexEncode(b)
    ensures a == b
  {
    HexRoundTrip(a);
    HexRoundTrip(b);
  }

  // ------------------------------------------------- base64url without padding

  type Sextet = n: int | 0 <= n < 64

  function Symbol(n: Sextet): char
  {
    if n < 26 then ('A' as int + n) as char
    else if n < 52 then ('a' as int + n - 26) as char
    else if n < 62 then ('0' as int + n - 52) as char
    else if n == 62 then '-' else '_'
  }

  function SextetOf(c: char): (r: Option<Sextet>)
    ensures r.Some? ==> Symbol(r.value) == c
  {
    if 'A' <= c <= 'Z' then Some(c as int - 'A' as int)
    else if 'a' <= c <= 'z' then Some(c as int - 'a' as int + 26)
    else if '0' <= c <= '9' then Some(c as int - '0' as int + 52)
    else if c == '-' then Some(62) else if c == '_' then Some(63) else None
  }

  /** The sextets of a text, if every character is in the alphabet. */
  function Sextets(s: string): (r: Option<seq<Sextet>>)
    ensures r.Some? ==> |r.value| == |s|
  {
    if s == "" then Some([])
    else
      var rest := Sextets(s[1..]);
      if SextetOf(s[0]).None? || rest.None? then None else Some([SextetOf(s[0]).value] + rest.value)
  }

  function Symbols(v: seq<Sextet>): (s: string)
    ensures |s| == |v|
    ensures forall i :: 0 <= i < |s| ==> SextetOf(s[i]).Some?
  {
    if v == [] then "" else [Symbol(v[0])] + Symbols(v[1..])
  }

  lemma {:induction false} SymbolsRoundTrip(v: seq<Sextet>)
    ensures Sextets(Symbols(v)) == Some(v)
  {
    if v != [] {
      assert SextetOf(Symbol(v[0])) == Some(v[0]);
      assert Symbols(v)[1..] == Symbols(v[1..]);
      SymbolsRoundTrip(v[1..]);
      assert v == [v[0]] + v[1..];
    }
  }

  lemma {:induction false} SextetsRoundTrip(s: string)
    requires Sextets(s).Some?
    ensures Symbols(Sextets(s).value) == s
  {
    if s != "" {
      SextetsRoundTrip(s[1..]);
      var v := Sextets(s).value;
      assert v[1..] == Sextets(s[1..]).value;
      assert s == [s[0]] + s[1..];
    }
  }

  /** How two neighbouring octets share a sextet, and two neighbouring sextets an octet. */
  function First(a: Octet): Sextet { a / 4 }

  function Second(a: Octet, b: Octet): Sextet { a % 4 * 16 + b / 16 }

  function Third(b: Octet, c: Octet): Sextet { b % 16 * 4 + c / 64 }

  function Fourth(c: Octet): Sextet { c % 64 }

  function High(v: Sextet, w: Sextet): Octet { var n: int := v; n * 4 + w / 16 }

  function Middle(w: Sextet, x: Sextet): Octet { var n: int := w; n % 16 * 16 + x / 4 }

  function Low(x: Sextet, y: Sextet): Octet { var n: int := x; n % 4 * 64 + y }

  lemma OctetsBack(a: Octet, b: Octet, c: Octet)
    ensures High(First(a), Second(a, b)) == a
    ensures Middle(Second(a, b), Third(b, c)) == b
    ensures Low(Third(b, c), Fourth(c)) == c
    ensures Second(a, 0) % 16 == 0 && Third(b, 0) % 4 == 0
  {
  }

  lemma SextetsBack(v: Sextet, w: Sextet, x: Sextet, y: Sextet)
    ensures First(High(v, w)) == v
    ensures Second(High(v, w), Middle(w, x)) == w
    ensures Third(Middle(w, x), Low(x, y)) == x
    ensures Fourth(Low(x, y)) == y
    ensures Second(High(v, w), 0) == w <==> w % 16 == 0
    ensures Third(Middle(w, x), 0) == x <==> x % 4 == 0
  {
  }

  /** Three octets become four sextets; a rest of one or two becomes two or three, filled up with zero bits. */
  function Pack(b: seq<Octet>): seq<Sextet> {
    if |b| == 0 then []
    else if |b| == 1 then [First(b[0]), Second(b[0], 0)]
    else if |b| == 2 then [First(b[0]), Second(b[0], b[1]), Third(b[1], 0)]
    else [First(b[0]), Second(b[0], b[1]), Third(b[1], b[2]), Fourth(b[2])] + Pack(b[3..])
  }

  /** The bits left over at the end are dropped, whatever they are. */
  function Unpack(v: seq<Sextet>): seq<Octet> {
    if |v| <= 1 then []
    else if |v| == 2 then [High(v[0], v[1])]
    else if |v| == 3 then [High(v[0], v[1]), Middle(v[1], v[2])]
    else [High(v[0], v[1]), Middle(v[1], v[2]), Low(v[2], v[3])] + Unpack(v[4..])
  }

  /** There are bits left over only to fill up the last sextet, and they are zero. */
  predicate Exact(v: seq<Sextet>) {
    if |v| == 0 then true
    else if |v| == 1 then false
    else if |v| == 2 then v[1] % 16 == 0
    else if |v| == 3 then v[2] % 4 == 0
    else Exact(v[4..])
  }

  lemma {:induction false} ExactLength(v: seq<Sextet>)
    requires Exact(v)
    ensures |v| % 4 != 1
  {
    if |v| >= 4 { ExactLength(v[4..]); }
  }

  lemma PackMore(b: seq<Octet>)
    requires |b| >= 3
    ensures var v := Pack(b);
            |v| >= 4 && v[4..] == Pack(b[3..])
            && v[0] == First(b[0]) && v[1] == Second(b[0], b[1]) && v[2] == Third(b[1], b[2]) && v[3] == Fourth(b[2])
  {
  }

  lemma UnpackMore(v: seq<Sextet>)
    requires |v| >= 4
    ensures var b := Unpack(v);
            |b| >= 3 && b[3..] == Unpack(v[4..])
            && b[0] == High(v[0], v[1]) && b[1] == Middle(v[1], v[2]) && b[2] == Low(v[2], v[3])
  {
  }

  lemma SplitAt<T>(s: seq<T>, t: seq<T>, n: nat)
    requires |s| >= n && |t| >= n && (forall i :: 0 <= i < n ==> s[i] == t[i])
    ensures s == t <==> s[n..] == t[n..]
  {
    assert s == s[..n] + s[n..] && t == t[..n] + t[n..] && s[..n] == t[..n];
  }

  lemma UnpackTwo(v: Sextet, w: Sextet)
    ensures Unpack([v, w]) == [High(v, w)] && (Exact([v, w]) <==> w % 16 == 0)
  {
  }

  lemma UnpackThree(v: Sextet, w: Sextet, x: Sextet)
    ensures Unpack([v, w, x]) == [High(v, w), Middle(w, x)] && (Exact([v, w, x]) <==> x % 4 == 0)
  {
  }

  lemma PackOne(b: seq<Octet>)
    requires |b| == 1
    ensures Unpack(Pack(b)) == b && Exact(Pack(b))
  {
    var v: Sextet, w: Sextet := First(b[0]), Second(b[0], 0);
    assert Pack(b) == [v, w];
    UnpackTwo(v, w);
    assert High(v, w) == b[0] && w % 16 == 0 by { OctetsBack(b[0], 0, 0); }
  }

  lemma PackTwo(b: seq<Octet>)
    requires |b| == 2
    ensures Unpack(Pack(b)) == b && Exact(Pack(b))
  {
    var v: Sextet, w: Sextet, x: Sextet := First(b[0]), Second(b[0], b[1]), Third(b[1], 0);
    assert Pack(b) == [v, w, x];
    UnpackThree(v, w, x);
    assert High(v, w) == b[0] && Middle(w, x) == b[1] && x % 4 == 0 by { OctetsBack(b[0], b[1], 0); }
  }

  lemma PackHead(b: seq<Octet>)
    requires |b| >= 3
    ensures var c := Unpack(Pack(b));
            |c| >= 3 && c[0] == b[0] && c[1] == b[1] && c[2] == b[2] && c[3..] == Unpack(Pack(b[3..]))
  {
    PackMore(b);
    UnpackMore(Pack(b));
    OctetsBack(b[0], b[1], b[2]);
  }

  lemma {:induction false} PackRoundTrip(b: seq<Octet>)
    ensures Unpack(Pack(b)) == b && Exact(Pack(b))
  {
    if |b| == 0 {
    } else if |b| == 1 {
      PackOne(b);
    } else if |b| == 2 {
      PackTwo(b);
    } else {
      PackRoundTrip(b[3..]);
      PackHead(b);
      PackMore(b);
      SplitAt(Unpack(Pack(b)), b, 3);
    }
  }

  lemma UnpackShort(v: seq<Sextet>)
    requires |v| < 4
    ensures Pack(Unpack(v)) == v <==> Exact(v)
  {
    if |v| == 3 {
      SextetsBack(v[0], v[1], v[2], 0);
    } else if |v| == 2 {
      SextetsBack(v[0], v[1], 0, 0);
    }
  }

  lemma UnpackHead(v: seq<Sextet>)
    requires |v| >= 4
    ensures var w := Pack(Unpack(v));
            |w| >= 4 && w[0] == v[0] && w[1] == v[1] && w[2] == v[2] && w[3] == v[3] && w[4..] == Pack(Unpack(v[4..]))
  {
    UnpackMore(v);
    PackMore(Unpack(v));
    SextetsBack(v[0], v[1], v[2], v[3]);
  }

  lemma {:induction false} UnpackRoundTrip(v: seq<Sextet>)
    ensures Pack(Unpack(v)) == v <==> Exact(v)
  {
    if |v| < 4 {
      UnpackShort(v);
    } else {
      UnpackRoundTrip(v[4..]);
      UnpackHead(v);
      SplitAt(Pack(Unpack(v)), v, 4);
    }
  }

  /** The decoder skips line breaks anywhere. */
  function WithoutBreaks(s: string): (r: string)
    ensures |r| <= |s|
    ensures r == s <==> forall i :: 0 <= i < |s| ==> s[i] != '\r' && s[i] != '\n'
  {
    if s == "" then ""
    else if s[0] == '\r' || s[0] == '\n' then WithoutBreaks(s[1..])
    else
      var rest := WithoutBreaks(s[1..]);
      assert s == [s[0]] + s[1..];
      assert ([s[0]] + rest)[1..] == rest;
      assert (forall i :: 0 <= i < |s| ==> s[i] != '\r' && s[i] != '\n') <==>
             (forall i :: 0 <= i < |s[1..]| ==> s[1..][i] != '\r' && s[1..][i] != '\n') by {
        forall i | 0 <= i < |s| && forall j :: 0 <= j < |s[1..]| ==> s[1..][j] != '\r' && s[1..][j] != '\n'
          ensures s[i] != '\r' && s[i] != '\n'
        {
          if i > 0 { assert s[1..][i - 1] == s[i]; }
        }
      }
      [s[0]] + rest
  }

  function Base64Encode(b: seq<Octet>): string {
    Symbols(Pack(b))
  }

  function Base64Decode(s: string): Option<seq<Octet>> {
    var v := Sextets(WithoutBreaks(s));
    if v.None? || |v.value| % 4 == 1 then None else Some(Unpack(v.value))
  }

  /** In the alphabet, of a possible length, and with no bits set beyond the last octet. */
  predicate Canonical(s: string) {
    Sextets(s).Some? && Exact(Sextets(s).value)
  }

  lemma AlphabetNoBreaks(s: string)
    requires forall i :: 0 <= i < |s| ==> SextetOf(s[i]).Some?
    ensures WithoutBreaks(s) == s
  {
  }

  lemma Base64RoundTrip(b: seq<Octet>)
    ensures Base64Decode(Base64Encode(b)) == Some(b)
  {
    PackRoundTrip(b);
    ExactLength(Pack(b));
    SymbolsRoundTrip(Pack(b));
    AlphabetNoBreaks(Base64Encode(b));
  }

  lemma {:induction false} SextetsAlphabet(s: string)
    requires Sextets(s).Some?
    ensures forall i :: 0 <= i < |s| ==> SextetOf(s[i]).Some?
  {
    if s != "" {
      SextetsAlphabet(s[1..]);
      forall i | 0 <= i < |s| ensures SextetOf(s[i]).Some? {
        if i > 0 { assert s[i] == s[1..][i - 1]; }
      }
    }
  }

  /** The texts that are the encoding of what they decode to are exactly the canonical ones: the decoder also
      accepts line breaks and stray bits at the end. */
  lemma Base64Canonical(s: string)
    ensures (Base64Decode(s).Some? && Base64Encode(Base64Decode(s).value) == s) <==> Canonical(s)
  {
    if Base64Decode(s).Some? && Base64Encode(Base64Decode(s).value) == s {
      var b := Base64Decode(s).value;
      SymbolsRoundTrip(Pack(b));
      PackRoundTrip(b);
    }
    if Canonical(s) {
      SextetsAlphabet(s);
      AlphabetNoBreaks(s);
      UnpackRoundTrip(Sextets(s).value);
      ExactLength(Sextets(s).value);
      SextetsRoundTrip(s);
    }
  }

  // ------------------------------------------------- the texts themselves

  const HEX_DIGITS := "0123456789abcdef"

  /** Each octet is two digits, the high one first. */
  lemma {:induction false} HexAt(b: seq<Octet>, i: nat)
    requires i < |b|
    ensures HexEncode(b)[2 * i] == HEX_DIGITS[b[i] / 16] && HexEncode(b)[2 * i + 1] == HEX_DIGITS[b[i] % 16]
  {
    if i == 0 {
      HexDigitIs(b[0] / 16);
      HexDigitIs(b[0] % 16);
    } else {
      HexAt(b[1..], i - 1);
      assert HexEncode(b)[2..] == HexEncode(b[1..]);
    }
  }

  lemma HexDigitIs(n: nat)
    requires n < 16
    ensures HexDigit(n) == HEX_DIGITS[n]
  {
    assert n < 4 || 4 <= n < 8 || 8 <= n < 12 || 12 <= n;
  }

  /** Section 10 of RFC 4648, without padding, and the two symbols in which base64url differs. */
  lemma Base64Vectors()
    ensures Base64Encode([]) == "" && Base64Encode([102]) == "Zg" && Base64Encode([102, 111]) == "Zm8"
    ensures Base64Encode([102, 111, 111]) == "Zm9v" && Base64Encode([251, 255]) == "-_8"
  {
    assert Symbols(Pack([])) == "";
    PackSymbols([First(102), Second(102, 0)]);
    PackSymbols([First(102), Second(102, 111), Third(111, 0)]);
    PackSymbols([First(102), Second(102, 111), Third(111, 111), Fourth(111)]);
    PackSymbols([First(251), Second(251, 255), Third(255, 0)]);
  }

  lemma PackSymbols(v: seq<Sextet>)
    ensures |v| == 2 ==> Symbols(v) == [Symbol(v[0]), Symbol(v[1])]
    ensures |v| == 3 ==> Symbols(v) == [Symbol(v[0]), Symbol(v[1]), Symbol(v[2])]
    ensures |v| == 4 ==> Symbols(v) == [Symbol(v[0]), Symbol(v[1]), Symbol(v[2]), Symbol(v[3])]
  {
    if |v| == 2 {
      assert v[1..] == [v[1]] && v[1..][1..] == [];
    } else if |v| == 3 {
      PackSymbols(v[1..]);
    } else if |v| == 4 {
      PackSymbols(v[1..]);
    }
  }

  /** The alphabet of section 5 of RFC 4648, in rows of sixteen. */
  const ALPHABET := ["ABCDEFGHIJKLMNOP", "QRSTUVWXYZabcdef", "ghijklmnopqrstuv", "wxyz0123456789-_"]

  lemma FirstRow(n: nat)
    requires n < 16
    ensures Symbol(n) == "ABCDEFGHIJKLMNOP"[n]
  {
    assert n < 4 || 4 <= n < 8 || 8 <= n < 12 || 12 <= n;
  }

  lemma SecondRow(n: nat)
    requires n < 16
    ensures Symbol(16 + n) == "QRSTUVWXYZabcdef"[n]
  {
    assert n < 4 || 4 <= n < 8 || 8 <= n < 12 || 12 <= n;
  }

  lemma ThirdRow(n: nat)
    requires n < 16
    ensures Symbol(32 + n) == "ghijklmnopqrstuv"[n]
  {
    assert n < 4 || 4 <= n < 8 || 8 <= n < 12 || 12 <= n;
  }

  lemma FourthRow(n: nat)
    requires n < 16
    ensures Symbol(48 + n) == "wxyz0123456789-_"[n]
  {
    assert n < 4 || 4 <= n < 8 || 8 <= n < 12 || 12 <= n;
  }

  /** Every sextet is the symbol at its place in the alphabet. */
  lemma SymbolIs(n: Sextet)
    ensures |ALPHABET[n / 16]| == 16 && Symbol(n) == ALPHABET[n / 16][n % 16]
  {
    if n < 16 { FirstRow(n); } else if n < 32 { SecondRow(n - 16); } else if n < 48 { ThirdRow(n - 32); } else { FourthRow(n - 48); }
  }
}
