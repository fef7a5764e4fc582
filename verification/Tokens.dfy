/** Bootstrap tokens, their text form, their detached signatures (pkg/tokens/token.go,
    pkg/tokens/conversion.go), and the Join half of the bootstrap protocol (pkg/bootstrap/server_v2.go,
    pkg/bootstrap/client_v2.go). */
module Tokens {
  import opened Common
  import opened Encodings
  import opened Text

  datatype Token = Token(id: seq<Octet>, secret: seq<Octet>)

  // ------------------------------------------------- hexadecimal form

  function HexId(t: Token): string {
    HexEncode(t.id)
  }

  function EncodeHex(t: Token): string {
    HexEncode(t.id) + "." + HexEncode(t.secret)
  }

  const ID_SIZE := 6
  const SECRET_SIZE := 26

  function ParseHex(s: string): Option<Token> {
    var parts := Split(s, '.');
    if |parts| != 2 || |parts[0]| != 2 * ID_SIZE || |parts[1]| != 2 * SECRET_SIZE then None
    else
      var id, secret := HexDecode(parts[0]), HexDecode(parts[1]);
      if id.None? || secret.None? then None else Some(Token(id.value, secret.value))
  }

  lemma HexNoDot(b: seq<Octet>)
    ensures '.' !in HexEncode(b)
  {
    assert HexValue('.').None?;
  }

  /** A token parses from its text exactly if it has 6 bytes of id and 26 of secret. */
  lemma TokenRoundTrip(t: Token)
    ensures ParseHex(EncodeHex(t)) == Some(t) <==> |t.id| == 6 && |t.secret| == 26
    ensures ParseHex(EncodeHex(t)) != Some(t) ==> ParseHex(EncodeHex(t)) == None
  {
    HexNoDot(t.id);
    HexNoDot(t.secret);
    SplitPair(HexEncode(t.id), '.', HexEncode(t.secret));
    HexRoundTrip(t.id);
    HexRoundTrip(t.secret);
  }

  /** A text that parses is the token's text, but for the case of its letters. */
  lemma TokenCanonical(s: string)
    requires ParseHex(s).Some?
    ensures EncodeHex(ParseHex(s).value) == Lower(s)
  {
    var parts := Split(s, '.');
    SplitWhole(s, '.');
    HexCanonical(parts[0]);
    HexCanonical(parts[1]);
    LowerConcat(parts[0] + ".", parts[1]);
    LowerConcat(parts[0], ".");
    assert Lower(".") == ".";
  }

  // ------------------------------------------------- detached signatures

  function Dotted(a: string, mid: string, b: string): string {
    a + ['.'] + mid + ['.'] + b
  }

  /** One signing key: JSON and the signature algorithm are foreign. A compact JWS is made of a header, the
      encoded payload and the signature (section 7.1 of RFC 7515). */
  datatype Signer = Signer(
    ed25519: bool,
    json: Token -> seq<Octet>,
    parse: seq<Octet> -> Option<Token>,
    header: string,
    signature: seq<Octet> -> string,
    verify: string -> Option<seq<Octet>>)
  {
    function Message(payload: seq<Octet>, sig: string): string {
      Dotted(header, Base64Encode(payload), sig)
    }

    function Compact(payload: seq<Octet>): string {
      Message(payload, signature(payload))
    }

    ghost predicate Lawful() {
      && '.' !in header && (forall p :: '.' !in signature(p))
      && (forall t :: parse(json(t)) == Some(t))
      && (forall p :: verify(Compact(p)) == Some(p))
      && (forall p, q :: p != q ==> verify(Message(p, signature(q))) == None)
    }
  }

  function FirstIndex(s: string, c: char): (r: Option<nat>)
    ensures r.Some? ==> r.value < |s| && s[r.value] == c && forall i :: 0 <= i < r.value ==> s[i] != c
    ensures r.None? ==> c !in s
  {
    if s == "" then None
    else if s[0] == c then Some(0)
    else
      var r := FirstIndex(s[1..], c);
      assert s == [s[0]] + s[1..];
      if r.None? then None else Some(r.value + 1)
  }

  function LastIndex(s: string, c: char): (r: Option<nat>)
    ensures r.Some? ==> r.value < |s| && s[r.value] == c && forall i :: r.value < i < |s| ==> s[i] != c
    ensures r.None? ==> c !in s
  {
    if s == "" then None
    else if s[|s| - 1] == c then Some(|s| - 1)
    else
      var n := |s| - 1;
      assert s == s[..n] + [s[n]];
      LastIndex(s[..n], c)
  }

  /** Cuts out what is between the first and the last dot. */
  function Detach(sig: string): string {
    var first, last := FirstIndex(sig, '.'), LastIndex(sig, '.');
    if first.None? || last.None? then sig else sig[..first.value + 1] + sig[last.value..]
  }

  function SignDetached(sg: Signer, t: Token): Option<string> {
    if !sg.ed25519 then None else Some(Detach(sg.Compact(sg.json(t))))
  }

  /** Puts a payload back between the dots, if there are any. */
  function Reattach(sig: string, payload: string): Option<string> {
    var first, last := FirstIndex(sig, '.'), LastIndex(sig, '.');
    if first.None? || last.None? then None else Some(sig[..first.value + 1] + payload + sig[last.value..])
  }

  function VerifyDetached(sg: Signer, t: Token, sig: string): Option<string> {
    var full := Reattach(sig, Base64Encode(sg.json(t)));
    if full.None? || sg.verify(full.value).None? then None else full
  }

  /** The first dot ends a prefix without dots, and the last starts a suffix without. */
  lemma DotsAre(a: string, mid: string, b: string)
    requires '.' !in a && '.' !in b
    ensures FirstIndex(Dotted(a, mid, b), '.') == Some(|a|) && LastIndex(Dotted(a, mid, b), '.') == Some(|a| + |mid| + 1)
  {
    var s := Dotted(a, mid, b);
    assert s[|a|] == '.' && s[|a| + |mid| + 1] == '.';
    assert forall i :: 0 <= i < |a| ==> s[i] == a[i];
    assert forall i :: |a| + |mid| + 2 <= i < |s| ==> s[i] == b[i - |a| - |mid| - 2];
  }

  lemma DetachDotted(a: string, mid: string, b: string)
    requires '.' !in a && '.' !in b
    ensures Detach(Dotted(a, mid, b)) == Dotted(a, "", b)
  {
    DotsAre(a, mid, b);
    DottedEnds(a, mid, b);
    assert Dotted(a, "", b) == (a + ['.']) + (['.'] + b);
  }

  lemma DottedEnds(a: string, mid: string, b: string)
    ensures Dotted(a, mid, b)[..|a| + 1] == a + ['.']
    ensures Dotted(a, mid, b)[|a| + |mid| + 1..] == ['.'] + b
  {
    var s := Dotted(a, mid, b);
    assert s == (a + ['.']) + (mid + (['.'] + b));
    assert s == ((a + ['.']) + mid) + (['.'] + b);
  }

  lemma ReattachDotted(a: string, mid: string, b: string)
    requires '.' !in a && '.' !in b
    ensures Reattach(Dotted(a, "", b), mid) == Some(Dotted(a, mid, b))
  {
    DotsAre(a, "", b);
    var s := Dotted(a, "", b);
    assert s[..|a| + 1] == a + ['.'] && s[|a| + 1..] == ['.'] + b;
    assert (a + ['.']) + mid + (['.'] + b) == Dotted(a, mid, b);
  }

  /** A detached signature of one token verifies for another exactly if they are the same token, and then gives
      back the original compact form. */
  lemma DetachedRoundTrip(sg: Signer, t: Token, u: Token)
    requires sg.Lawful() && sg.ed25519
    ensures SignDetached(sg, t).Some?
    ensures VerifyDetached(sg, u, SignDetached(sg, t).value) == if u == t then Some(sg.Compact(sg.json(t))) else None
  {
    var sig := sg.signature(sg.json(t));
    DetachDotted(sg.header, Base64Encode(sg.json(t)), sig);
    ReattachDotted(sg.header, Base64Encode(sg.json(u)), sig);
    Verifies(sg, t, u);
  }

  lemma Verifies(sg: Signer, t: Token, u: Token)
    requires sg.Lawful()
    ensures sg.verify(sg.Message(sg.json(u), sg.signature(sg.json(t)))) == if u == t then Some(sg.json(t)) else None
  {
    assert sg.parse(sg.json(t)) == Some(t) && sg.parse(sg.json(u)) == Some(u);
    assert sg.verify(sg.Compact(sg.json(t))) == Some(sg.json(t));
  }

  // ------------------------------------------------- Join

  /** A token as stored, in hexadecimal. */
  datatype Stored = Stored(tokenId: string, secret: string)

  function FromBootstrapToken(s: Stored): Option<Token> {
    var id, secret := HexDecode(s.tokenId), HexDecode(s.secret);
    if id.None? || secret.None? then None else Some(Token(id.value, secret.value))
  }

  function ToBootstrapToken(t: Token): Stored {
    Stored(HexEncode(t.id), HexEncode(t.secret))
  }

  lemma StoredRoundTrip(t: Token)
    ensures FromBootstrapToken(ToBootstrapToken(t)) == Some(t)
  {
    HexRoundTrip(t.id);
    HexRoundTrip(t.secret);
  }

  datatype JoinResult = Signatures(signatures: map<string, string>) | JoinError | NotAccepting

  /** The signatures by token id, or none if some token cannot be decoded or signed. */
  function SignAll(sg: Signer, list: seq<Stored>): Option<map<string, string>> {
    if list == [] then Some(map[])
    else
      var others := SignAll(sg, list[..|list| - 1]);
      var t := FromBootstrapToken(list[|list| - 1]);
      if others.None? || t.None? || SignDetached(sg, t.value).None? then None
      else Some(others.value[HexId(t.value) := SignDetached(sg, t.value).value])
  }

  lemma {:induction false} SignAllFails(sg: Signer, list: seq<Stored>, k: nat)
    requires k <= |list| && SignAll(sg, list[..k]).None?
    ensures SignAll(sg, list).None?
  {
    if k < |list| {
      assert list[..|list| - 1][..k] == list[..k];
      SignAllFails(sg, list[..|list| - 1], k);
    } else {
      assert list[..k] == list;
    }
  }

  method Join(sg: Signer, list: seq<Stored>) returns (r: JoinResult)
    ensures r.JoinError? <==> SignAll(sg, list).None?
    ensures r.NotAccepting? <==> list == []
    ensures r.Signatures? ==> SignAll(sg, list) == Some(r.signatures)
  {
    var signatures := map[];
    for k := 0 to |list|
      invariant SignAll(sg, list[..k]) == Some(signatures)
      invariant k > 0 ==> signatures != map[]
    {
      assert list[..k + 1][..k] == list[..k];
      var rawToken := FromBootstrapToken(list[k]);
      if rawToken.None? {
        SignAllFails(sg, list, k + 1);
        return JoinError;
      }
      var sig := SignDetached(sg, rawToken.value);
      if sig.None? {
        SignAllFails(sg, list, k + 1);
        return JoinError;
      }
      signatures := signatures[HexId(rawToken.value) := sig.value];
      assert HexId(rawToken.value) in signatures;
    }
    assert list[..|list|] == list;
    if signatures == map[] {
      return NotAccepting;
    }
    r := Signatures(signatures);
  }

  /** The client's half; none if no signature is for its token or that one does not verify. */
  function FindValidSignature(sg: Signer, t: Token, signatures: map<string, string>): Option<string> {
    if HexId(t) in signatures then VerifyDetached(sg, t, signatures[HexId(t)]) else None
  }

  ghost predicate UniqueIds(tokens: seq<Token>) {
    forall i, j :: 0 <= i < j < |tokens| ==> tokens[i].id != tokens[j].id
  }

  function StoreAll(tokens: seq<Token>): (list: seq<Stored>)
    ensures |list| == |tokens|
  {
    if tokens == [] then [] else StoreAll(tokens[..|tokens| - 1]) + [ToBootstrapToken(tokens[|tokens| - 1])]
  }

  lemma StoreLast(tokens: seq<Token>)
    requires tokens != []
    ensures var n := |tokens| - 1;
            StoreAll(tokens)[..n] == StoreAll(tokens[..n]) && StoreAll(tokens)[n] == ToBootstrapToken(tokens[n])
  {
  }

  lemma SignOneMore(sg: Signer, tokens: seq<Token>)
    requires sg.ed25519 && tokens != [] && SignAll(sg, StoreAll(tokens[..|tokens| - 1])).Some?
    ensures var t := tokens[|tokens| - 1];
            && SignDetached(sg, t).Some?
            && SignAll(sg, StoreAll(tokens)) ==
               Some(SignAll(sg, StoreAll(tokens[..|tokens| - 1])).value[HexEncode(t.id) := SignDetached(sg, t).value])
  {
    var n := |tokens| - 1;
    StoreLast(tokens);
    StoredRoundTrip(tokens[n]);
    SignLast(sg, StoreAll(tokens), tokens[n]);
  }

  lemma SignLast(sg: Signer, list: seq<Stored>, t: Token)
    requires sg.ed25519 && list != [] && FromBootstrapToken(list[|list| - 1]) == Some(t)
    requires SignAll(sg, list[..|list| - 1]).Some?
    ensures SignAll(sg, list) == Some(SignAll(sg, list[..|list| - 1]).value[HexEncode(t.id) := SignDetached(sg, t).value])
  {
  }

  /** The signature under an id is of a token with that id, and there is one for every token. */
  ghost predicate Covers(sg: Signer, tokens: seq<Token>, signatures: map<string, string>, id: seq<Octet>) {
    && (HexEncode(id) in signatures ==> exists i :: 0 <= i < |tokens| && tokens[i].id == id)
    && (forall i :: 0 <= i < |tokens| && tokens[i].id == id ==> SignedAs(sg, tokens[i], signatures))
  }

  predicate SignedAs(sg: Signer, t: Token, signatures: map<string, string>) {
    HexEncode(t.id) in signatures && Some(signatures[HexEncode(t.id)]) == SignDetached(sg, t)
  }

  /** For stored tokens with different ids, Join signs each under its own id, and nothing else. */
  lemma {:induction false} SignAllCovers(sg: Signer, tokens: seq<Token>, id: seq<Octet>)
    requires sg.ed25519 && UniqueIds(tokens)
    ensures SignAll(sg, StoreAll(tokens)).Some? && Covers(sg, tokens, SignAll(sg, StoreAll(tokens)).value, id)
  {
    if tokens == [] {
      CoversNone(sg, id);
    } else {
      var n := |tokens| - 1;
      SignAllCovers(sg, tokens[..n], id);
      SignOneMore(sg, tokens);
      CoversMore(sg, tokens, SignAll(sg, StoreAll(tokens[..n])).value, id);
    }
  }

  lemma CoversNone(sg: Signer, id: seq<Octet>)
    ensures SignAll(sg, StoreAll([])) == Some(map[]) && Covers(sg, [], map[], id)
  {
    assert StoreAll([]) == [];
  }

  lemma CoversMore(sg: Signer, tokens: seq<Token>, signatures: map<string, string>, id: seq<Octet>)
    requires tokens != [] && UniqueIds(tokens) && Covers(sg, tokens[..|tokens| - 1], signatures, id)
    requires SignDetached(sg, tokens[|tokens| - 1]).Some?
    ensures var t := tokens[|tokens| - 1];
            Covers(sg, tokens, signatures[HexEncode(t.id) := SignDetached(sg, t).value], id)
  {
    var n := |tokens| - 1;
    var t, text := tokens[n], HexEncode(tokens[n].id);
    var more := signatures[text := SignDetached(sg, t).value];
    if HexEncode(id) == text { HexInjective(id, t.id); }
    if HexEncode(id) in signatures {
      var i :| 0 <= i < n && tokens[..n][i].id == id;
      assert tokens[i].id == id;
    }
    forall i | 0 <= i < |tokens| && tokens[i].id == id ensures SignedAs(sg, tokens[i], more) {
      if i < n {
        assert tokens[..n][i] == tokens[i] && SignedAs(sg, tokens[..n][i], signatures);
        assert tokens[i].id != t.id;
      }
    }
  }

  lemma FindIn(sg: Signer, tokens: seq<Token>, signatures: map<string, string>, t: Token)
    requires sg.Lawful() && sg.ed25519 && UniqueIds(tokens) && Covers(sg, tokens, signatures, t.id)
    ensures FindValidSignature(sg, t, signatures) == if t in tokens then Some(sg.Compact(sg.json(t))) else None
  {
    if HasId(tokens, t.id) {
      var i := TokenWith(sg, tokens, signatures, t.id);
      UniqueAt(tokens, i, t);
      FindSigned(sg, tokens[i], signatures, t);
    } else {
      FindNone(sg, tokens, signatures, t);
    }
  }

  predicate HasId(tokens: seq<Token>, id: seq<Octet>) {
    exists i :: 0 <= i < |tokens| && tokens[i].id == id
  }

  lemma TokenWith(sg: Signer, tokens: seq<Token>, signatures: map<string, string>, id: seq<Octet>) returns (i: nat)
    requires HasId(tokens, id) && Covers(sg, tokens, signatures, id)
    ensures i < |tokens| && tokens[i].id == id && SignedAs(sg, tokens[i], signatures)
  {
    i :| 0 <= i < |tokens| && tokens[i].id == id;
  }

  lemma UniqueAt(tokens: seq<Token>, i: nat, t: Token)
    requires UniqueIds(tokens) && i < |tokens| && tokens[i].id == t.id
    ensures t in tokens <==> tokens[i] == t
  {
  }

  lemma FindNone(sg: Signer, tokens: seq<Token>, signatures: map<string, string>, t: Token)
    requires !HasId(tokens, t.id) && Covers(sg, tokens, signatures, t.id)
    ensures FindValidSignature(sg, t, signatures) == None && t !in tokens
  {
  }

  /** The signature found is some token's. */
  lemma FindSigned(sg: Signer, signed: Token, signatures: map<string, string>, t: Token)
    requires sg.Lawful() && sg.ed25519 && SignedAs(sg, signed, signatures) && signed.id == t.id
    ensures FindValidSignature(sg, t, signatures) == if t == signed then Some(sg.Compact(sg.json(t))) else None
  {
    DetachedRoundTrip(sg, signed, t);
  }

  /** A client finds a valid signature exactly if its token, secret included, is one of the server's. What it
      finds is the compact form the server signed, from which the server reads that token again. */
  lemma JoinThenFind(sg: Signer, tokens: seq<Token>, t: Token)
    requires sg.Lawful() && sg.ed25519 && UniqueIds(tokens)
    ensures SignAll(sg, StoreAll(tokens)).Some?
    ensures var found := FindValidSignature(sg, t, SignAll(sg, StoreAll(tokens)).value);
            && (found.Some? <==> t in tokens)
            && (found.Some? ==> sg.verify(found.value) == Some(sg.json(t)) && sg.parse(sg.json(t)) == Some(t))
  {
    SignAllCovers(sg, tokens, t.id);
    FindIn(sg, tokens, SignAll(sg, StoreAll(tokens)).value, t);
    Verifies(sg, t, t);
    assert sg.parse(sg.json(t)) == Some(t);
  }
}
