/** A signer that meets the laws asked of signers, so that they can be met. */
module SignerExample {
  import opened Common
  import opened Encodings
  import opened Text
  import opened Tokens

  /** The id with a mark before every octet, an end mark, and the secret. */
  function Json(t: Token): seq<Octet>
    decreases |t.id|
  {
    if t.id == [] then [0] + t.secret else [1, t.id[0]] + Json(Token(t.id[1..], t.secret))
  }

  function Parse(b: seq<Octet>): Option<Token> {
    if b == [] then None
    else if b[0] == 0 then Some(Token([], b[1..]))
    else if |b| == 1 then None
    else
      var rest := Parse(b[2..]);
      if rest.None? then None else Some(Token([b[1]] + rest.value.id, rest.value.secret))
  }

  lemma MarkedBack(x: Octet, b: seq<Octet>, t: Token)
    requires Parse(b) == Some(t)
    ensures Parse([1, x] + b) == Some(Token([x] + t.id, t.secret))
  {
    assert ([1, x] + b)[2..] == b;
  }

  lemma {:induction false} ParseJson(t: Token)
    ensures Parse(Json(t)) == Some(t)
    decreases |t.id|
  {
    if t.id != [] {
      var rest := Token(t.id[1..], t.secret);
      ParseJson(rest);
      MarkedBack(t.id[0], Json(rest), rest);
      assert t.id == [t.id[0]] + t.id[1..];
    }
  }

  /** A message verifies if its signature part repeats its payload part. */
  function Verify(message: string): Option<seq<Octet>> {
    var parts := Split(message, '.');
    if |parts| == 3 && parts[1] == parts[2] then Base64Decode(parts[1]) else None
  }

  const TOY := Signer(true, Json, Parse, "e30", Base64Encode, Verify)

  lemma Base64NoDot(b: seq<Octet>)
    ensures '.' !in Base64Encode(b)
  {
    assert SextetOf('.').None?;
  }

  lemma VerifyMessage(p: seq<Octet>, q: seq<Octet>)
    ensures Verify(TOY.Message(p, Base64Encode(q))) == if p == q then Some(p) else None
  {
    var a, b := Base64Encode(p), Base64Encode(q);
    Base64NoDot(p);
    Base64NoDot(q);
    Base64RoundTrip(p);
    Base64RoundTrip(q);
    assert TOY.Message(p, b) == "e30" + ['.'] + (a + ['.'] + b);
    SplitFirst("e30", '.', a + ['.'] + b);
    SplitPair(a, '.', b);
  }

  lemma ToyLawful()
    ensures TOY.Lawful()
  {
    forall p ensures '.' !in TOY.signature(p) { Base64NoDot(p); }
    forall t ensures TOY.parse(TOY.json(t)) == Some(t) { ParseJson(t); }
    forall p ensures TOY.verify(TOY.Compact(p)) == Some(p) { VerifyMessage(p, p); }
    forall p, q | p != q ensures TOY.verify(TOY.Message(p, TOY.signature(q))) == None { VerifyMessage(p, q); }
  }
}
