/** Public key pins and their text form (pkg/pkp/pin.go). */
module PublicKeyPin {
  import opened Common
  import opened Encodings
  import opened Text

  datatype Pin = Pin(algorithm: string, fingerprint: seq<Octet>)

  datatype Error = MissingAlgorithm | UnsupportedAlgorithm | MalformedPin

  datatype Result = Ok(pin: Pin) | Err(error: Error)

  predicate Supported(algorithm: string) {
    algorithm == "sha256" || algorithm == "b2b256"
  }

  function Encode(p: Pin): string {
    p.algorithm + ":" + Base64Encode(p.fingerprint)
  }

  function DecodePin(s: string): Result {
    var parts := Split(s, ':');
    if |parts| == 1 then Err(MissingAlgorithm)
    else if |parts| > 2 then Err(MalformedPin)
    else
      var fingerprint := Base64Decode(parts[1]);
      if fingerprint.None? then Err(MalformedPin)
      else if Supported(parts[0]) then Ok(Pin(parts[0], fingerprint.value))
      else Err(UnsupportedAlgorithm)
  }

  lemma Base64NoColon(b: seq<Octet>)
    ensures ':' !in Base64Encode(b)
  {
    forall i | 0 <= i < |Base64Encode(b)| ensures Base64Encode(b)[i] != ':' {
      assert SextetOf(Base64Encode(b)[i]).Some? && SextetOf(':').None?;
    }
  }

  /** A pin decodes from its text exactly if its algorithm is supported; its fingerprint may be anything. */
  lemma PinRoundTrip(p: Pin)
    ensures DecodePin(Encode(p)) == Ok(p) <==> p.algorithm == "sha256" || p.algorithm == "b2b256"
  {
    if Supported(p.algorithm) {
      Base64NoColon(p.fingerprint);
      SplitPair(p.algorithm, ':', Base64Encode(p.fingerprint));
      Base64RoundTrip(p.fingerprint);
    }
  }

  /** The text of whatever decodes is that text again exactly if its fingerprint part is canonical base64url. */
  lemma PinCanonical(s: string)
    requires DecodePin(s).Ok?
    ensures Encode(DecodePin(s).pin) == s <==> Canonical(Split(s, ':')[1])
  {
    var parts := Split(s, ':');
    SplitWhole(s, ':');
    Base64Canonical(parts[1]);
    var text := Encode(DecodePin(s).pin);
    assert text[|parts[0]| + 1..] == Base64Encode(Base64Decode(parts[1]).value);
    assert s[|parts[0]| + 1..] == parts[1];
  }
}
