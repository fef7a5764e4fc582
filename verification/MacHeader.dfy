/** The Authorization header that carries a MAC (pkg/b2mac/header.go). */
module MacHeader {
  import opened Common
  import opened Encodings
  import opened Text

  // ------------------------------------------------- the nonce

  type Uuid = seq<Octet>

  predicate IsUuid(u: Uuid) {
    |u| == 16
  }

  /** Version 4, and the variant of RFC 4122. */
  predicate IsV4(u: Uuid)
    requires IsUuid(u)
  {
    u[6] / 16 == 4 && u[8] / 64 == 2
  }

  /** Section 3 of RFC 4122: the hexadecimal digits in groups of 8, 4, 4, 4 and 12. */
  function Dashed(h: string): (s: string)
    requires |h| == 32
    ensures |s| == 36
  {
    h[..8] + "-" + h[8..12] + "-" + h[12..16] + "-" + h[16..20] + "-" + h[20..]
  }

  function Undashed(s: string): (h: string)
    requires |s| == 36
    ensures |h| == 32
  {
    s[..8] + s[9..13] + s[14..18] + s[19..23] + s[24..]
  }

  lemma DashesBack(h: string)
    requires |h| == 32
    ensures Undashed(Dashed(h)) == h
    ensures var s := Dashed(h); s[8] == '-' && s[13] == '-' && s[18] == '-' && s[23] == '-'
  {
    var s := Dashed(h);
    assert s[..8] == h[..8];
    assert s[9..13] == h[8..12];
    assert s[14..18] == h[12..16];
    assert s[19..23] == h[16..20];
    assert s[24..] == h[20..];
    FiveParts(h);
  }

  lemma FiveParts(h: string)
    requires |h| == 32
    ensures h[..8] + h[8..12] + h[12..16] + h[16..20] + h[20..] == h
  {
  }

  lemma DashedChars(h: string, i: nat)
    requires |h| == 32 && i < 36
    ensures Dashed(h)[i] == '-' || Dashed(h)[i] in h
  {
  }

  function UuidText(u: Uuid): string
    requires IsUuid(u)
  {
    Dashed(HexEncode(u))
  }

  function AsciiLower(s: string): (r: string)
    ensures |r| == |s|
  {
    if s == "" then ""
    else [if 'A' <= s[0] <= 'Z' then (s[0] as int + 32) as char else s[0]] + AsciiLower(s[1..])
  }

  /** The dashed form in a text: alone, as a URN, or between any two characters, such as braces. */
  function DashedForm(s: string): (r: Option<string>)
    ensures r.Some? ==> |r.value| == 36
  {
    if |s| == 36 then Some(s)
    else if |s| == 45 && AsciiLower(s[..9]) == "urn:uuid:" then Some(s[9..])
    else if |s| == 38 then Some(s[1..37])
    else None
  }

  /** The forms the UUID library accepts: the dashed one or 32 digits alone. */
  function ParseUuid(s: string): (r: Option<Uuid>)
    ensures r.Some? ==> IsUuid(r.value)
  {
    if |s| == 32 then HexDecode(s)
    else
      var d := DashedForm(s);
      if d.None? || d.value[8] != '-' || d.value[13] != '-' || d.value[18] != '-' || d.value[23] != '-' then None
      else HexDecode(Undashed(d.value))
  }

  lemma UuidRoundTrip(u: Uuid)
    requires IsUuid(u)
    ensures ParseUuid(UuidText(u)) == Some(u)
  {
    DashesBack(HexEncode(u));
    HexRoundTrip(u);
  }

  /** The text is the hexadecimal digits in their order, in the five groups. */
  lemma UuidGroups(u: Uuid)
    requires IsUuid(u)
    ensures var h := HexEncode(u);
            UuidText(u) == h[..8] + "-" + h[8..12] + "-" + h[12..16] + "-" + h[16..20] + "-" + h[20..32]
  {
    assert HexEncode(u)[20..] == HexEncode(u)[20..32];
  }

  /** A nonce of version 4 is told by its text: a 4 begins the third group, and one of 8, 9, a and b the fourth. */
  lemma V4Text(u: Uuid)
    requires IsUuid(u)
    ensures IsV4(u) <==> UuidText(u)[14] == '4' && UuidText(u)[19] in "89ab"
  {
    UuidGroups(u);
    var h := HexEncode(u);
    assert UuidText(u)[14] == h[12] && UuidText(u)[19] == h[16];
    HexAt(u, 6);
    HexAt(u, 8);
    assert u[8] / 64 == u[8] / 16 / 4;
  }

  /** The other forms of the same UUID: as a URN in any case, in braces, or its 32 digits alone. */
  lemma UuidForms(u: Uuid)
    requires IsUuid(u)
    ensures ParseUuid("urn:uuid:" + UuidText(u)) == Some(u) && ParseUuid("{" + UuidText(u) + "}") == Some(u)
    ensures ParseUuid(HexEncode(u)) == Some(u)
  {
    UuidRoundTrip(u);
    HexRoundTrip(u);
    UrnForm(UuidText(u));
    BracesForm(UuidText(u));
  }

  lemma UrnForm(t: string)
    requires |t| == 36
    ensures DashedForm("urn:uuid:" + t) == Some(t)
  {
    var urn := "urn:uuid:" + t;
    assert urn[..9] == "urn:uuid:" && urn[9..] == t;
    LowerStays("urn:uuid:");
  }

  lemma BracesForm(t: string)
    requires |t| == 36
    ensures DashedForm("{" + t + "}") == Some(t)
  {
    assert ("{" + t + "}")[1..37] == t;
  }

  lemma {:induction false} LowerStays(s: string)
    requires forall i :: 0 <= i < |s| ==> !('A' <= s[i] <= 'Z')
    ensures AsciiLower(s) == s
  {
    if s != "" {
      LowerStays(s[1..]);
      assert s == [s[0]] + s[1..];
    }
  }

  // ------------------------------------------------- the header

  datatype Mac = Mac(id: seq<Octet>, nonce: Uuid, mac: seq<Octet>)

  datatype Key = Id | Nonce | Signature | UnknownKey

  function NameOf(key: Key): string {
    match key
    case Id => "id"
    case Nonce => "nonce"
    case Signature => "mac"
    case UnknownKey => ""
  }

  function KeyNamed(name: string): Key {
    if name == "id" then Id else if name == "nonce" then Nonce else if name == "mac" then Signature else UnknownKey
  }

  function Item(key: Key, value: string): string {
    NameOf(key) + ['='] + Quoted(value)
  }

  function Quoted(value: string): string {
    ['"'] + value + ['"']
  }

  function Body(a: string, b: string, c: string): string {
    a + [','] + (b + [','] + c)
  }

  /** None if the nonce is not a v4 UUID. */
  function EncodeAuthHeader(m: Mac): Option<string>
    requires IsUuid(m.nonce)
  {
    if !IsV4(m.nonce) then None
    else Some("MAC " + Body(Item(Id, Base64Encode(m.id)), Item(Nonce, UuidText(m.nonce)), Item(Signature, Base64Encode(m.mac))))
  }

  datatype KeyValue = KeyValue(key: Key, value: string)

  /** One key with a quoted value. */
  function ParseItem(item: string): Option<KeyValue> {
    var kv := Split(item, '=');
    if |kv| != 2 || |kv[1]| < 2 || kv[1][0] != '"' || kv[1][|kv[1]| - 1] != '"' then None
    else Some(KeyValue(KeyNamed(TrimSpace(kv[0])), kv[1][1..|kv[1]| - 1]))
  }

  type Parsed = seq<Option<KeyValue>>

  function ParseItems(items: seq<string>): (kvs: Parsed)
    ensures |kvs| == |items|
    ensures forall i :: 0 <= i < |items| ==> kvs[i] == ParseItem(items[i])
  {
    if items == [] then [] else [ParseItem(items[0])] + ParseItems(items[1..])
  }

  function Items(header: string): seq<string> {
    Split(TrimSpace(TrimPrefix(header, "MAC")), ',')
  }

  predicate ValueOk(kv: KeyValue) {
    || ((kv.key == Id || kv.key == Signature) && Base64Decode(kv.value).Some?)
    || (kv.key == Nonce && ParseUuid(kv.value).Some? && IsV4(ParseUuid(kv.value).value))
  }

  /** Every item is well-formed, under a key of its own. */
  predicate AllOk(ok: KeyValue -> bool, kvs: Parsed) {
    && (forall i :: 0 <= i < |kvs| ==> kvs[i].Some? && ok(kvs[i].value))
    && (forall i, j :: 0 <= i < j < |kvs| ==> kvs[i].value.key != kvs[j].value.key)
  }

  predicate Gives(kvs: Parsed, key: Key, value: string) {
    Some(KeyValue(key, value)) in kvs
  }

  ghost predicate GivesBytes(kvs: Parsed, key: Key, b: seq<Octet>) {
    exists v :: Gives(kvs, key, v) && Base64Decode(v) == Some(b)
  }

  ghost predicate GivesNonce(kvs: Parsed, nonce: Uuid) {
    exists v :: Gives(kvs, Nonce, v) && ParseUuid(v) == Some(nonce)
  }

  /** What a header means, whatever the order of its items. */
  ghost predicate Means(header: string, m: Mac) {
    var kvs := ParseItems(Items(header));
    && "MAC " <= header && AllOk(ValueOk, kvs)
    && GivesBytes(kvs, Id, m.id) && m.id != []
    && GivesNonce(kvs, m.nonce)
    && GivesBytes(kvs, Signature, m.mac) && m.mac != []
  }

  // ------------------------------------------------- the decoder

  /** The values by key, or none at the first item that is malformed or repeats a key. */
  function Collect(ok: KeyValue -> bool, kvs: Parsed): Option<map<Key, string>> {
    if kvs == [] then Some(map[])
    else
      var found := Collect(ok, kvs[..|kvs| - 1]);
      var kv := kvs[|kvs| - 1];
      if found.None? || kv.None? || kv.value.key in found.value || !ok(kv.value) then None
      else Some(found.value[kv.value.key := kv.value.value])
  }

  lemma {:induction false} CollectFails(ok: KeyValue -> bool, kvs: Parsed, k: nat)
    requires k <= |kvs| && Collect(ok, kvs[..k]).None?
    ensures Collect(ok, kvs).None?
  {
    if k < |kvs| {
      assert kvs[..|kvs| - 1][..k] == kvs[..k];
      CollectFails(ok, kvs[..|kvs| - 1], k);
    } else {
      assert kvs[..k] == kvs;
    }
  }

  /** The bytes under a key; empty if it is missing. */
  function BytesOf(found: map<Key, string>, key: Key): seq<Octet> {
    if key in found && Base64Decode(found[key]).Some? then Base64Decode(found[key]).value else []
  }

  function NonceOf(found: map<Key, string>): Option<Uuid> {
    if Nonce in found then ParseUuid(found[Nonce]) else None
  }

  datatype Decoded = Ok(m: Mac) | Err

  function DecodedFrom(header: string): Decoded {
    var found := Collect(ValueOk, ParseItems(Items(header)));
    if !("MAC " <= header) || found.None? then Err
    else
      var id, nonce, mac := BytesOf(found.value, Id), NonceOf(found.value), BytesOf(found.value, Signature);
      if id == [] || nonce.None? || mac == [] then Err else Ok(Mac(id, nonce.value, mac))
  }

  lemma CollectMore(ok: KeyValue -> bool, kvs: Parsed, k: nat, found: map<Key, string>, kv: KeyValue)
    requires k < |kvs| && Collect(ok, kvs[..k]) == Some(found) && kvs[k] == Some(kv) && kv.key !in found && ok(kv)
    ensures Collect(ok, kvs[..k + 1]) == Some(found[kv.key := kv.value])
  {
    assert kvs[..k + 1][..k] == kvs[..k];
  }

  /** The loop over the items: the values by key, or none. */
  method ScanItems(ok: KeyValue -> bool, kvs: Parsed) returns (r: Option<map<Key, string>>)
    ensures r == Collect(ok, kvs)
  {
    var found: map<Key, string> := map[];
    for k := 0 to |kvs|
      invariant Collect(ok, kvs[..k]) == Some(found)
    {
      assert kvs[..k + 1][..k] == kvs[..k];
      if kvs[k].None? || kvs[k].value.key in found || !ok(kvs[k].value) {
        CollectFails(ok, kvs, k + 1);
        return None;
      }
      CollectMore(ok, kvs, k, found, kvs[k].value);
      found := found[kvs[k].value.key := kvs[k].value.value];
    }
    assert kvs[..|kvs|] == kvs;
    r := Some(found);
  }

  method DecodeAuthHeader(header: string) returns (r: Decoded)
    ensures r == DecodedFrom(header)
  {
    if !("MAC " <= header) {
      return Err;
    }
    var found := ScanItems(ValueOk, ParseItems(Items(header)));
    if found.None? {
      return Err;
    }
    var id, nonce, mac := BytesOf(found.value, Id), NonceOf(found.value), BytesOf(found.value, Signature);
    r := if id == [] || nonce.None? || mac == [] then Err else Ok(Mac(id, nonce.value, mac));
  }

  // ------------------------------------------------- what the decoder finds

  ghost predicate Matches(kvs: Parsed, found: map<Key, string>) {
    forall key, v :: Gives(kvs, key, v) <==> key in found && found[key] == v
  }

  lemma AllOkMore(ok: KeyValue -> bool, kvs: Parsed, found: map<Key, string>)
    requires kvs != [] && AllOk(ok, kvs[..|kvs| - 1]) && Matches(kvs[..|kvs| - 1], found)
    ensures var kv := kvs[|kvs| - 1];
            AllOk(ok, kvs) <==> kv.Some? && ok(kv.value) && kv.value.key !in found
  {
    var n := |kvs| - 1;
    if kvs[n].Some? && kvs[n].value.key in found {
      assert Gives(kvs[..n], kvs[n].value.key, found[kvs[n].value.key]);
    }
    if kvs[n].Some? && kvs[n].value.key !in found {
      forall i | 0 <= i < n ensures kvs[i].Some? && kvs[i].value.key != kvs[n].value.key {
        assert kvs[..n][i] == kvs[i];
        assert Gives(kvs[..n], kvs[i].value.key, kvs[i].value.value);
      }
    }
  }

  /** The decoder goes through exactly if all items are well-formed under keys of their own, and then has found
      what they give. */
  lemma {:induction false} CollectMatches(ok: KeyValue -> bool, kvs: Parsed)
    ensures Collect(ok, kvs).Some? <==> AllOk(ok, kvs)
    ensures Collect(ok, kvs).Some? ==> Matches(kvs, Collect(ok, kvs).value)
  {
    if kvs != [] {
      var init, last := kvs[..|kvs| - 1], kvs[|kvs| - 1];
      assert kvs == init + [last];
      CollectMatches(ok, init);
      if Collect(ok, init).Some? {
        AllOkMore(ok, kvs, Collect(ok, init).value);
        if Collect(ok, kvs).Some? {
          forall key, v ensures Gives(kvs, key, v) <==> Gives(init, key, v) || last == Some(KeyValue(key, v)) {}
        }
      } else {
        assert AllOk(ok, kvs) ==> AllOk(ok, init);
      }
    }
  }

  lemma BytesGiven(kvs: Parsed, found: map<Key, string>, key: Key, b: seq<Octet>)
    requires Matches(kvs, found) && b != []
    ensures BytesOf(found, key) == b <==> GivesBytes(kvs, key, b)
  {
    if BytesOf(found, key) == b { assert Gives(kvs, key, found[key]); }
  }

  lemma NonceGiven(kvs: Parsed, found: map<Key, string>, nonce: Uuid)
    requires Matches(kvs, found)
    ensures NonceOf(found) == Some(nonce) <==> GivesNonce(kvs, nonce)
  {
    if NonceOf(found) == Some(nonce) { assert Gives(kvs, Nonce, found[Nonce]); }
  }

  /** The decoder accepts a header exactly if it means something, and returns that. */
  lemma DecodesMeaning(header: string, m: Mac)
    ensures DecodedFrom(header) == Ok(m) <==> Means(header, m)
  {
    var kvs := ParseItems(Items(header));
    CollectMatches(ValueOk, kvs);
    if Collect(ValueOk, kvs).Some? {
      if m.id != [] { BytesGiven(kvs, Collect(ValueOk, kvs).value, Id, m.id); }
      if m.mac != [] { BytesGiven(kvs, Collect(ValueOk, kvs).value, Signature, m.mac); }
      NonceGiven(kvs, Collect(ValueOk, kvs).value, m.nonce);
    }
  }

  // ------------------------------------------------- the round trip

  predicate Clean(v: string) {
    forall i :: 0 <= i < |v| ==> v[i] != ',' && v[i] != '='
  }

  lemma Base64Clean(b: seq<Octet>)
    ensures Clean(Base64Encode(b))
  {
    assert SextetOf(',').None? && SextetOf('=').None?;
  }

  lemma UuidClean(u: Uuid)
    requires IsUuid(u)
    ensures Clean(UuidText(u))
  {
    var h := HexEncode(u);
    assert HexValue(',').None? && HexValue('=').None?;
    forall i | 0 <= i < 36 ensures Dashed(h)[i] != ',' && Dashed(h)[i] != '=' { DashedChars(h, i); }
  }

  lemma NamesBack(key: Key)
    requires key != UnknownKey
    ensures KeyNamed(TrimSpace(NameOf(key))) == key
    ensures '=' !in NameOf(key) && ',' !in NameOf(key) && NameOf(key) != "" && !IsSpace(NameOf(key)[0])
  {
  }

  lemma ItemParses(key: Key, value: string)
    requires key != UnknownKey && Clean(value)
    ensures ParseItem(Item(key, value)) == Some(KeyValue(key, value))
  {
    NamesBack(key);
    SplitPair(NameOf(key), '=', Quoted(value));
    assert Quoted(value)[1..|Quoted(value)| - 1] == value;
  }

  lemma ItemNoComma(key: Key, value: string)
    requires key != UnknownKey && Clean(value)
    ensures ',' !in Item(key, value) && Item(key, value) != ""
    ensures !IsSpace(Item(key, value)[0]) && !IsSpace(Item(key, value)[|Item(key, value)| - 1])
  {
    NamesBack(key);
  }

  lemma TrimmedHeader(body: string)
    requires body != "" && !IsSpace(body[0]) && !IsSpace(body[|body| - 1])
    ensures TrimSpace(TrimPrefix("MAC " + body, "MAC")) == body
  {
    var s := "MAC " + body;
    assert TrimPrefix(s, "MAC") == " " + body;
    assert (" " + body)[1..] == body;
    assert TrimLeft(" " + body) == TrimLeft(body);
  }

  lemma ThreeItems(a: string, b: string, c: string)
    requires ',' !in a && ',' !in b && ',' !in c
    ensures Split(Body(a, b, c), ',') == [a, b, c]
  {
    SplitFirst(a, ',', b + [','] + c);
    SplitPair(b, ',', c);
  }

  lemma HeaderSplit(a: string, b: string, c: string)
    requires ',' !in a && ',' !in b && ',' !in c
    requires a != "" && !IsSpace(a[0]) && c != "" && !IsSpace(c[|c| - 1])
    ensures Items("MAC " + Body(a, b, c)) == [a, b, c]
  {
    var body := Body(a, b, c);
    assert body[0] == a[0] && body[|body| - 1] == c[|c| - 1];
    TrimmedHeader(body);
    ThreeItems(a, b, c);
  }

  lemma ParseThree(a: string, b: string, c: string)
    ensures ParseItems([a, b, c]) == [ParseItem(a), ParseItem(b), ParseItem(c)]
  {
    assert |[a, b, c]| == 3;
  }

  lemma HeaderItems(id: string, nonce: string, mac: string)
    requires Clean(id) && Clean(nonce) && Clean(mac)
    ensures ParseItems(Items("MAC " + Body(Item(Id, id), Item(Nonce, nonce), Item(Signature, mac))))
            == [Some(KeyValue(Id, id)), Some(KeyValue(Nonce, nonce)), Some(KeyValue(Signature, mac))]
  {
    var a, b, c := Item(Id, id), Item(Nonce, nonce), Item(Signature, mac);
    ItemParses(Id, id);
    ItemParses(Nonce, nonce);
    ItemParses(Signature, mac);
    ItemNoComma(Id, id);
    ItemNoComma(Nonce, nonce);
    ItemNoComma(Signature, mac);
    HeaderSplit(a, b, c);
    ParseThree(a, b, c);
  }

  /** Encoding succeeds exactly for a v4 nonce, and the result decodes to what was encoded exactly if id and mac
      are not empty. */
  lemma HeaderRoundTrip(m: Mac)
    requires IsUuid(m.nonce)
    ensures EncodeAuthHeader(m).Some? <==> IsV4(m.nonce)
    ensures IsV4(m.nonce) ==> (DecodedFrom(EncodeAuthHeader(m).value) == Ok(m) <==> m.id != [] && m.mac != [])
  {
    if IsV4(m.nonce) {
      var header := EncodeAuthHeader(m).value;
      var id, nonce, mac := Base64Encode(m.id), UuidText(m.nonce), Base64Encode(m.mac);
      Base64Clean(m.id);
      Base64Clean(m.mac);
      UuidClean(m.nonce);
      HeaderItems(id, nonce, mac);
      Base64RoundTrip(m.id);
      Base64RoundTrip(m.mac);
      UuidRoundTrip(m.nonce);
      ThreeMean(header, m, id, nonce, mac);
      DecodesMeaning(header, m);
    }
  }

  lemma ThreeOk(ok: KeyValue -> bool, x: KeyValue, y: KeyValue, z: KeyValue)
    requires ok(x) && ok(y) && ok(z) && x.key != y.key && x.key != z.key && y.key != z.key
    ensures AllOk(ok, [Some(x), Some(y), Some(z)])
    ensures var kvs := [Some(x), Some(y), Some(z)];
            Gives(kvs, x.key, x.value) && Gives(kvs, y.key, y.value) && Gives(kvs, z.key, z.value)
  {
    var kvs := [Some(x), Some(y), Some(z)];
    assert kvs[0] == Some(x) && kvs[1] == Some(y) && kvs[2] == Some(z);
  }

  lemma ThreeMean(header: string, m: Mac, id: string, nonce: string, mac: string)
    requires "MAC " <= header && IsUuid(m.nonce) && IsV4(m.nonce)
    requires ParseItems(Items(header)) == [Some(KeyValue(Id, id)), Some(KeyValue(Nonce, nonce)), Some(KeyValue(Signature, mac))]
    requires Base64Decode(id) == Some(m.id) && ParseUuid(nonce) == Some(m.nonce) && Base64Decode(mac) == Some(m.mac)
    ensures Means(header, m) <==> m.id != [] && m.mac != []
  {
    ThreeOk(ValueOk, KeyValue(Id, id), KeyValue(Nonce, nonce), KeyValue(Signature, mac));
  }

  // ------------------------------------------------- the header text itself

  /** The header, written out. */
  lemma HeaderText(m: Mac)
    requires IsUuid(m.nonce)
    ensures EncodeAuthHeader(m) ==
            if IsV4(m.nonce) then
              Some("MAC " + ("id=\"" + Base64Encode(m.id) + "\"") + "," + ("nonce=\"" + UuidText(m.nonce) + "\"") + ","
                   + ("mac=\"" + Base64Encode(m.mac) + "\""))
            else None
  {
    ItemTexts(Base64Encode(m.id), UuidText(m.nonce), Base64Encode(m.mac));
    BodyText(Item(Id, Base64Encode(m.id)), Item(Nonce, UuidText(m.nonce)), Item(Signature, Base64Encode(m.mac)));
  }

  lemma ItemTexts(id: string, nonce: string, mac: string)
    ensures Item(Id, id) == "id=\"" + id + "\"" && Item(Nonce, nonce) == "nonce=\"" + nonce + "\""
    ensures Item(Signature, mac) == "mac=\"" + mac + "\""
  {
  }

  lemma BodyText(a: string, b: string, c: string)
    ensures "MAC " + Body(a, b, c) == "MAC " + a + "," + b + "," + c
  {
  }

  /** The item is a name, an equals sign and the value in quotes, with no other equals sign. */
  predicate Written(item: string, name: string, value: string) {
    item == name + "=\"" + value + "\"" && '=' !in name && '=' !in value
  }

  /** An item parses exactly if it is so written; its key is the one the trimmed name spells. */
  lemma ItemMeans(item: string, value: string)
    ensures (exists name :: Written(item, name, value)) <==> ParseItem(item).Some? && ParseItem(item).value.value == value
    ensures forall name :: Written(item, name, value) ==>
              var key, t := ParseItem(item).value.key, TrimSpace(name);
              (key == Id <==> t == "id") && (key == Nonce <==> t == "nonce") && (key == Signature <==> t == "mac")
  {
    forall name | Written(item, name, value) ensures ParseItem(item) == Some(KeyValue(KeyNamed(TrimSpace(name)), value)) {
      WrittenParses(item, name, value);
    }
    if ParseItem(item).Some? && ParseItem(item).value.value == value { ParsesWritten(item); }
  }

  lemma WrittenParses(item: string, name: string, value: string)
    requires Written(item, name, value)
    ensures ParseItem(item) == Some(KeyValue(KeyNamed(TrimSpace(name)), value))
  {
    assert item == name + ['='] + Quoted(value);
    SplitPair(name, '=', Quoted(value));
    assert Quoted(value)[1..|Quoted(value)| - 1] == value;
  }

  lemma ParsesWritten(item: string)
    requires ParseItem(item).Some?
    ensures Written(item, Split(item, '=')[0], ParseItem(item).value.value)
  {
    var kv := Split(item, '=');
    var value := kv[1][1..|kv[1]| - 1];
    SplitWhole(item, '=');
    assert kv[1] == "\"" + value + "\"";
    assert item == kv[0] + "=" + ("\"" + value + "\"");
    assert kv[0] + "=" + ("\"" + value + "\"") == kv[0] + "=\"" + value + "\"";
  }
}
