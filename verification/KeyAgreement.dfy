/** The key agreement of the bootstrap protocol (pkg/ecdh/ecdh.go). The curve and the hash are foreign:
    fields of `Crypto`, of which only `Commutes` is ever required. */
module KeyAgreement {
  import opened Common

  /** X25519 fails on some peer keys (a result of all zeros, a wrong length). */
  datatype Crypto = Crypto(
    x25519: (Bytes, Bytes) -> Option<Bytes>,
    base: Bytes,
    hash: Bytes -> Bytes)
  {
    /** Section 6.1 of RFC 7748: both sides compute the same shared value. */
    ghost predicate Commutes() {
      forall a, b :: KeyPairOf(a).Some? && KeyPairOf(b).Some? ==>
        x25519(a, KeyPairOf(b).value.public) == x25519(b, KeyPairOf(a).value.public)
    }

    function KeyPairOf(private: Bytes): Option<KeyPair> {
      var public := x25519(private, base);
      if public.Some? then Some(KeyPair(private, public.value)) else None
    }
  }

  datatype KeyPair = KeyPair(private: Bytes, public: Bytes)

  /** The type is an integer, of which two values are peers. */
  datatype PeerKey = PeerKey(public: Bytes, peerType: int)

  const CLIENT := 0
  const SERVER := 1

  function DeriveSharedSecret(crypto: Crypto, ours: KeyPair, theirs: PeerKey): Option<Bytes> {
    var q := crypto.x25519(ours.private, theirs.public);
    if q.None? then None
    else if theirs.peerType == CLIENT then Some(crypto.hash(q.value + theirs.public + ours.public))
    else if theirs.peerType == SERVER then Some(crypto.hash(q.value + ours.public + theirs.public))
    else None
  }

  /** What both sides hash: the shared value, then the client's key, then the server's. */
  lemma SecretIs(crypto: Crypto, client: KeyPair, server: KeyPair, q: Bytes)
    requires crypto.Commutes()
    requires crypto.KeyPairOf(client.private) == Some(client) && crypto.KeyPairOf(server.private) == Some(server)
    requires crypto.x25519(client.private, server.public) == Some(q)
    ensures DeriveSharedSecret(crypto, client, PeerKey(server.public, SERVER))
            == Some(crypto.hash(q + client.public + server.public))
    ensures DeriveSharedSecret(crypto, server, PeerKey(client.public, CLIENT))
            == Some(crypto.hash(q + client.public + server.public))
  {
    SecretAgreed(crypto, client, server);
  }

  /** The secret of an exchange with the given peers, taken on either side. */
  function ExchangeSecret(crypto: Crypto, client: KeyPair, server: KeyPair, onClient: bool): Option<Bytes> {
    if onClient then DeriveSharedSecret(crypto, client, PeerKey(server.public, SERVER))
    else DeriveSharedSecret(crypto, server, PeerKey(client.public, CLIENT))
  }

  /** Two exchanges have the same secret exactly if they have the same shared value and the same two keys, whichever
      side each secret is taken from. */
  lemma SecretBinds(crypto: Crypto, client: KeyPair, server: KeyPair, client': KeyPair, server': KeyPair,
                    q: Bytes, q': Bytes, onClient: bool, onClient': bool)
    requires crypto.Commutes() && (forall x, y :: crypto.hash(x) == crypto.hash(y) ==> x == y)
    requires crypto.KeyPairOf(client.private) == Some(client) && crypto.KeyPairOf(server.private) == Some(server)
    requires crypto.KeyPairOf(client'.private) == Some(client') && crypto.KeyPairOf(server'.private) == Some(server')
    requires |client.public| == |server.public| == |client'.public| == |server'.public|
    requires crypto.x25519(client.private, server.public) == Some(q)
    requires crypto.x25519(client'.private, server'.public) == Some(q')
    ensures ExchangeSecret(crypto, client, server, onClient) == ExchangeSecret(crypto, client', server', onClient')
            <==> q == q' && client.public == client'.public && server.public == server'.public
  {
    SecretIs(crypto, client, server, q);
    SecretIs(crypto, client', server', q');
    if q + client.public + server.public == q' + client'.public + server'.public {
      PartsEqual(q, client.public, server.public, q', client'.public, server'.public);
    }
  }

  lemma PartsEqual(a: Bytes, b: Bytes, c: Bytes, a': Bytes, b': Bytes, c': Bytes)
    requires a + b + c == a' + b' + c' && |b| == |b'| && |c| == |c'|
    ensures a == a' && b == b' && c == c'
  {
    var s := a + b + c;
    assert |a| == |a'|;
    assert s[..|a|] == a && s[..|a|] == a';
    assert s[|a|..|a| + |b|] == b && s[|a|..|a| + |b|] == b';
    assert s[|a| + |b|..] == c && s[|a| + |b|..] == c';
  }

  /** Client and server derive the same secret from each other's public keys, or both fail. */
  lemma SecretAgreed(crypto: Crypto, client: KeyPair, server: KeyPair)
    requires crypto.Commutes()
    requires crypto.KeyPairOf(client.private) == Some(client) && crypto.KeyPairOf(server.private) == Some(server)
    ensures DeriveSharedSecret(crypto, client, PeerKey(server.public, SERVER))
            == DeriveSharedSecret(crypto, server, PeerKey(client.public, CLIENT))
  {
    assert crypto.x25519(client.private, server.public) == crypto.x25519(server.private, client.public);
  }

  /** The order is fixed by the roles: if both sides took the other for the same kind of peer and keys have one
      length, they would agree exactly if their public keys are equal, the hash having no collisions. */
  lemma RolesMatter(crypto: Crypto, client: KeyPair, server: KeyPair, peerType: int)
    requires crypto.Commutes() && (forall x, y :: crypto.hash(x) == crypto.hash(y) ==> x == y)
    requires crypto.KeyPairOf(client.private) == Some(client) && crypto.KeyPairOf(server.private) == Some(server)
    requires |client.public| == |server.public| && crypto.x25519(client.private, server.public).Some?
    requires peerType == CLIENT || peerType == SERVER
    ensures DeriveSharedSecret(crypto, client, PeerKey(server.public, peerType))
            == DeriveSharedSecret(crypto, server, PeerKey(client.public, peerType))
            <==> client.public == server.public
  {
    var q := crypto.x25519(client.private, server.public).value;
    assert crypto.x25519(server.private, client.public) == Some(q);
    var a, b := q + client.public + server.public, q + server.public + client.public;
    assert a[|q|..|q| + |client.public|] == client.public;
    assert b[|q|..|q| + |client.public|] == server.public;
  }
}
