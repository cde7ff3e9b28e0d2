/**
 Messages and key derivation of the Daisyway protocol.

 SHAKE256 is not modelled: its 32-byte output is a parameter `xof` of the functions below, an
 arbitrary deterministic function of the absorbed bytes.
 */
module Kdf {
  import opened Bytes
  import opened Wrappers

  type Xof = seq<byte> -> Key

  datatype ProtocolParameters = ProtocolParameters(psk: Key, localPeerId: PeerId, remotePeerId: PeerId)
  {
    /** The parameters of the other host: same PSK, peer ids the other way round. */
    function Mirrored(): (m: ProtocolParameters)
      ensures m.psk == psk && m.localPeerId == remotePeerId && m.remotePeerId == localPeerId
    {
      ProtocolParameters(psk, remotePeerId, localPeerId)
    }
  }

  /** A key as the QKD device hands it out. */
  datatype Etsi014Key = Etsi014Key(id: Uuid, key: Key)

  // ---------------------------------------------------------------- messages

  datatype RekeyReq = RekeyReq(qkdKeyId: Uuid, nonce: Nonce)
  {
    function AsBytes(): (bs: seq<byte>)
      ensures |bs| == REKEY_REQ_LENGTH
    {
      qkdKeyId + nonce
    }
  }

  const REKEY_REQ_LENGTH: nat := 48
  const REKEY_ACK: byte := 1

  function ReadRekeyReq(bs: seq<byte>): RekeyReq
    requires |bs| == REKEY_REQ_LENGTH
  {
    RekeyReq(bs[..16], bs[16..])
  }

  /** Key id first, then the nonce: a bijection between requests and 48-byte strings. */
  lemma RekeyReqRoundTrip(req: RekeyReq, bs: seq<byte>)
    ensures |req.AsBytes()| == 48 && req.AsBytes()[..16] == req.qkdKeyId && req.AsBytes()[16..] == req.nonce
    ensures ReadRekeyReq(req.AsBytes()) == req
    ensures |bs| == REKEY_REQ_LENGTH ==> ReadRekeyReq(bs).AsBytes() == bs
  {
    assert req.AsBytes()[..16] == req.qkdKeyId && req.AsBytes()[16..] == req.nonce;
  }

  // ---------------------------------------------------------------- KDF input

  datatype WireGuardConnectionId = WireGuardConnectionId(firstPeer: PeerId, secondPeer: PeerId)
  {
    function AsBytes(): seq<byte> {
      firstPeer + secondPeer
    }
  }

  /** Both peer ids, sorted. */
  function NewConnectionId(selfPublicKey: PeerId, peerPublicKey: PeerId): WireGuardConnectionId {
    if LexLeq(selfPublicKey, peerPublicKey) then WireGuardConnectionId(selfPublicKey, peerPublicKey)
    else WireGuardConnectionId(peerPublicKey, selfPublicKey)
  }

  /** `Uuid::to_bytes_le`: the first three fields byte-swapped, the rest as is. */
  function ToBytesLe(u: Uuid): Uuid {
    [u[3], u[2], u[1], u[0], u[5], u[4], u[7], u[6]] + u[8..]
  }

  function KdfInput(params: ProtocolParameters, nonce: Nonce, key: Etsi014Key): seq<byte> {
    params.psk + nonce + key.key + ToBytesLe(key.id)
    + NewConnectionId(params.localPeerId, params.remotePeerId).AsBytes()
  }

  /**
   Where each field lies in what the last hash absorbs. The offsets in the comments of the source
   count the 32 bytes of the hash domain that come first.
   */
  ghost predicate Layout(all: seq<byte>, domain: Key, params: ProtocolParameters, nonce: Nonce, key: Etsi014Key) {
    && |all| == 208
    && all[..32] == domain && all[32..64] == params.psk && all[64..96] == nonce && all[96..128] == key.key
    && all[128] == key.id[3] && all[129] == key.id[2] && all[130] == key.id[1] && all[131] == key.id[0]
    && all[132] == key.id[5] && all[133] == key.id[4] && all[134] == key.id[7] && all[135] == key.id[6]
    && all[136..144] == key.id[8..]
    && LexLeq(all[144..176], all[176..208])
    && multiset{all[144..176], all[176..208]} == multiset{params.localPeerId, params.remotePeerId}
  }

  lemma KdfInputLayout(params: ProtocolParameters, nonce: Nonce, key: Etsi014Key, domain: Key)
    ensures Layout(domain + KdfInput(params, nonce, key), domain, params, nonce, key)
  {
    var all := domain + KdfInput(params, nonce, key);
    var c := NewConnectionId(params.localPeerId, params.remotePeerId);
    LexTotal(params.localPeerId, params.remotePeerId);
    assert all[144..176] == c.firstPeer && all[176..208] == c.secondPeer;
  }

  lemma ToBytesLeInvolutive(u: Uuid)
    ensures ToBytesLe(ToBytesLe(u)) == u
  {
  }

  /** Two connection ids are equal exactly when they name the same two peers, in either order. */
  lemma ConnectionIdIsUnorderedPair(a: PeerId, b: PeerId, c: PeerId, d: PeerId)
    ensures NewConnectionId(a, b) == NewConnectionId(c, d) <==> (a == c && b == d) || (a == d && b == c)
  {
    LexTotal(a, b);
    LexTotal(c, d);
    if LexLeq(a, b) && LexLeq(b, a) {
      LexAntisymmetric(a, b);
    }
  }

  /** Fields of equal length can be read back from their concatenation. */
  lemma ConcatInjective(a: seq<byte>, b: seq<byte>, c: seq<byte>, d: seq<byte>)
    requires |a| == |c| && a + b == c + d
    ensures a == c && b == d
  {
    assert (a + b)[..|a|] == a && (c + d)[..|c|] == c;
    assert (a + b)[|a|..] == b && (c + d)[|c|..] == d;
  }

  /**
   The KDF input is 176 bytes, and determines every input of the derivation: PSK, nonce, QKD key,
   QKD key id and the unordered pair of peers, nothing less and nothing more.
   */
  lemma KdfInputInjective(
    p: ProtocolParameters, nonce: Nonce, key: Etsi014Key,
    p': ProtocolParameters, nonce': Nonce, key': Etsi014Key)
    ensures |KdfInput(p, nonce, key)| == 176
    ensures KdfInput(p, nonce, key) == KdfInput(p', nonce', key') <==>
            && p.psk == p'.psk && nonce == nonce' && key == key'
            && ((p'.localPeerId == p.localPeerId && p'.remotePeerId == p.remotePeerId)
                || (p'.localPeerId == p.remotePeerId && p'.remotePeerId == p.localPeerId))
  {
    var c := NewConnectionId(p.localPeerId, p.remotePeerId);
    var c' := NewConnectionId(p'.localPeerId, p'.remotePeerId);
    ConnectionIdIsUnorderedPair(p.localPeerId, p.remotePeerId, p'.localPeerId, p'.remotePeerId);
    ToBytesLeInvolutive(key.id);
    ToBytesLeInvolutive(key'.id);
    if KdfInput(p, nonce, key) == KdfInput(p', nonce', key') {
      var a, a' := p.psk + nonce, p'.psk + nonce';
      ConcatInjective(a + key.key + ToBytesLe(key.id), c.AsBytes(), a' + key'.key + ToBytesLe(key'.id), c'.AsBytes());
      ConcatInjective(a + key.key, ToBytesLe(key.id), a' + key'.key, ToBytesLe(key'.id));
      ConcatInjective(a, key.key, a', key'.key);
      ConcatInjective(p.psk, nonce, p'.psk, nonce');
      ConcatInjective(c.firstPeer, c.secondPeer, c'.firstPeer, c'.secondPeer);
    }
  }

  // ---------------------------------------------------------------- derivation

  const PROTOCOL_DOMAIN: string := "Daisyway v1 by Paul Spooren & Karolin Varner, Feb-2025 with Shake256"

  /** `HashDomain::mix`: absorb the current key, then the data. */
  function Mix(xof: Xof, domain: Key, data: seq<byte>): Key {
    xof(domain + data)
  }

  function DeriveDaisywayKey(xof: Xof, params: ProtocolParameters, nonce: Nonce, key: Etsi014Key): Key {
    var root := Mix(xof, Zeros(KEY_LENGTH), Ascii(PROTOCOL_DOMAIN));
    Mix(xof, Mix(xof, root, Ascii("derive key")), KdfInput(params, nonce, key))
  }

  /**
   The derived key is the hash of exactly the 208 bytes of `Layout`, behind the domain that is
   hashed from 32 zeros, the protocol's name and the purpose.
   */
  lemma DerivationAbsorbs(xof: Xof, params: ProtocolParameters, nonce: Nonce, key: Etsi014Key)
    returns (domain: Key, all: seq<byte>)
    ensures domain == xof(xof(Zeros(32) + Ascii(PROTOCOL_DOMAIN)) + Ascii("derive key"))
    ensures PROTOCOL_DOMAIN == "Daisyway v1 by Paul Spooren & Karolin Varner, Feb-2025 with Shake256"
    ensures Layout(all, domain, params, nonce, key)
    ensures all == domain + KdfInput(params, nonce, key)
    ensures DeriveDaisywayKey(xof, params, nonce, key) == xof(all)
  {
    hide Layout, KdfInput;
    domain := Mix(xof, Mix(xof, Zeros(KEY_LENGTH), Ascii(PROTOCOL_DOMAIN)), Ascii("derive key"));
    all := domain + KdfInput(params, nonce, key);
    KdfInputLayout(params, nonce, key, domain);
  }

  /**
   Every input counts: unless the hash collides on the two strings absorbed, two derived keys are
   equal exactly when PSK, nonce, QKD key, key id and the unordered pair of peers are.
   */
  lemma DerivedKeysEqualIff(
    xof: Xof, p: ProtocolParameters, nonce: Nonce, key: Etsi014Key,
    p': ProtocolParameters, nonce': Nonce, key': Etsi014Key)
    requires var domain := Mix(xof, Mix(xof, Zeros(KEY_LENGTH), Ascii(PROTOCOL_DOMAIN)), Ascii("derive key"));
             var all, all' := domain + KdfInput(p, nonce, key), domain + KdfInput(p', nonce', key');
             xof(all) == xof(all') ==> all == all'
    ensures DeriveDaisywayKey(xof, p, nonce, key) == DeriveDaisywayKey(xof, p', nonce', key') <==>
            && p.psk == p'.psk && nonce == nonce' && key == key'
            && ((p'.localPeerId == p.localPeerId && p'.remotePeerId == p.remotePeerId)
                || (p'.localPeerId == p.remotePeerId && p'.remotePeerId == p.localPeerId))
  {
    hide KdfInput;
    var domain, all := DerivationAbsorbs(xof, p, nonce, key);
    var _, all' := DerivationAbsorbs(xof, p', nonce', key');
    KdfInputInjective(p, nonce, key, p', nonce', key');
    if all == all' {
      ConcatInjective(domain, KdfInput(p, nonce, key), domain, KdfInput(p', nonce', key'));
    }
  }

  /** Both hosts derive the same key from the same QKD key and nonce. */
  lemma MirroredHostsDeriveTheSame(xof: Xof, params: ProtocolParameters, nonce: Nonce, key: Etsi014Key)
    ensures DeriveDaisywayKey(xof, params, nonce, key) == DeriveDaisywayKey(xof, params.Mirrored(), nonce, key)
  {
    KdfInputInjective(params, nonce, key, params.Mirrored(), nonce, key);
  }

  /**
   The hosts hash the same input exactly when the key server answers the responder with the very
   key, under the very id, that it gave to the initiator.
   */
  lemma SameInputIffServerEchoes(params: ProtocolParameters, nonce: Nonce, issued: Etsi014Key, answered: Etsi014Key)
    ensures KdfInput(params, nonce, issued) == KdfInput(params.Mirrored(), nonce, answered) <==> issued == answered
  {
    KdfInputInjective(params, nonce, issued, params.Mirrored(), nonce, answered);
  }
}
