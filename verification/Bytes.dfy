/** Octets and the fixed-size byte arrays that the protocol passes around. */
module Bytes {

  type byte = b: int | 0 <= b < 256

  const KEY_LENGTH: nat := 32

  function Zeros(n: nat): (z: seq<byte>)
    ensures |z| == n
  {
    seq(n, _ => 0)
  }

  /** Keys, nonces, hash values and WireGuard peer ids are all 32 bytes long. */
  type Key = k: seq<byte> | |k| == KEY_LENGTH witness Zeros(KEY_LENGTH)
  type Nonce = Key
  type PeerId = Key

  /** A UUID, held as the 16 bytes of its big-endian form (`Uuid::as_bytes`). */
  type Uuid = u: seq<byte> | |u| == 16 witness Zeros(16)

  function Min(a: nat, b: nat): nat {
    if a < b then a else b
  }

  /** The bytes of an ASCII text. */
  function Ascii(s: string): (bs: seq<byte>)
    ensures |bs| == |s| && forall i | 0 <= i < |s| && s[i] < 128 as char :: bs[i] == s[i] as int
  {
    seq(|s|, i requires 0 <= i < |s| => s[i] as int % 256)
  }

  /** Lexicographic order on byte strings, the `Ord` instance of byte arrays. */
  predicate LexLeq(a: seq<byte>, b: seq<byte>) {
    a == [] || (b != [] && (a[0] < b[0] || (a[0] == b[0] && LexLeq(a[1..], b[1..]))))
  }

  lemma {:induction false} LexTotal(a: seq<byte>, b: seq<byte>)
    ensures LexLeq(a, b) || LexLeq(b, a)
  {
    if a != [] && b != [] {
      LexTotal(a[1..], b[1..]);
    }
  }

  lemma {:induction false} LexAntisymmetric(a: seq<byte>, b: seq<byte>)
    requires LexLeq(a, b) && LexLeq(b, a)
    ensures a == b
  {
    if a != [] {
      LexAntisymmetric(a[1..], b[1..]);
      assert a == [a[0]] + a[1..] && b == [b[0]] + b[1..];
    }
  }

  /** The first byte in which two strings of the same length differ decides. */
  lemma {:induction false} LexByFirstDifference(a: seq<byte>, b: seq<byte>, i: nat)
    requires i < |a| == |b| && a[..i] == b[..i] && a[i] != b[i]
    ensures LexLeq(a, b) <==> a[i] < b[i]
  {
    if i > 0 {
      assert a[0] == a[..i][0] == b[..i][0] == b[0];
      assert a[1..][..i - 1] == a[..i][1..] && b[1..][..i - 1] == b[..i][1..];
      LexByFirstDifference(a[1..], b[1..], i - 1);
    }
  }
}
