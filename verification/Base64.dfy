/**
 Base64 with padding, section 4 of RFC 4648, as the key files and the key server use it. Decoding is
 strict: no other characters, no missing or superfluous padding, no stray bits in the last group.
 */
module Base64 {
  import opened Wrappers
  import opened Bytes

  const PAD: byte := 61

  type sextet = v: int | 0 <= v < 64

  function Symbol(v: sextet): byte {
    if v < 26 then 65 + v
    else if v < 52 then 71 + v
    else if v < 62 then v - 4
    else if v == 62 then 43
    else 47
  }

  function Value(c: byte): Option<sextet> {
    if 65 <= c <= 90 then Some(c - 65)
    else if 97 <= c <= 122 then Some(c - 71)
    else if 48 <= c <= 57 then Some(c + 4)
    else if c == 43 then Some(62)
    else if c == 47 then Some(63)
    else None
  }

  lemma SymbolValue(v: sextet, c: byte)
    ensures Value(Symbol(v)) == Some(v) && Symbol(v) != PAD
    ensures Value(c).Some? ==> Symbol(Value(c).value) == c && c != PAD
  {
  }

  /** The symbols are those of table 1 of RFC 4648: `A`-`Z`, `a`-`z`, `0`-`9`, `+`, `/`. */
  lemma StandardAlphabet(v: sextet)
    ensures Symbol(0) == 'A' as int && Symbol(26) == 'a' as int && Symbol(52) == '0' as int
    ensures Symbol(62) == '+' as int && Symbol(63) == '/' as int && PAD == '=' as int
    ensures v !in {0, 26, 52, 62, 63} ==> Symbol(v) == Symbol(v - 1) + 1
  {
  }

  /** The length of an encoding with padding. */
  function EncodedLen(n: nat): nat {
    (n + 2) / 3 * 4
  }

  /** Three bytes as four groups of six bits, and back. */
  function Split(a: byte, b: byte, c: byte): (sextet, sextet, sextet, sextet) {
    (a / 4, a % 4 * 16 + b / 16, b % 16 * 4 + c / 64, c % 64)
  }

  function Join(x: sextet, y: sextet, z: sextet, w: sextet): (byte, byte, byte) {
    (x * 4 + y / 16, y % 16 * 16 + z / 4, z % 4 * 64 + w)
  }

  /** The four groups are the digits, to base 64, of the 24-bit number that the three bytes form. */
  lemma SplitIsBigEndian(a: byte, b: byte, c: byte)
    ensures var q := Split(a, b, c);
            ((q.0 * 64 + q.1) * 64 + q.2) * 64 + q.3 == (a * 256 + b) * 256 + c
  {
  }

  lemma Digits(base: nat, high: nat, low: nat)
    requires base == 4 || base == 16 || base == 64
    requires low < base
    ensures (high * base + low) / base == high && (high * base + low) % base == low
  {
  }

  lemma SplitJoin(a: byte, b: byte, c: byte)
    ensures var q := Split(a, b, c); Join(q.0, q.1, q.2, q.3) == (a, b, c)
    ensures c == 0 ==> Split(a, b, c).3 == 0
    ensures b == c == 0 ==> Split(a, b, c).2 == 0
  {
    Digits(16, a % 4, b / 16);
    Digits(4, b % 16, c / 64);
  }

  lemma JoinSplit(x: sextet, y: sextet, z: sextet, w: sextet)
    ensures var t := Join(x, y, z, w); Split(t.0, t.1, t.2) == (x, y, z, w)
  {
    Digits(4, x, y / 16);
    Digits(16, y % 16, z / 4);
    Digits(64, z % 4, w);
  }

  function Encode(bs: seq<byte>): seq<byte> {
    if bs == [] then []
    else if |bs| == 1 then
      var q := Split(bs[0], 0, 0);
      [Symbol(q.0), Symbol(q.1), PAD, PAD]
    else if |bs| == 2 then
      var q := Split(bs[0], bs[1], 0);
      [Symbol(q.0), Symbol(q.1), Symbol(q.2), PAD]
    else
      var q := Split(bs[0], bs[1], bs[2]);
      [Symbol(q.0), Symbol(q.1), Symbol(q.2), Symbol(q.3)] + Encode(bs[3..])
  }

  lemma {:induction false} EncodeLength(bs: seq<byte>)
    ensures |Encode(bs)| == EncodedLen(|bs|)
  {
    if |bs| > 3 {
      EncodeLength(bs[3..]);
    }
  }

  /** The four symbols of three bytes spell the number that the bytes form. */
  lemma GroupSpellsNumber(a: byte, b: byte, c: byte)
    ensures var text := Encode([a, b, c]);
            && |text| == 4 && forall i | 0 <= i < 4 :: Value(text[i]).Some?
    ensures var text := Encode([a, b, c]);
            var x, y, z, w := Value(text[0]).value, Value(text[1]).value, Value(text[2]).value, Value(text[3]).value;
            ((x as int * 64 + y) * 64 + z) * 64 + w == (a as int * 256 + b) * 256 + c
  {
    hide Split, Symbol, Value;
    SplitDecodes(a, b, c);
    SplitIsBigEndian(a, b, c);
    assert [a, b, c][3..] == [];
  }

  /** Every three bytes have their group of four symbols, in their place. */
  lemma {:induction false} GroupAt(bs: seq<byte>, g: nat)
    requires 3 * g + 3 <= |bs|
    ensures 4 * g + 4 <= |Encode(bs)| && Encode(bs)[4 * g..4 * g + 4] == Encode(bs[3 * g..3 * g + 3])
  {
    hide Split, Symbol;
    assert bs[..3][3..] == [];
    if g > 0 {
      GroupAt(bs[3..], g - 1);
      assert bs[3..][3 * (g - 1)..3 * (g - 1) + 3] == bs[3 * g..3 * g + 3];
    }
  }

  /** An incomplete last group is filled up with zero bits, then with padding. */
  lemma PaddedGroup(a: byte, b: byte)
    ensures var two, full := Encode([a, b]), Encode([a, b, 0]); two == full[..3] + [PAD]
    ensures var one, full := Encode([a]), Encode([a, 0, 0]); one == full[..2] + [PAD, PAD]
  {
    hide Split, Symbol;
    assert [a, b, 0][3..] == [] && [a, 0, 0][3..] == [];
  }

  /** Three bytes from four symbols without padding. */
  function DecodeGroup(text: seq<byte>): (bs: Option<seq<byte>>)
    requires |text| == 4
    ensures bs.Some? ==> |bs.value| == 3
  {
    var x, y, z, w := Value(text[0]), Value(text[1]), Value(text[2]), Value(text[3]);
    if x.None? || y.None? || z.None? || w.None? then None
    else
      var t := Join(x.value, y.value, z.value, w.value);
      Some([t.0, t.1, t.2])
  }

  /** The last group, which may carry one or two padding symbols; the bits they cut off are zero. */
  function DecodeLast(text: seq<byte>): Option<seq<byte>>
    requires |text| == 4
  {
    var x, y, z := Value(text[0]), Value(text[1]), Value(text[2]);
    if text[3] != PAD then DecodeGroup(text)
    else if x.None? || y.None? then None
    else if text[2] != PAD then
      if z.None? then None
      else
        var t := Join(x.value, y.value, z.value, 0);
        if t.2 == 0 then Some([t.0, t.1]) else None
    else
      var t := Join(x.value, y.value, 0, 0);
      if t.1 == 0 then Some([t.0]) else None
  }

  function Decode(text: seq<byte>): Option<seq<byte>> {
    if text == [] then Some([])
    else if |text| < 4 then None
    else if |text| == 4 then DecodeLast(text)
    else
      var head, tail := DecodeGroup(text[..4]), Decode(text[4..]);
      if head.None? || tail.None? then None else Some(head.value + tail.value)
  }

  lemma SymbolsDecode(a: byte, b: byte, c: byte)
    ensures |Encode([a])| == 4 && |Encode([a, b])| == 4 && |Encode([a, b, c])| == 4
    ensures DecodeLast(Encode([a])) == Some([a])
    ensures DecodeLast(Encode([a, b])) == Some([a, b])
    ensures DecodeLast(Encode([a, b, c])) == DecodeGroup(Encode([a, b, c])) == Some([a, b, c])
  {
    hide Split, Join, Symbol, Value;
    SplitDecodes(a, 0, 0);
    SplitDecodes(a, b, 0);
    SplitDecodes(a, b, c);
    assert [a, b, c][3..] == [];
  }

  lemma SplitDecodes(a: byte, b: byte, c: byte)
    ensures var q := Split(a, b, c);
            && Join(q.0, q.1, q.2, q.3) == (a, b, c)
            && Value(Symbol(q.0)) == Some(q.0) && Value(Symbol(q.1)) == Some(q.1)
            && Value(Symbol(q.2)) == Some(q.2) && Value(Symbol(q.3)) == Some(q.3)
            && Symbol(q.2) != PAD && Symbol(q.3) != PAD
            && (c == 0 ==> q.3 == 0) && (b == c == 0 ==> q.2 == 0)
  {
    var q := Split(a, b, c);
    SplitJoin(a, b, c);
    SymbolValue(q.0, 0);
    SymbolValue(q.1, 0);
    SymbolValue(q.2, 0);
    SymbolValue(q.3, 0);
  }

  lemma LastGroupDecodes(bs: seq<byte>)
    requires 1 <= |bs| <= 3
    ensures |Encode(bs)| == 4 && DecodeLast(Encode(bs)) == Some(bs)
    ensures |bs| == 3 ==> DecodeGroup(Encode(bs)) == Some(bs)
  {
    hide Encode, DecodeGroup, DecodeLast;
    if |bs| == 1 {
      SymbolsDecode(bs[0], 0, 0);
      assert bs == [bs[0]];
    } else if |bs| == 2 {
      SymbolsDecode(bs[0], bs[1], 0);
      assert bs == [bs[0], bs[1]];
    } else {
      SymbolsDecode(bs[0], bs[1], bs[2]);
      assert bs == [bs[0], bs[1], bs[2]];
    }
  }

  lemma GroupsFollow(bs: seq<byte>)
    requires |bs| > 3
    ensures Encode(bs) == Encode(bs[..3]) + Encode(bs[3..]) && Encode(bs[3..]) != []
  {
    hide Split, Symbol;
    var q := Split(bs[0], bs[1], bs[2]);
    var group := [Symbol(q.0), Symbol(q.1), Symbol(q.2), Symbol(q.3)];
    assert Encode(bs) == group + Encode(bs[3..]);
    assert bs[..3][3..] == [];
    assert Encode(bs[..3]) == group + [];
  }

  /** Decoding undoes encoding. */
  lemma {:induction false} DecodeEncode(bs: seq<byte>)
    ensures Decode(Encode(bs)) == Some(bs)
  {
    hide DecodeGroup, DecodeLast;
    if bs == [] {
    } else if |bs| <= 3 {
      hide Encode;
      LastGroupDecodes(bs);
    } else {
      hide Encode;
      var head, tail := Encode(bs[..3]), Encode(bs[3..]);
      GroupsFollow(bs);
      LastGroupDecodes(bs[..3]);
      DecodeEncode(bs[3..]);
      assert (head + tail)[..4] == head && (head + tail)[4..] == tail;
      assert bs == bs[..3] + bs[3..];
    }
  }

  lemma LastCanonical(text: seq<byte>)
    requires |text| == 4
    ensures DecodeGroup(text).Some? ==> Encode(DecodeGroup(text).value) == text
    ensures DecodeLast(text).Some? ==> Encode(DecodeLast(text).value) == text
  {
    hide Split, Join, Symbol, Value;
    var x, y, z, w := Value(text[0]), Value(text[1]), Value(text[2]), Value(text[3]);
    SymbolValue(0, text[0]);
    SymbolValue(0, text[1]);
    SymbolValue(0, text[2]);
    SymbolValue(0, text[3]);
    if x.Some? && y.Some? {
      JoinSplit(x.value, y.value, if z.Some? then z.value else 0, if w.Some? then w.value else 0);
      if z.Some? {
        JoinSplit(x.value, y.value, z.value, 0);
      }
      JoinSplit(x.value, y.value, 0, 0);
      JoinThird(x.value, y.value);
    }
  }

  lemma JoinThird(x: sextet, y: sextet)
    ensures Join(x, y, 0, 0).2 == 0
  {
  }

  /** Only encodings decode: every byte string has exactly one accepted text. */
  lemma {:induction false} EncodeDecode(text: seq<byte>)
    requires Decode(text).Some?
    ensures Encode(Decode(text).value) == text
  {
    hide Split, Symbol, DecodeGroup, DecodeLast;
    if |text| == 4 {
      LastCanonical(text);
    } else if text != [] {
      LastCanonical(text[..4]);
      EncodeDecode(text[4..]);
      var head, tail := DecodeGroup(text[..4]).value, Decode(text[4..]).value;
      assert (head + tail)[3..] == tail && head[3..] == [];
      assert Encode(head + tail) == Encode(head) + Encode(tail);
      assert text == text[..4] + text[4..];
    }
  }

  /** The decoder accepts exactly the encodings, and each as the bytes it encodes. */
  lemma DecodeIff(text: seq<byte>, bs: seq<byte>)
    ensures Decode(text) == Some(bs) <==> text == Encode(bs)
  {
    DecodeEncode(bs);
    if Decode(text).Some? {
      EncodeDecode(text);
    }
  }

  /** `Base64::decode` into a buffer of the given size. */
  function DecodeInto(text: seq<byte>, capacity: nat): Option<seq<byte>> {
    var bs := Decode(text);
    if bs.Some? && |bs.value| <= capacity then bs else None
  }
}
