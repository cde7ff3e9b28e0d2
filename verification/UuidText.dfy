/** The text form of UUIDs, section 4 of RFC 9562, and the forms that the `uuid` crate reads. */
module UuidText {
  import opened Wrappers
  import opened Bytes

  type nibble = v: int | 0 <= v < 16

  function Digit(v: nibble): char {
    if v < 10 then '0' + v as char else 'a' + (v - 10) as char
  }

  function DigitValue(c: char): Option<nibble> {
    if '0' <= c <= '9' then Some(c as int - '0' as int)
    else if 'a' <= c <= 'f' then Some(c as int - 'a' as int + 10)
    else if 'A' <= c <= 'F' then Some(c as int - 'A' as int + 10)
    else None
  }

  lemma DigitRoundTrip(v: nibble)
    ensures DigitValue(Digit(v)) == Some(v)
    ensures Digit(v) == "0123456789abcdef"[v]
  {
  }

  function Hex(bs: seq<byte>): (text: string)
    ensures |text| == 2 * |bs|
  {
    if bs == [] then "" else [Digit(bs[0] / 16), Digit(bs[0] % 16)] + Hex(bs[1..])
  }

  /** The high half of each byte comes first. */
  lemma {:induction false} HexAt(bs: seq<byte>, i: nat)
    requires i < |bs|
    ensures Hex(bs)[2 * i] == "0123456789abcdef"[bs[i] / 16] && Hex(bs)[2 * i + 1] == "0123456789abcdef"[bs[i] % 16]
  {
    hide Digit;
    DigitRoundTrip(bs[0] / 16);
    DigitRoundTrip(bs[0] % 16);
    if i > 0 {
      HexAt(bs[1..], i - 1);
    }
  }

  function Unhex(text: string): Option<seq<byte>> {
    if text == "" then Some([])
    else if |text| == 1 then None
    else
      var high, low, rest := DigitValue(text[0]), DigitValue(text[1]), Unhex(text[2..]);
      if high.None? || low.None? || rest.None? then None
      else Some([high.value * 16 + low.value] + rest.value)
  }

  lemma {:induction false} UnhexHex(bs: seq<byte>)
    ensures Unhex(Hex(bs)) == Some(bs)
  {
    hide Digit, DigitValue;
    if bs != [] {
      DigitRoundTrip(bs[0] / 16);
      DigitRoundTrip(bs[0] % 16);
      UnhexHex(bs[1..]);
      assert Hex(bs)[2..] == Hex(bs[1..]);
      assert bs == [bs[0]] + bs[1..];
    }
  }

  lemma {:induction false} UnhexLength(text: string)
    requires Unhex(text).Some?
    ensures 2 * |Unhex(text).value| == |text|
  {
    if text != "" {
      UnhexLength(text[2..]);
    }
  }

  lemma {:induction false} HexConcat(a: seq<byte>, b: seq<byte>)
    ensures Hex(a + b) == Hex(a) + Hex(b)
  {
    hide Digit;
    if a == [] {
      assert a + b == b;
    } else {
      HexConcat(a[1..], b);
      assert (a + b)[1..] == a[1..] + b;
    }
  }

  /** `Display`: five groups of lower-case hexadecimal digits. */
  function Format(u: Uuid): (text: string)
    ensures |text| == 36
  {
    Hex(u[..4]) + "-" + Hex(u[4..6]) + "-" + Hex(u[6..8]) + "-" + Hex(u[8..10]) + "-" + Hex(u[10..])
  }

  function ParseDigits(text: string): Option<Uuid>
    requires |text| == 32
  {
    var bs := Unhex(text);
    if bs.None? then None
    else
      UnhexLength(text);
      Some(bs.value)
  }

  function ParseHyphenated(text: string): Option<Uuid>
    requires |text| == 36
  {
    if text[8] == '-' && text[13] == '-' && text[18] == '-' && text[23] == '-' then
      ParseDigits(text[..8] + text[9..13] + text[14..18] + text[19..23] + text[24..])
    else None
  }

  /** `Uuid::parse_str`: plain digits, hyphenated, in braces, or as a URN. */
  function ParseStr(text: string): Option<Uuid> {
    if |text| == 32 then ParseDigits(text)
    else if |text| == 36 then ParseHyphenated(text)
    else if |text| == 38 && text[0] == '{' && text[37] == '}' then ParseHyphenated(text[1..37])
    else if |text| == 45 && text[..9] == "urn:uuid:" then ParseHyphenated(text[9..])
    else None
  }

  /** Every UUID is read back from its text. */
  lemma ParseFormat(u: Uuid)
    ensures ParseStr(Format(u)) == Some(u)
  {
    hide Hex;
    FormatLayout(u);
    UnhexHex(u);
  }

  /** The text is 36 characters: the digits of all bytes in order, with hyphens after 4, 6, 8 and 10 bytes. */
  lemma FormatLayout(u: Uuid)
    ensures var text := Format(u);
            && text[8] == text[13] == text[18] == text[23] == '-'
            && text[..8] + text[9..13] + text[14..18] + text[19..23] + text[24..] == Hex(u)
  {
    hide Hex;
    var text := Format(u);
    assert text[..8] == Hex(u[..4]) && text[9..13] == Hex(u[4..6]) && text[14..18] == Hex(u[6..8]);
    assert text[19..23] == Hex(u[8..10]) && text[24..] == Hex(u[10..]);
    HexGroups(u);
  }

  lemma HexGroups(u: Uuid)
    ensures Hex(u[..4]) + Hex(u[4..6]) + Hex(u[6..8]) + Hex(u[8..10]) + Hex(u[10..]) == Hex(u)
  {
    hide Hex;
    HexConcat(u[..4], u[4..6]);
    HexConcat(u[..4] + u[4..6], u[6..8]);
    HexConcat(u[..4] + u[4..6] + u[6..8], u[8..10]);
    HexConcat(u[..4] + u[4..6] + u[6..8] + u[8..10], u[10..]);
    assert u[..4] + u[4..6] + u[6..8] + u[8..10] + u[10..] == u;
  }

  /** The other forms that are read: plain digits, in braces, and as a URN. */
  lemma ParseOtherForms(u: Uuid)
    ensures ParseStr(Hex(u)) == ParseStr("{" + Format(u) + "}") == ParseStr("urn:uuid:" + Format(u)) == Some(u)
  {
    hide Hex, Format;
    ParseFormat(u);
    UnhexHex(u);
    var braced, urn := "{" + Format(u) + "}", "urn:uuid:" + Format(u);
    assert braced[1..37] == Format(u) && urn[9..] == Format(u) && urn[..9] == "urn:uuid:";
  }

  // ---------------------------------------------------------------- numbers as UUIDs

  function BigEndian(n: nat, length: nat): (bs: seq<byte>)
    ensures |bs| == length
  {
    if length == 0 then [] else BigEndian(n / 256, length - 1) + [n % 256]
  }

  /** `Uuid::from_u128`: the number in big-endian byte order. */
  function FromU128(n: nat): Uuid {
    BigEndian(n, 16)
  }

  /** The number that bytes form, the most significant first. */
  function Number(bs: seq<byte>): nat {
    if bs == [] then 0 else Number(bs[..|bs| - 1]) * 256 + bs[|bs| - 1]
  }

  lemma {:induction false} BigEndianIsNumber(n: nat, length: nat)
    requires n < Pow256(length)
    ensures Number(BigEndian(n, length)) == n
  {
    if length > 0 {
      BigEndianIsNumber(n / 256, length - 1);
      assert (BigEndian(n / 256, length - 1) + [n % 256])[..length - 1] == BigEndian(n / 256, length - 1);
    }
  }

  function Pow256(k: nat): nat {
    if k == 0 then 1 else 256 * Pow256(k - 1)
  }

  /** `from_u128` of a 64-bit counter: 16 bytes that form the number; different numbers, different ids. */
  lemma FromU128Injective(n: nat, m: nat)
    requires n < 0x1_0000_0000_0000_0000 && m < 0x1_0000_0000_0000_0000
    ensures Number(FromU128(n)) == n
    ensures FromU128(n) == FromU128(m) ==> n == m
  {
    hide Number;
    assert Pow256(4) == 0x1_0000_0000;
    assert Pow256(8) == 0x1_0000_0000_0000_0000;
    assert Pow256(12) >= Pow256(8);
    assert Pow256(16) >= Pow256(12);
    BigEndianIsNumber(n, 16);
    BigEndianIsNumber(m, 16);
  }
}
