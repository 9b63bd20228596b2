/** The canonical text of a UUID (section 4 of RFC 9562). */
module UuidText {
  import opened SequenceDsl

  newtype byte = x: int | 0 <= x < 256

  type Octets = b: seq<byte> | |b| == 16 witness seq(16, i => 0)

  datatype Uuid = Uuid(bytes: Octets, valid: bool)

  // ----- hexadecimal -----

  function HexDigit(n: nat): (c: char)
    requires n < 16
    ensures IsLowerHex(c) && HexValue(c) == n
  {
    if n < 10 then ('0' as int + n) as char else ('a' as int + (n - 10)) as char
  }

  predicate IsLowerHex(c: char) {
    '0' <= c <= '9' || 'a' <= c <= 'f'
  }

  function HexValue(c: char): nat
    requires IsLowerHex(c)
  {
    if c <= '9' then c as int - '0' as int else c as int - 'a' as int + 10
  }

  function HexHigh(b: byte): char {
    HexDigit(b as int / 16)
  }

  function HexLow(b: byte): char {
    HexDigit(b as int % 16)
  }

  /** Position of the k-th hexadecimal digit in the 8-4-4-4-12 text. */
  function DigitAt(k: nat): nat {
    if k < 8 then k else if k < 12 then k + 1 else if k < 16 then k + 2 else if k < 20 then k + 3 else k + 4
  }

  predicate IsDash(p: nat) {
    p == 8 || p == 13 || p == 18 || p == 23
  }

  /** The text shows each octet as two digits, in order, with dashes in between. */
  predicate Shows(text: string, b: Octets) {
    && |text| == 36
    && (forall p :: 0 <= p < 36 && IsDash(p) ==> text[p] == '-')
    && (forall i :: 0 <= i < 16 ==> text[DigitAt(2 * i)] == HexHigh(b[i]) && text[DigitAt(2 * i + 1)] == HexLow(b[i]))
  }

  method HexEncode(dst: array<char>, at: nat, src: seq<byte>)
    requires at + 2 * |src| <= dst.Length
    modifies dst
    ensures forall i :: 0 <= i < |src| ==> dst[at + 2 * i] == HexHigh(src[i]) && dst[at + 2 * i + 1] == HexLow(src[i])
    ensures forall p :: 0 <= p < dst.Length && !(at <= p < at + 2 * |src|) ==> dst[p] == old(dst[p])
  {
    for i := 0 to |src|
      invariant forall k :: 0 <= k < i ==> dst[at + 2 * k] == HexHigh(src[k]) && dst[at + 2 * k + 1] == HexLow(src[k])
      invariant forall p :: 0 <= p < dst.Length && !(at <= p < at + 2 * i) ==> dst[p] == old(dst[p])
    {
      dst[at + 2 * i] := HexHigh(src[i]);
      dst[at + 2 * i + 1] := HexLow(src[i]);
    }
  }

  /** UUIDToString: SQL NULL is the empty text. */
  method UUIDToString(v: Uuid) returns (text: string)
    ensures if v.valid then Shows(text, v.bytes) else text == ""
  {
    if !v.valid {
      return "";
    }
    var b := v.bytes;
    var dst := new char[36];
    HexEncode(dst, 0, b[0..4]);
    dst[8] := '-';
    HexEncode(dst, 9, b[4..6]);
    dst[13] := '-';
    HexEncode(dst, 14, b[6..8]);
    dst[18] := '-';
    HexEncode(dst, 19, b[8..10]);
    dst[23] := '-';
    HexEncode(dst, 24, b[10..16]);
    text := dst[..];
    forall i | 0 <= i < 16 ensures text[DigitAt(2 * i)] == HexHigh(b[i]) && text[DigitAt(2 * i + 1)] == HexLow(b[i]) {
      if i < 4 {
        assert b[0..4][i] == b[i];
        assert dst[0 + 2 * i] == HexHigh(b[0..4][i]);
      } else if i < 6 {
        assert b[4..6][i - 4] == b[i];
        assert dst[9 + 2 * (i - 4)] == HexHigh(b[4..6][i - 4]);
      } else if i < 8 {
        assert b[6..8][i - 6] == b[i];
        assert dst[14 + 2 * (i - 6)] == HexHigh(b[6..8][i - 6]);
      } else if i < 10 {
        assert b[8..10][i - 8] == b[i];
        assert dst[19 + 2 * (i - 8)] == HexHigh(b[8..10][i - 8]);
      } else {
        assert b[10..16][i - 10] == b[i];
        assert dst[24 + 2 * (i - 10)] == HexHigh(b[10..16][i - 10]);
      }
    }
  }

  // ----- canonical and lossless -----

  /** The 8-4-4-4-12 form in small hexadecimal digits. */
  predicate IsCanonical(text: string) {
    |text| == 36 && forall p :: 0 <= p < 36 ==> if IsDash(p) then text[p] == '-' else IsLowerHex(text[p])
  }

  lemma DigitPlace(p: nat) returns (k: nat)
    requires p < 36 && !IsDash(p)
    ensures k < 32 && DigitAt(k) == p
  {
    k := if p < 8 then p else if p < 13 then p - 1 else if p < 18 then p - 2 else if p < 23 then p - 3 else p - 4;
  }

  lemma ShownIsCanonical(text: string, b: Octets)
    requires Shows(text, b)
    ensures IsCanonical(text)
  {
    forall p | 0 <= p < 36 && !IsDash(p) ensures IsLowerHex(text[p]) {
      var k := DigitPlace(p);
      var i := k / 2;
      assert k == 2 * i || k == 2 * i + 1;
      assert text[DigitAt(2 * i)] == HexHigh(b[i]);
    }
  }

  /** Reading the digits back. */
  function Decode(text: string): Option<Octets> {
    if IsCanonical(text) then
      Some(seq(16, i requires 0 <= i < 16 && IsCanonical(text) => DecodeOctet(text, i)))
    else None
  }

  function DecodeOctet(text: string, i: nat): byte
    requires i < 16 && IsCanonical(text)
  {
    DigitsAreHex(text, i);
    (16 * HexValue(text[DigitAt(2 * i)]) + HexValue(text[DigitAt(2 * i + 1)])) as byte
  }

  lemma DigitsAreHex(text: string, i: nat)
    requires i < 16 && IsCanonical(text)
    ensures IsLowerHex(text[DigitAt(2 * i)]) && IsLowerHex(text[DigitAt(2 * i + 1)])
  {
  }

  lemma OctetBack(text: string, b: Octets, i: nat)
    requires i < 16 && IsCanonical(text) && Shows(text, b)
    ensures DecodeOctet(text, i) == b[i]
  {
    assert b[i] as int == 16 * (b[i] as int / 16) + b[i] as int % 16;
  }

  /** Lossless: the text of a UUID is canonical and decodes to its octets. */
  lemma RoundTrip(text: string, b: Octets)
    requires Shows(text, b)
    ensures IsCanonical(text) && Decode(text) == Some(b)
  {
    ShownIsCanonical(text, b);
    var decoded := Decode(text).value;
    forall i | 0 <= i < 16 ensures decoded[i] == b[i] {
      OctetBack(text, b, i);
    }
    assert decoded == b;
  }

  /** A text shows at most one UUID, and a UUID has at most one text. */
  lemma TextDetermines(s: string, t: string, a: Octets, b: Octets)
    requires Shows(s, a) && Shows(t, b)
    ensures s == t <==> a == b
  {
    RoundTrip(s, a);
    RoundTrip(t, b);
    if a == b {
      forall p | 0 <= p < 36 ensures s[p] == t[p] {
        if !IsDash(p) {
          var k := DigitPlace(p);
          var i := k / 2;
          assert k == 2 * i || k == 2 * i + 1;
          assert s[DigitAt(2 * i)] == HexHigh(a[i]) && t[DigitAt(2 * i)] == HexHigh(b[i]);
        }
      }
    }
  }

  /** The text without its dashes. */
  function DigitsOf(text: string): string
    requires |text| == 36
  {
    text[..8] + text[9..13] + text[14..18] + text[19..23] + text[24..]
  }

  lemma HexDigitIs(n: nat)
    requires n < 16
    ensures HexDigit(n) == "0123456789abcdef"[n]
  {
  }

  lemma DigitOf(text: string, k: nat)
    requires |text| == 36 && k < 32
    ensures |DigitsOf(text)| == 32 && DigitsOf(text)[k] == text[DigitAt(k)]
  {
  }

  /** The digits are those of the octets in order, high half first; the dashes come after 8, 12, 16 and 20 digits. */
  lemma DigitsInOrder(text: string, b: Octets, i: nat)
    requires Shows(text, b) && i < 16
    ensures |text| == 36 && text[8] == text[13] == text[18] == text[23] == '-'
    ensures |DigitsOf(text)| == 32
    ensures DigitsOf(text)[2 * i] == "0123456789abcdef"[b[i] as int / 16] && DigitsOf(text)[2 * i + 1] == "0123456789abcdef"[b[i] as int % 16]
  {
    DigitOf(text, 2 * i);
    DigitOf(text, 2 * i + 1);
    HexDigitIs(b[i] as int / 16);
    HexDigitIs(b[i] as int % 16);
    assert IsDash(8) && IsDash(13) && IsDash(18) && IsDash(23);
  }
}
