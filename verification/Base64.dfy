/** Base64 as in section 4 of RFC 4648: standard alphabet, canonical padding required on decoding. */
module Base64 {
  import opened Prelude
  import opened Text

  type Sextet = n: nat | n < 64

  /** The alphabet. */
  function Digit(n: Sextet): char {
    if n < 26 then (n + 'A' as int) as char
    else if n < 52 then (n - 26 + 'a' as int) as char
    else if n < 62 then (n - 52 + '0' as int) as char
    else if n == 62 then '+'
    else '/'
  }

  function SextetOf(c: char): Option<Sextet> {
    if 'A' <= c <= 'Z' then Some(c as int - 'A' as int)
    else if 'a' <= c <= 'z' then Some(c as int - 'a' as int + 26)
    else if '0' <= c <= '9' then Some(c as int - '0' as int + 52)
    else if c == '+' then Some(62)
    else if c == '/' then Some(63)
    else None
  }

  function Four(a: Sextet, b: Sextet, c: Sextet, d: Sextet): string {
    [Digit(a), Digit(b), Digit(c), Digit(d)]
  }

  /** Three bytes as four digits. */
  function Quad(a: Byte, b: Byte, c: Byte): string {
    Four(a / 4, a % 4 * 16 + b / 16, b % 16 * 4 + c / 64, c % 64)
  }

  /** The bytes of four digits. */
  function Triple(a: Sextet, b: Sextet, c: Sextet, d: Sextet): seq<Byte> {
    [a * 4 + b / 16, b % 16 * 16 + c / 4, c % 4 * 64 + d]
  }

  function EncodeLast(bytes: seq<Byte>): string
    requires 0 < |bytes| < 3
  {
    if |bytes| == 1 then Quad(bytes[0], 0, 0)[..2] + "==" else Quad(bytes[0], bytes[1], 0)[..3] + "="
  }

  function Encode(bytes: seq<Byte>): string {
    if bytes == [] then ""
    else if |bytes| < 3 then EncodeLast(bytes)
    else Quad(bytes[0], bytes[1], bytes[2]) + Encode(bytes[3..])
  }

  function DecodeFour(s: string): Option<seq<Byte>>
    requires |s| == 4
  {
    var a, b, c, d := SextetOf(s[0]), SextetOf(s[1]), SextetOf(s[2]), SextetOf(s[3]);
    if a.None? || b.None? || c.None? || d.None? then None
    else Some(Triple(a.value, b.value, c.value, d.value))
  }

  /** The last four characters, which may be padded; unused bits must be zero. */
  function DecodeLast(s: string): Option<seq<Byte>>
    requires |s| == 4
  {
    if s[3] != '=' then DecodeFour(s)
    else
      var a, b, c := SextetOf(s[0]), SextetOf(s[1]), SextetOf(s[2]);
      if a.None? || b.None? then None
      else if s[2] == '=' then
        if b.value % 16 == 0 then Some(Triple(a.value, b.value, 0, 0)[..1]) else None
      else if c.None? then None
      else
        if c.value % 4 == 0 then Some(Triple(a.value, b.value, c.value, 0)[..2]) else None
  }

  function Decode(s: string): Option<seq<Byte>> {
    if s == "" then Some([])
    else if |s| < 4 then None
    else if |s| == 4 then DecodeLast(s)
    else
      var head := DecodeFour(s[..4]);
      var tail := Decode(s[4..]);
      if head.None? || tail.None? then None else Some(head.value + tail.value)
  }

  lemma DigitValue(n: Sextet)
    ensures SextetOf(Digit(n)) == Some(n) && Digit(n) != '='
  {
  }

  lemma TripleQuad(a: Byte, b: Byte, c: Byte)
    ensures Triple(a / 4, a % 4 * 16 + b / 16, b % 16 * 4 + c / 64, c % 64) == [a, b, c]
  {
  }

  lemma FourDecodes(a: Sextet, b: Sextet, c: Sextet, d: Sextet)
    ensures DecodeFour(Four(a, b, c, d)) == Some(Triple(a, b, c, d))
    ensures DecodeLast(Four(a, b, c, d)) == Some(Triple(a, b, c, d))
  {
    DigitValue(a);
    DigitValue(b);
    DigitValue(c);
    DigitValue(d);
  }

  lemma ThreeDecodes(a: Sextet, b: Sextet, c: Sextet)
    requires c % 4 == 0
    ensures DecodeLast(Four(a, b, c, 0)[..3] + "=") == Some(Triple(a, b, c, 0)[..2])
  {
    DigitValue(a);
    DigitValue(b);
    DigitValue(c);
  }

  lemma TwoDecodes(a: Sextet, b: Sextet)
    requires b % 16 == 0
    ensures DecodeLast(Four(a, b, 0, 0)[..2] + "==") == Some(Triple(a, b, 0, 0)[..1])
  {
    DigitValue(a);
    DigitValue(b);
  }

  lemma QuadDecodes(a: Byte, b: Byte, c: Byte)
    ensures DecodeFour(Quad(a, b, c)) == Some([a, b, c])
    ensures DecodeLast(Quad(a, b, c)) == Some([a, b, c])
  {
    TripleQuad(a, b, c);
    FourDecodes(a / 4, a % 4 * 16 + b / 16, b % 16 * 4 + c / 64, c % 64);
  }

  lemma LastDecodes(bytes: seq<Byte>)
    requires 0 < |bytes| < 3
    ensures DecodeLast(EncodeLast(bytes)) == Some(bytes)
  {
    if |bytes| == 1 {
      TripleQuad(bytes[0], 0, 0);
      assert [bytes[0], 0 as Byte, 0 as Byte][..1] == bytes;
      TwoDecodes(bytes[0] / 4, bytes[0] % 4 * 16);
    } else {
      TripleQuad(bytes[0], bytes[1], 0);
      assert [bytes[0], bytes[1], 0 as Byte][..2] == bytes;
      ThreeDecodes(bytes[0] / 4, bytes[0] % 4 * 16 + bytes[1] / 16, bytes[1] % 16 * 4);
    }
  }

  lemma GroupDecodes(quad: string, rest: string)
    requires |quad| == 4 && DecodeFour(quad).Some? && DecodeLast(quad) == DecodeFour(quad)
    requires Decode(rest).Some? && (rest == "" || |rest| >= 4)
    ensures Decode(quad + rest) == Some(DecodeFour(quad).value + Decode(rest).value)
  {
    assert (quad + rest)[..4] == quad && (quad + rest)[4..] == rest;
    if rest == "" {
      assert quad + rest == quad;
      assert DecodeFour(quad).value + [] == DecodeFour(quad).value;
    }
  }

  lemma {:induction false} RoundTrip(bytes: seq<Byte>)
    ensures Decode(Encode(bytes)) == Some(bytes)
    decreases |bytes|
  {
    if |bytes| > 2 {
      var quad, rest := Quad(bytes[0], bytes[1], bytes[2]), Encode(bytes[3..]);
      QuadDecodes(bytes[0], bytes[1], bytes[2]);
      assert bytes == [bytes[0], bytes[1], bytes[2]] + bytes[3..];
      RoundTrip(bytes[3..]);
      EncodedLength(bytes[3..]);
      GroupDecodes(quad, rest);
    } else if bytes != [] {
      LastDecodes(bytes);
    }
  }

  /** Padding rounds the length up to whole groups of four. */
  lemma {:induction false} EncodedLength(bytes: seq<Byte>)
    ensures |Encode(bytes)| == (|bytes| + 2) / 3 * 4
    decreases |bytes|
  {
    assert |bytes| > 2 ==> (|bytes| + 2) / 3 == (|bytes| - 1) / 3 + 1;
    if |bytes| > 2 {
      EncodedLength(bytes[3..]);
    }
  }

  /** Length without padding, as in an encrypted blob. */
  function UnpaddedLength(n: nat): nat {
    n / 3 * 4 + (if n % 3 == 0 then 0 else n % 3 + 1)
  }

  predicate Padded(s: string, from: nat) {
    forall i :: 0 <= i < |s| ==> (s[i] == '=' <==> i >= from)
  }

  lemma QuadUnpadded(a: Byte, b: Byte, c: Byte)
    ensures forall i :: 0 <= i < 4 ==> Quad(a, b, c)[i] != '='
  {
    DigitValue(a / 4);
    DigitValue(a % 4 * 16 + b / 16);
    DigitValue(b % 16 * 4 + c / 64);
    DigitValue(c % 64);
  }

  /** Stripping the padding leaves exactly the unpadded length. */
  lemma {:induction false} UnpaddedDrops(bytes: seq<Byte>)
    ensures UnpaddedLength(|bytes|) <= |Encode(bytes)| && Padded(Encode(bytes), UnpaddedLength(|bytes|))
    decreases |bytes|
  {
    if |bytes| > 2 {
      var quad, rest := Quad(bytes[0], bytes[1], bytes[2]), Encode(bytes[3..]);
      UnpaddedDrops(bytes[3..]);
      QuadUnpadded(bytes[0], bytes[1], bytes[2]);
      assert forall i :: 4 <= i < |quad + rest| ==> (quad + rest)[i] == rest[i - 4];
    } else if |bytes| == 2 {
      QuadUnpadded(bytes[0], bytes[1], 0);
    } else if |bytes| == 1 {
      QuadUnpadded(bytes[0], 0, 0);
    }
  }

  lemma SextetDigit(c: char)
    ensures SextetOf(c).Some? ==> Digit(SextetOf(c).value) == c
  {
  }

  lemma QuadTriple(a: Sextet, b: Sextet, c: Sextet, d: Sextet)
    ensures var t := Triple(a, b, c, d); Quad(t[0], t[1], t[2]) == Four(a, b, c, d)
  {
    var t := Triple(a, b, c, d);
    assert t[0] / 4 == a;
    assert t[0] % 4 * 16 + t[1] / 16 == b;
    assert t[1] % 16 * 4 + t[2] / 64 == c;
    assert t[2] % 64 == d;
  }

  lemma FourCanonical(s: string)
    requires |s| == 4 && DecodeFour(s).Some?
    ensures |DecodeFour(s).value| == 3
    ensures var b := DecodeFour(s).value; Quad(b[0], b[1], b[2]) == s
  {
    var a, b, c, d := SextetOf(s[0]).value, SextetOf(s[1]).value, SextetOf(s[2]).value, SextetOf(s[3]).value;
    SextetDigit(s[0]);
    SextetDigit(s[1]);
    SextetDigit(s[2]);
    SextetDigit(s[3]);
    QuadTriple(a, b, c, d);
    assert s == Four(a, b, c, d);
  }

  lemma PaddedCanonical(s: string)
    requires |s| == 4 && s[3] == '=' && DecodeLast(s).Some?
    ensures 0 < |DecodeLast(s).value| < 3 && EncodeLast(DecodeLast(s).value) == s
  {
    var a, b := SextetOf(s[0]).value, SextetOf(s[1]).value;
    SextetDigit(s[0]);
    SextetDigit(s[1]);
    if s[2] == '=' {
      QuadTriple(a, b, 0, 0);
      assert s == Four(a, b, 0, 0)[..2] + "==";
    } else {
      var c := SextetOf(s[2]).value;
      SextetDigit(s[2]);
      QuadTriple(a, b, c, 0);
      assert s == Four(a, b, c, 0)[..3] + "=";
    }
  }

  /** Nothing decodes but what encoding produces. */
  lemma {:induction false} DecodeIsCanonical(s: string)
    ensures Decode(s).Some? ==> Encode(Decode(s).value) == s
    decreases |s|
  {
    if |s| == 4 && Decode(s).Some? {
      if s[3] == '=' {
        PaddedCanonical(s);
      } else {
        FourCanonical(s);
        assert Encode([]) == "";
        assert s + "" == s;
      }
    } else if |s| > 4 && Decode(s).Some? {
      DecodeIsCanonical(s[4..]);
      FourCanonical(s[..4]);
      var head, tail := DecodeFour(s[..4]).value, Decode(s[4..]).value;
      assert (head + tail)[3..] == tail;
      assert s == s[..4] + s[4..];
    }
  }

  lemma DigitVerbatim(n: Sextet)
    ensures Verbatim([Digit(n)])
  {
  }

  lemma FourVerbatim(a: Sextet, b: Sextet, c: Sextet, d: Sextet)
    ensures Verbatim(Four(a, b, c, d))
  {
    DigitVerbatim(a);
    DigitVerbatim(b);
    DigitVerbatim(c);
    DigitVerbatim(d);
    assert [Digit(a)][0] == Digit(a) && [Digit(b)][0] == Digit(b);
    assert [Digit(c)][0] == Digit(c) && [Digit(d)][0] == Digit(d);
  }

  lemma QuadVerbatim(a: Byte, b: Byte, c: Byte)
    ensures Verbatim(Quad(a, b, c))
  {
    FourVerbatim(a / 4, a % 4 * 16 + b / 16, b % 16 * 4 + c / 64, c % 64);
  }

  /** Encoded text is plain ASCII without quotes or backslashes. */
  lemma {:induction false} EncodedIsPlain(bytes: seq<Byte>)
    ensures Verbatim(Encode(bytes))
    decreases |bytes|
  {
    if |bytes| > 2 {
      QuadVerbatim(bytes[0], bytes[1], bytes[2]);
      EncodedIsPlain(bytes[3..]);
    } else if |bytes| == 2 {
      QuadVerbatim(bytes[0], bytes[1], 0);
    } else if |bytes| == 1 {
      QuadVerbatim(bytes[0], 0, 0);
    }
  }
}
