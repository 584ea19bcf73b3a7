/** Text measured the ways the code measures it: characters are Unicode scalar values. */
module Text {

  function Utf8Width(c: char): nat {
    if c < 0x80 as char then 1 else if c < 0x800 as char then 2 else if (c as int) < 0x10000 then 3 else 4
  }

  /** Length in UTF-8 bytes: what `len()` measures. */
  function Utf8Len(s: string): nat {
    if s == "" then 0 else Utf8Width(s[0]) + Utf8Len(s[1..])
  }

  function Utf16Width(c: char): nat {
    if (c as int) < 0x10000 then 1 else 2
  }

  /** Length in UTF-16 code units. */
  function Utf16Len(s: string): nat {
    if s == "" then 0 else Utf16Width(s[0]) + Utf16Len(s[1..])
  }

  /** The Unicode control characters (general category Cc). */
  predicate IsControl(c: char) {
    var n := c as int;
    n < 0x20 || 0x7F <= n < 0xA0
  }

  predicate HasControl(s: string) {
    exists i :: 0 <= i < |s| && IsControl(s[i])
  }

  /** The Unicode White_Space property. */
  predicate IsSpace(c: char) {
    var n := c as int;
    || 0x9 <= n <= 0xD || n == 0x20 || n == 0x85 || n == 0xA0 || n == 0x1680 || 0x2000 <= n <= 0x200A
    || n == 0x2028 || n == 0x2029 || n == 0x202F || n == 0x205F || n == 0x3000
  }

  /** Nothing is left after trimming. */
  predicate IsBlank(s: string) {
    forall i :: 0 <= i < |s| ==> IsSpace(s[i])
  }

  lemma {:induction false} Utf8Append(a: string, b: string)
    ensures Utf8Len(a + b) == Utf8Len(a) + Utf8Len(b)
  {
    if a == "" {
      assert a + b == b;
    } else {
      calc {
        Utf8Len(a + b);
        { assert (a + b)[0] == a[0] && (a + b)[1..] == a[1..] + b; }
        Utf8Width(a[0]) + Utf8Len(a[1..] + b);
        { Utf8Append(a[1..], b); }
        Utf8Len(a) + Utf8Len(b);
      }
    }
  }

  lemma {:induction false} Utf16Append(a: string, b: string)
    ensures Utf16Len(a + b) == Utf16Len(a) + Utf16Len(b)
  {
    if a == "" {
      assert a + b == b;
    } else {
      calc {
        Utf16Len(a + b);
        { assert (a + b)[0] == a[0] && (a + b)[1..] == a[1..] + b; }
        Utf16Width(a[0]) + Utf16Len(a[1..] + b);
        { Utf16Append(a[1..], b); }
        Utf16Len(a) + Utf16Len(b);
      }
    }
  }

  /** Printable ASCII that JSON writes as itself. */
  predicate Verbatim(s: string) {
    forall i :: 0 <= i < |s| ==> ' ' <= s[i] <= '~' && s[i] != '"' && s[i] != '\\'
  }

  lemma {:induction false} AsciiLength(s: string)
    requires forall i :: 0 <= i < |s| ==> s[i] as int < 0x80
    ensures Utf8Len(s) == |s|
  {
    if s != "" {
      AsciiLength(s[1..]);
    }
  }
}
