/** JSON string literals, section 7 of RFC 8259: the writer's escapes and a reader of all escapes. */
module JsonString {
  import opened Prelude
  import opened Text

  function HexDigit(n: nat): char
    requires n < 16
  {
    if n < 10 then (n + '0' as int) as char else (n - 10 + 'a' as int) as char
  }

  function HexValue(c: char): Option<nat> {
    if '0' <= c <= '9' then Some(c as int - '0' as int)
    else if 'a' <= c <= 'f' then Some(c as int - 'a' as int + 10)
    else if 'A' <= c <= 'F' then Some(c as int - 'A' as int + 10)
    else None
  }

  const QUOTE: char := '"'
  const BACKSLASH: char := '\\'

  /** The two-character escapes: the letter a character is written with. */
  function ShortEscape(c: char): Option<char> {
    if c == QUOTE || c == BACKSLASH then Some(c)
    else if c as int == 0x08 then Some('b')
    else if c as int == 0x0C then Some('f')
    else if c as int == 0x0A then Some('n')
    else if c as int == 0x0D then Some('r')
    else if c as int == 0x09 then Some('t')
    else None
  }

  function EscapeChar(c: char): string {
    if ShortEscape(c).Some? then [BACKSLASH, ShortEscape(c).value]
    else if c as int < 0x20 then [BACKSLASH, 'u', '0', '0', HexDigit(c as int / 16), HexDigit(c as int % 16)]
    else [c]
  }

  function Escape(s: string): string {
    if s == "" then "" else EscapeChar(s[0]) + Escape(s[1..])
  }

  datatype CharRead = CharRead(c: char, rest: string)
  datatype TextRead = TextRead(text: string, rest: string)

  /** Four hexadecimal digits, either case. */
  function ParseHex(s: string): (n: Option<nat>)
    ensures n.Some? ==> |s| >= 4 && n.value < 0x10000
  {
    if |s| < 4 then None
    else
      var a, b, c, d := HexValue(s[0]), HexValue(s[1]), HexValue(s[2]), HexValue(s[3]);
      if a.None? || b.None? || c.None? || d.None? then None
      else Some(a.value * 0x1000 + b.value * 0x100 + c.value * 0x10 + d.value)
  }

  /** After `\u`: a scalar, or a surrogate pair spelled as two escapes. */
  function ParseUnicode(s: string): (r: Option<CharRead>)
    ensures r.Some? ==> |r.value.rest| < |s|
  {
    var n := ParseHex(s);
    if n.None? || 0xDC00 <= n.value < 0xE000 then None
    else if n.value < 0xD800 || n.value >= 0xE000 then Some(CharRead(n.value as char, s[4..]))
    else if |s| < 6 || s[4] != BACKSLASH || s[5] != 'u' then None
    else
      var low := ParseHex(s[6..]);
      if low.None? || low.value < 0xDC00 || low.value >= 0xE000 then None
      else Some(CharRead((0x10000 + (n.value - 0xD800) * 0x400 + (low.value - 0xDC00)) as char, s[10..]))
  }

  /** After a backslash. */
  function ParseEscape(s: string): (r: Option<CharRead>)
    ensures r.Some? ==> |r.value.rest| < |s|
  {
    if s == "" then None
    else if s[0] == 'u' then ParseUnicode(s[1..])
    else if s[0] == QUOTE || s[0] == BACKSLASH || s[0] == '/' then Some(CharRead(s[0], s[1..]))
    else if s[0] == 'b' then Some(CharRead(0x08 as char, s[1..]))
    else if s[0] == 'f' then Some(CharRead(0x0C as char, s[1..]))
    else if s[0] == 'n' then Some(CharRead(0x0A as char, s[1..]))
    else if s[0] == 'r' then Some(CharRead(0x0D as char, s[1..]))
    else if s[0] == 't' then Some(CharRead(0x09 as char, s[1..]))
    else None
  }

  /** One character of a string's inside; None at the closing quote or at an error. */
  function ParseChar(s: string): (r: Option<CharRead>)
    ensures r.Some? ==> |r.value.rest| < |s|
  {
    if s == "" || s[0] == QUOTE || s[0] as int < 0x20 then None
    else if s[0] == BACKSLASH then ParseEscape(s[1..])
    else Some(CharRead(s[0], s[1..]))
  }

  /** The inside of a string, through its closing quote. */
  function ParseInside(s: string): (r: Option<TextRead>)
    ensures r.Some? ==> |r.value.rest| < |s|
    decreases |s|
  {
    if s != "" && s[0] == QUOTE then Some(TextRead("", s[1..]))
    else
      var first := ParseChar(s);
      if first.None? then None
      else
        var more := ParseInside(first.value.rest);
        if more.None? then None else Some(TextRead([first.value.c] + more.value.text, more.value.rest))
  }

  /** A whole string literal. */
  function ParseString(s: string): (r: Option<TextRead>)
    ensures r.Some? ==> |r.value.rest| < |s|
  {
    if s == "" || s[0] != QUOTE then None else ParseInside(s[1..])
  }

  function Quoted(s: string): string {
    [QUOTE] + Escape(s) + [QUOTE]
  }

  lemma HexPair(c: char, rest: string)
    requires c as int < 0x20
    ensures ParseUnicode(['0', '0', HexDigit(c as int / 16), HexDigit(c as int % 16)] + rest) == Some(CharRead(c, rest))
  {
    var s := ['0', '0', HexDigit(c as int / 16), HexDigit(c as int % 16)] + rest;
    assert HexValue(s[2]) == Some(c as int / 16);
    assert HexValue(s[3]) == Some(c as int % 16);
    assert s[4..] == rest;
  }

  lemma EscapedCharParses(c: char, rest: string)
    ensures ParseChar(EscapeChar(c) + rest) == Some(CharRead(c, rest))
    ensures (EscapeChar(c) + rest)[0] != QUOTE
  {
    var s := EscapeChar(c) + rest;
    if ShortEscape(c).Some? {
      assert s[2..] == rest;
      assert s[1..][1..] == rest;
    } else if c as int < 0x20 {
      HexPair(c, rest);
      assert s[2..] == ['0', '0', HexDigit(c as int / 16), HexDigit(c as int % 16)] + rest;
      assert s[1..][1..] == s[2..];
    } else {
      assert s[1..] == rest;
    }
  }

  lemma OpenQuote(inside: string, rest: string)
    ensures ([QUOTE] + inside + [QUOTE] + rest)[0] == QUOTE
    ensures ([QUOTE] + inside + [QUOTE] + rest)[1..] == inside + ([QUOTE] + rest)
  {
  }

  /** Whatever the text, its literal reads back as the text and leaves what follows. */
  lemma {:induction false} QuotedParses(text: string, rest: string)
    ensures ParseString(Quoted(text) + rest) == Some(TextRead(text, rest))
  {
    InsideParses(text, rest);
    OpenQuote(Escape(text), rest);
  }

  lemma EscapeCons(text: string, tail: string)
    requires text != ""
    ensures Escape(text) + tail == EscapeChar(text[0]) + (Escape(text[1..]) + tail)
  {
  }

  lemma InsideStep(s: string, c: char, more: string)
    requires s != "" && s[0] != QUOTE && ParseChar(s) == Some(CharRead(c, more)) && ParseInside(more).Some?
    ensures ParseInside(s) == Some(TextRead([c] + ParseInside(more).value.text, ParseInside(more).value.rest))
  {
  }

  lemma {:induction false} InsideParses(text: string, rest: string)
    ensures ParseInside(Escape(text) + ([QUOTE] + rest)) == Some(TextRead(text, rest))
  {
    var tail := [QUOTE] + rest;
    if text == "" {
      assert Escape(text) + tail == tail;
      assert tail[1..] == rest;
    } else {
      var more := Escape(text[1..]) + tail;
      InsideParses(text[1..], rest);
      EscapedCharParses(text[0], more);
      EscapeCons(text, tail);
      InsideStep(EscapeChar(text[0]) + more, text[0], more);
      assert [text[0]] + text[1..] == text;
    }
  }

  /** No control characters but the given whitespace ones. */
  predicate PlainText(s: string) {
    forall i :: 0 <= i < |s| ==> !IsControl(s[i]) || s[i] == '\n' || s[i] == '\r' || s[i] == '\t'
  }

  /** Escaping such text at most doubles its bytes. */
  lemma {:induction false} EscapeDoubles(s: string)
    requires PlainText(s)
    ensures Utf8Len(Escape(s)) <= 2 * Utf8Len(s)
  {
    if s != "" {
      EscapeDoubles(s[1..]);
      Utf8Append(EscapeChar(s[0]), Escape(s[1..]));
      EscapedWidth(s[0]);
    }
  }

  lemma Utf8One(a: char)
    ensures Utf8Len([a]) == Utf8Width(a)
  {
    assert [a][1..] == "";
  }

  lemma Utf8Two(a: char, b: char)
    ensures Utf8Len([a, b]) == Utf8Width(a) + Utf8Width(b)
  {
    Utf8One(b);
    assert [a, b][1..] == [b];
  }

  lemma EscapedWidth(c: char)
    requires !IsControl(c) || c == '\n' || c == '\r' || c == '\t'
    ensures Utf8Len(EscapeChar(c)) <= 2 * Utf8Width(c) && Utf8Len(EscapeChar(c)) <= 4
  {
    if ShortEscape(c).Some? {
      Utf8Two(BACKSLASH, ShortEscape(c).value);
    } else {
      Utf8One(c);
    }
  }

  /** A title without controls takes at most four bytes a character, escaped. */
  lemma {:induction false} EscapeQuadruples(s: string)
    requires PlainText(s)
    ensures Utf8Len(Escape(s)) <= 4 * |s|
  {
    if s != "" {
      EscapeQuadruples(s[1..]);
      Utf8Append(EscapeChar(s[0]), Escape(s[1..]));
      EscapedWidth(s[0]);
    }
  }

  lemma {:induction false} VerbatimText(s: string)
    requires Verbatim(s)
    ensures Escape(s) == s && Utf8Len(s) == |s|
  {
    if s != "" {
      VerbatimText(s[1..]);
    }
  }
}
