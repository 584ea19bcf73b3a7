/** The chart envelope: a printed JSON object behind a prefix, and the reader that re-validates it. */
module Chart {
  import opened Prelude
  import opened Text
  import opened JsonString
  import Base64

  const PREFIX: string := "cowchat-chart:v1\n"
  const MAX_PNG_BYTES: nat := 256 * 1024
  const MAX_OPENUI_BYTES: nat := 64 * 1024
  const DECODE_CAP: nat := MAX_PNG_BYTES * 4 / 3 + 132 * 1024
  const SERVER_CAP: nat := 640 * 1024

  const SIGNATURE: seq<Byte> := [0x89, 0x50, 0x4E, 0x47, 0x0D, 0x0A, 0x1A, 0x0A]
  const HEADER: seq<Byte> := [0, 0, 0, 13, 0x49, 0x48, 0x44, 0x52]

  function BigEndian(b: seq<Byte>, at: nat): nat
    requires at + 4 <= |b|
  {
    ((b[at] as int * 256 + b[at + 1]) * 256 + b[at + 2]) * 256 + b[at + 3]
  }

  /** `validate_png`. */
  predicate PngOK(b: seq<Byte>) {
    && 33 <= |b| <= MAX_PNG_BYTES
    && b[..8] == SIGNATURE && b[8..16] == HEADER
    && (var width, height := BigEndian(b, 16), BigEndian(b, 20);
        0 < width <= 4096 && 0 < height <= 4096 && width * height <= 8000000)
  }

  predicate OpenuiOK(openui: Option<string>) {
    openui.Some? ==> Utf8Len(openui.value) <= MAX_OPENUI_BYTES && PlainText(openui.value)
  }

  predicate TitleOK(title: string) {
    !IsBlank(title) && |title| <= 200 && !HasControl(title)
  }

  datatype Error = BadPng | BadOpenui | BadTitle

  datatype Chart = Chart(title: string, png: string, openui: Option<string>)

  function Member(key: string, value: string): string {
    Quoted(key) + [':'] + Quoted(value)
  }

  /** The compact JSON of a chart; an absent source is left out. */
  function Print(c: Chart): string {
    ['{'] + Member("title", c.title) + [','] + Member("png", c.png)
    + (if c.openui.Some? then [','] + Member("openui", c.openui.value) else "") + ['}']
  }

  /** `encode_openui`. */
  function EncodeOpenui(title: string, png: seq<Byte>, openui: Option<string>): Result<string, Error> {
    if !PngOK(png) then Err(BadPng)
    else if !OpenuiOK(openui) then Err(BadOpenui)
    else if !TitleOK(title) then Err(BadTitle)
    else Ok(PREFIX + Print(Chart(title, Base64.Encode(png), openui)))
  }

  /** Members read so far; `openui` may also be an explicit null. */
  datatype Fields = Fields(title: Option<string>, png: Option<string>, openui: Option<Option<string>>)

  const NO_FIELDS: Fields := Fields(None, None, None)

  predicate IsJsonSpace(c: char) {
    c == ' ' || c == '\n' || c == '\t' || c == '\r'
  }

  function SkipSpace(s: string): (r: string)
    ensures |r| <= |s|
  {
    if s != "" && IsJsonSpace(s[0]) then SkipSpace(s[1..]) else s
  }

  /** A character that must come next, after any whitespace. */
  function Expect(s: string, c: char): (r: Option<string>)
    ensures r.Some? ==> |r.value| < |s|
  {
    var t := SkipSpace(s);
    if t != "" && t[0] == c then Some(t[1..]) else None
  }

  datatype FieldsRead = FieldsRead(fields: Fields, rest: string)

  /** A member's value by its key: unknown and repeated keys are errors. */
  function ParseValue(s: string, key: string, f: Fields): (r: Option<FieldsRead>)
    ensures r.Some? ==> |r.value.rest| < |s|
  {
    var t := SkipSpace(s);
    var text := ParseString(t);
    if key == "title" && f.title.None? && text.Some? then
      Some(FieldsRead(f.(title := Some(text.value.text)), text.value.rest))
    else if key == "png" && f.png.None? && text.Some? then
      Some(FieldsRead(f.(png := Some(text.value.text)), text.value.rest))
    else if key == "openui" && f.openui.None? && text.Some? then
      Some(FieldsRead(f.(openui := Some(Some(text.value.text))), text.value.rest))
    else if key == "openui" && f.openui.None? && |t| >= 4 && t[..4] == "null" then
      Some(FieldsRead(f.(openui := Some(None)), t[4..]))
    else None
  }

  /** One `key: value`. */
  function ParseMember(s: string, f: Fields): (r: Option<FieldsRead>)
    ensures r.Some? ==> |r.value.rest| < |s|
  {
    var key := ParseString(SkipSpace(s));
    if key.None? then None
    else
      var value := Expect(key.value.rest, ':');
      if value.None? then None else ParseValue(value.value, key.value.text, f)
  }

  /** The members through the closing brace, in any order. */
  function ParseMembers(s: string, f: Fields): (r: Option<FieldsRead>)
    decreases |s|
  {
    var member := ParseMember(s, f);
    if member.None? then None
    else
      var next := Expect(member.value.rest, ',');
      var end := Expect(member.value.rest, '}');
      if next.Some? then ParseMembers(next.value, member.value.fields)
      else if end.Some? then Some(FieldsRead(member.value.fields, end.value))
      else None
  }

  /** Parse a whole chart object; a missing title or image and trailing characters are errors. */
  function Parse(s: string): Option<Chart> {
    var open := Expect(s, '{');
    if open.None? then None
    else
      var read := ParseMembers(open.value, NO_FIELDS);
      if read.None? || SkipSpace(read.value.rest) != "" then None
      else
        var f := read.value.fields;
        if f.title.None? || f.png.None? then None
        else Some(Chart(f.title.value, f.png.value, if f.openui.Some? then f.openui.value else None))
  }

  function StripPrefix(s: string): Option<string> {
    if |s| >= |PREFIX| && s[..|PREFIX|] == PREFIX then Some(s[|PREFIX|..]) else None
  }

  /** `decode`: size cap, prefix, object, base64, and the same checks as encoding. */
  function Decode(content: string): Option<(string, seq<Byte>)> {
    if Utf8Len(content) > DECODE_CAP then None
    else
      var body := StripPrefix(content);
      if body.None? then None
      else
        var chart := Parse(body.value);
        if chart.None? then None
        else
          var bytes := Base64.Decode(chart.value.png);
          if bytes.None? then None
          else if EncodeOpenui(chart.value.title, bytes.value, chart.value.openui).Err? then None
          else Some((chart.value.title, bytes.value))
  }

  lemma KeyParses(key: string, after: string, f: Fields)
    ensures ParseMember(Quoted(key) + ([':'] + after), f) == ParseValue(after, key, f)
  {
    var tail := [':'] + after;
    QuotedParses(key, tail);
    assert tail[1..] == after;
    assert SkipSpace(Quoted(key) + tail) == Quoted(key) + tail && SkipSpace(tail) == tail;
  }

  lemma ValueParses(key: string, value: string, f: Fields, rest: string)
    requires Fresh(key, f)
    ensures ParseValue(Quoted(value) + rest, key, f) == Some(FieldsRead(WithField(f, key, value), rest))
  {
    QuotedParses(value, rest);
    assert SkipSpace(Quoted(value) + rest) == Quoted(value) + rest;
  }

  /** The key, colon and value of a printed member read back, whatever follows. */
  lemma MemberParses(key: string, value: string, f: Fields, rest: string)
    requires Fresh(key, f)
    ensures ParseMember(Member(key, value) + rest, f) == Some(FieldsRead(WithField(f, key, value), rest))
  {
    assert Member(key, value) + rest == Quoted(key) + ([':'] + (Quoted(value) + rest));
    KeyParses(key, Quoted(value) + rest, f);
    ValueParses(key, value, f, rest);
  }

  /** A known key not read before. */
  predicate Fresh(key: string, f: Fields) {
    || (key == "title" && f.title.None?)
    || (key == "png" && f.png.None?)
    || (key == "openui" && f.openui.None?)
  }

  function WithField(f: Fields, key: string, value: string): Fields {
    if key == "title" then f.(title := Some(value))
    else if key == "png" then f.(png := Some(value))
    else f.(openui := Some(Some(value)))
  }

  lemma MembersStep(s: string, f: Fields, g: Fields, rest: string)
    requires ParseMember(s, f) == Some(FieldsRead(g, [','] + rest))
    ensures ParseMembers(s, f) == ParseMembers(rest, g)
  {
    var next := [','] + rest;
    assert SkipSpace(next) == next && next[1..] == rest;
  }

  lemma MembersEnd(s: string, f: Fields, g: Fields)
    requires ParseMember(s, f) == Some(FieldsRead(g, "}"))
    ensures ParseMembers(s, f) == Some(FieldsRead(g, ""))
  {
    assert SkipSpace("}") == "}" && "}"[1..] == "";
  }

  /** What follows the png member. */
  function Ending(openui: Option<string>): string {
    if openui.Some? then [','] + (Member("openui", openui.value) + "}") else "}"
  }

  lemma EndingParses(s: string, f: Fields, g: Fields, openui: Option<string>)
    requires ParseMember(s, f) == Some(FieldsRead(g, Ending(openui))) && g.openui.None?
    ensures ParseMembers(s, f) == Some(FieldsRead(g.(openui := if openui.Some? then Some(openui) else None), ""))
  {
    if openui.None? {
      MembersEnd(s, f, g);
    } else {
      var last := Member("openui", openui.value) + "}";
      MembersStep(s, f, g, last);
      MemberParses("openui", openui.value, g, "}");
      MembersEnd(last, g, WithField(g, "openui", openui.value));
    }
  }

  lemma MembersParse(c: Chart)
    ensures ParseMembers(Member("title", c.title) + ([','] + (Member("png", c.png) + Ending(c.openui))), NO_FIELDS)
         == Some(FieldsRead(Fields(Some(c.title), Some(c.png), if c.openui.Some? then Some(c.openui) else None), ""))
  {
    var second := Member("png", c.png) + Ending(c.openui);
    var titled := NO_FIELDS.(title := Some(c.title));
    MemberParses("title", c.title, NO_FIELDS, [','] + second);
    MembersStep(Member("title", c.title) + ([','] + second), NO_FIELDS, titled, second);
    MemberParses("png", c.png, titled, Ending(c.openui));
    EndingParses(second, titled, titled.(png := Some(c.png)), c.openui);
  }

  lemma PrintShape(c: Chart)
    ensures Print(c) == ['{'] + (Member("title", c.title) + ([','] + (Member("png", c.png) + Ending(c.openui))))
  {
    var tail := if c.openui.Some? then [','] + Member("openui", c.openui.value) else "";
    assert tail + ['}'] == Ending(c.openui);
    Regroup(['{'], Member("title", c.title), [','], Member("png", c.png), tail, ['}']);
  }

  lemma Regroup(a: string, b: string, c: string, d: string, e: string, f: string)
    ensures a + b + c + d + e + f == a + (b + (c + (d + (e + f))))
  {
  }

  /** Printing then parsing gives the chart back, whatever its texts. */
  lemma ParsePrint(c: Chart)
    ensures Parse(Print(c)) == Some(c)
  {
    PrintShape(c);
    MembersParse(c);
    assert SkipSpace(Print(c)) == Print(c);
    assert Print(c)[1..] == Member("title", c.title) + ([','] + (Member("png", c.png) + Ending(c.openui)));
  }

  lemma QuotedLength(s: string)
    ensures Utf8Len(Quoted(s)) == Utf8Len(Escape(s)) + 2
  {
    Utf8Append([QUOTE] + Escape(s), [QUOTE]);
    Utf8Append([QUOTE], Escape(s));
    Utf8One(QUOTE);
  }

  lemma MemberLength(key: string, value: string)
    requires Verbatim(key)
    ensures Utf8Len(Member(key, value)) == |key| + 5 + Utf8Len(Escape(value))
  {
    Utf8Append(Quoted(key) + [':'], Quoted(value));
    Utf8Append(Quoted(key), [':']);
    QuotedLength(key);
    QuotedLength(value);
    VerbatimText(key);
    Utf8One(':');
  }

  lemma Framed(a: char, s: string)
    requires a as int < 0x80
    ensures Utf8Len([a] + s) == 1 + Utf8Len(s)
  {
    Utf8Append([a], s);
    Utf8One(a);
  }

  lemma EndingLength(openui: Option<string>)
    requires OpenuiOK(openui)
    ensures Utf8Len(Ending(openui)) <= 13 + 2 * MAX_OPENUI_BYTES
  {
    Utf8One('}');
    if openui.Some? {
      Framed(',', Member("openui", openui.value) + "}");
      Utf8Append(Member("openui", openui.value), "}");
      MemberLength("openui", openui.value);
      EscapeDoubles(openui.value);
    }
  }

  /** The exact size of an envelope, up to its ending. */
  lemma PrintLength(c: Chart)
    ensures Utf8Len(Print(c)) == 20 + Utf8Len(Escape(c.title)) + Utf8Len(Escape(c.png)) + Utf8Len(Ending(c.openui))
  {
    PrintShape(c);
    var second := Member("png", c.png) + Ending(c.openui);
    Framed('{', Member("title", c.title) + ([','] + second));
    Utf8Append(Member("title", c.title), [','] + second);
    Framed(',', second);
    Utf8Append(Member("png", c.png), Ending(c.openui));
    MemberLength("title", c.title);
    MemberLength("png", c.png);
  }

  lemma TitleLength(title: string)
    requires TitleOK(title)
    ensures Utf8Len(Escape(title)) <= 800
  {
    EscapeQuadruples(title);
  }

  lemma VerbatimWithin(s: string, n: nat)
    requires Verbatim(s) && |s| <= n
    ensures Utf8Len(Escape(s)) <= n
  {
    VerbatimText(s);
  }

  lemma PngLength(png: seq<Byte>)
    requires |png| <= MAX_PNG_BYTES
    ensures Utf8Len(Escape(Base64.Encode(png))) <= 349528
  {
    Base64.EncodedIsPlain(png);
    Base64.EncodedLength(png);
    VerbatimWithin(Base64.Encode(png), 349528);
  }

  /** Everything that encodes is within the reader's cap. */
  lemma EncodedFits(title: string, png: seq<Byte>, openui: Option<string>)
    requires EncodeOpenui(title, png, openui).Ok?
    ensures Utf8Len(EncodeOpenui(title, png, openui).value) <= 481450 <= DECODE_CAP
  {
    var c := Chart(title, Base64.Encode(png), openui);
    Utf8Append(PREFIX, Print(c));
    PrintLength(c);
    TitleLength(title);
    PngLength(png);
    EndingLength(openui);
    PrefixLength(PREFIX);
  }

  lemma PrefixLength(prefix: string)
    requires prefix == PREFIX
    ensures Utf8Len(prefix) == 17
  {
    AsciiLength(prefix);
  }

  lemma PrefixStrips(body: string)
    ensures StripPrefix(PREFIX + body) == Some(body)
  {
    assert (PREFIX + body)[..|PREFIX|] == PREFIX && (PREFIX + body)[|PREFIX|..] == body;
  }

  /** Every chart that encodes decodes to the same title and image. */
  lemma RoundTrip(title: string, png: seq<Byte>, openui: Option<string>)
    requires EncodeOpenui(title, png, openui).Ok?
    ensures Decode(EncodeOpenui(title, png, openui).value) == Some((title, png))
  {
    var c := Chart(title, Base64.Encode(png), openui);
    EncodedFits(title, png, openui);
    ParsePrint(c);
    Base64.RoundTrip(png);
    PrefixStrips(Print(c));
  }

  /**
   * Whatever decodes, from anyone and however it was written, is a title and an image the encoder
   * takes, and encoding them anew is read as the same.
   */
  lemma DecodedReencodes(content: string)
    ensures Decode(content).Some? ==>
              var (title, png) := Decode(content).value;
              exists openui: Option<string> ::
                && EncodeOpenui(title, png, openui).Ok?
                && Decode(EncodeOpenui(title, png, openui).value) == Some((title, png))
  {
    if Decode(content).Some? {
      var chart := Parse(StripPrefix(content).value).value;
      var (title, png) := Decode(content).value;
      RoundTrip(title, png, chart.openui);
    }
  }

  function TrimPadding(s: string): string {
    if s != "" && s[|s| - 1] == '=' then TrimPadding(s[..|s| - 1]) else s
  }

  const CIPHER_PREFIX: string := "cow1:"

  /** The blob `encrypt` returns for a nonce, ciphertext and tag. */
  function Blob(raw: seq<Byte>): string {
    CIPHER_PREFIX + TrimPadding(Base64.Encode(raw))
  }

  lemma {:induction false} TrimStops(s: string, n: nat)
    requires n <= |s| && Base64.Padded(s, n)
    ensures TrimPadding(s) == s[..n]
  {
    if n < |s| {
      assert s[|s| - 1] == '=';
      TrimStops(s[..|s| - 1], n);
      assert s[..|s| - 1][..n] == s[..n];
    } else if s != "" {
      assert s[|s| - 1] != '=';
    }
  }

  lemma VerbatimPrefix(s: string, n: nat)
    requires Verbatim(s) && n <= |s|
    ensures Utf8Len(s[..n]) == n
  {
    AsciiLength(s[..n]);
  }

  lemma CipherPrefixLength(prefix: string)
    requires prefix == CIPHER_PREFIX
    ensures Utf8Len(prefix) == 5
  {
    AsciiLength(prefix);
  }

  lemma BlobLength(raw: seq<Byte>)
    ensures Utf8Len(Blob(raw)) == 5 + Base64.UnpaddedLength(|raw|)
  {
    var s, n := Base64.Encode(raw), Base64.UnpaddedLength(|raw|);
    Base64.UnpaddedDrops(raw);
    Base64.EncodedIsPlain(raw);
    TrimStops(s, n);
    VerbatimPrefix(s, n);
    Utf8Append(CIPHER_PREFIX, s[..n]);
    CipherPrefixLength(CIPHER_PREFIX);
  }

  /** Every encodable chart still fits the server's cap once encrypted: a 12-byte nonce and a 16-byte tag are added. */
  lemma EncryptedFits(title: string, png: seq<Byte>, openui: Option<string>, raw: seq<Byte>)
    requires EncodeOpenui(title, png, openui).Ok?
    requires |raw| == 12 + Utf8Len(EncodeOpenui(title, png, openui).value) + 16
    ensures Utf8Len(Blob(raw)) <= SERVER_CAP
  {
    EncodedFits(title, png, openui);
    BlobLength(raw);
  }
}
