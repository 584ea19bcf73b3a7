/** Splitting a text for Telegram: greedy, within a UTF-16 bound, and with the fewest pieces. */
module Chunks {
  import opened Prelude
  import opened Text

  const LIMIT: nat := 4000

  predicate Within(parts: seq<string>) {
    forall i :: 0 <= i < |parts| ==> Utf16Len(parts[i]) <= LIMIT
  }

  predicate NoneEmpty(parts: seq<string>) {
    forall i :: 0 <= i < |parts| ==> parts[i] != ""
  }

  /** No piece could have taken the first character of the next one. */
  predicate Packed(parts: seq<string>)
    requires NoneEmpty(parts)
  {
    forall i :: 0 <= i < |parts| - 1 ==> Utf16Len(parts[i]) + Utf16Width(parts[i + 1][0]) > LIMIT
  }

  lemma Utf16Post(s: string, c: char)
    ensures Utf16Len(s + [c]) == Utf16Len(s) + Utf16Width(c)
  {
    Utf16Append(s, [c]);
    assert [c][1..] == "";
  }

  lemma FlattenPost(parts: seq<string>, part: string)
    ensures Flatten(parts + [part]) == Flatten(parts) + part
  {
    FlattenAppend(parts, [part]);
    assert [part][1..] == [];
    assert part + [] == part;
  }

  /** No split of the text within the bound has fewer pieces. */
  ghost predicate FewestFor(text: string, parts: seq<string>) {
    forall other: seq<string> :: Flatten(other) == text && Within(other) ==> |parts| <= |other|
  }

  /** The pieces so far, with the one being filled. */
  ghost predicate Filling(parts: seq<string>, part: string, units: nat, done: string) {
    && Within(parts) && NoneEmpty(parts) && Packed(parts)
    && units == Utf16Len(part) <= LIMIT
    && (part == "" ==> done == "")
    && (part != "" && parts != [] ==> Utf16Len(parts[|parts| - 1]) + Utf16Width(part[0]) > LIMIT)
    && Flatten(parts) + part == done
  }

  lemma FillingPush(parts: seq<string>, part: string, units: nat, done: string, c: char)
    requires Filling(parts, part, units, done) && units + Utf16Width(c) <= LIMIT
    ensures Filling(parts, part + [c], units + Utf16Width(c), done + [c])
  {
    Utf16Post(part, c);
  }

  lemma FillingCut(parts: seq<string>, part: string, units: nat, done: string, c: char)
    requires Filling(parts, part, units, done) && units + Utf16Width(c) > LIMIT
    ensures Filling(parts + [part], "" + [c], 0 + Utf16Width(c), done + [c])
  {
    FlattenPost(parts, part);
    Utf16Post("", c);
  }

  lemma FillingDone(parts: seq<string>, part: string, units: nat, text: string)
    requires Filling(parts, part, units, text)
    ensures var all := if part != "" then parts + [part] else parts;
            Flatten(all) == text && NoneEmpty(all) && Within(all) && FewestFor(text, all)
  {
    if part != "" {
      FlattenPost(parts, part);
      PackedIsFewest(parts + [part], text);
    } else {
      PackedIsFewest(parts, text);
    }
  }

  lemma TakeOne(text: string, i: nat)
    requires i < |text|
    ensures text[..i + 1] == text[..i] + [text[i]]
  {
  }

  /** `chunks`: the pieces rebuild the text, fit the bound, and no split within it has fewer. */
  method Split(text: string) returns (parts: seq<string>)
    ensures Flatten(parts) == text
    ensures NoneEmpty(parts) && Within(parts)
    ensures FewestFor(text, parts)
  {
    parts := [];
    var part := "";
    var units: nat := 0;
    ghost var done := "";
    var i := 0;
    while i < |text|
      invariant 0 <= i <= |text|
      invariant done == text[..i] && Filling(parts, part, units, done)
    {
      var c := text[i];
      TakeOne(text, i);
      if units + Utf16Width(c) > LIMIT {
        FillingCut(parts, part, units, done, c);
        parts := parts + [part];
        part := "";
        units := 0;
      } else {
        FillingPush(parts, part, units, done, c);
      }
      part := part + [c];
      units := units + Utf16Width(c);
      done := done + [c];
      i := i + 1;
    }
    assert text[..i] == text;
    FillingDone(parts, part, units, text);
    if part != "" {
      parts := parts + [part];
    }
  }

  lemma PackedIsFewest(parts: seq<string>, text: string)
    requires NoneEmpty(parts) && Packed(parts) && Flatten(parts) == text
    ensures FewestFor(text, parts)
  {
    forall other: seq<string> | Flatten(other) == text && Within(other)
      ensures |parts| <= |other|
    {
      assert [] + Flatten(parts) == Flatten(parts);
      Fewest(parts, other, []);
    }
  }

  /** Packed pieces are the fewest, even against a split that first has more text to cover. */
  lemma {:induction false} Fewest(parts: seq<string>, other: seq<string>, lead: string)
    requires NoneEmpty(parts) && Packed(parts) && Within(other)
    requires Flatten(other) == lead + Flatten(parts)
    ensures |parts| <= |other|
    decreases |parts|
  {
    if |parts| > 1 && other != [] {
      var ahead := lead + parts[0];
      var rest := Flatten(parts[1..]);
      assert Flatten(other) == ahead + rest;
      FirstIsShort(parts, other, lead);
      var left := ahead[|other[0]|..];
      assert Flatten(other[1..]) == Flatten(other)[|other[0]|..];
      assert (ahead + rest)[|other[0]|..] == left + rest;
      assert forall i :: 0 <= i < |parts| - 1 ==> parts[1..][i] == parts[i + 1];
      Fewest(parts[1..], other[1..], left);
    } else if parts != [] {
      assert |Flatten(parts)| >= |parts[0]|;
    }
  }

  /** The other split's first piece cannot reach past the packed one. */
  lemma FirstIsShort(parts: seq<string>, other: seq<string>, lead: string)
    requires NoneEmpty(parts) && Packed(parts) && Within(other) && |parts| > 1 && other != []
    requires Flatten(other) == lead + Flatten(parts)
    ensures |other[0]| <= |lead + parts[0]|
  {
    var c := parts[1][0];
    var rest := Flatten(parts[1..]);
    assert rest[0] == c;
    assert Utf16Len(parts[0]) + Utf16Width(parts[0 + 1][0]) > LIMIT;
    if |other[0]| > |lead + parts[0]| {
      assert other[0] == (lead + (parts[0] + [c])) + other[0][|lead + parts[0]| + 1..] by {
        assert other[0] == Flatten(other)[..|other[0]|];
        assert Flatten(other) == lead + parts[0] + rest;
      }
      Covers(lead, parts[0], c, other[0][|lead + parts[0]| + 1..]);
    }
  }

  lemma Covers(lead: string, part: string, c: char, tail: string)
    ensures Utf16Len((lead + (part + [c])) + tail) >= Utf16Len(part) + Utf16Width(c)
  {
    Utf16Append(lead + (part + [c]), tail);
    Utf16Append(lead, part + [c]);
    Utf16Post(part, c);
  }
}
