/** Escaping the three markup characters of a notification, one whole-string pass per character. */
module PangoEscaping {

  const PANGO_ESCAPES: seq<(char, string)> := [('&', "&amp;"), ('<', "&lt;"), ('>', "&gt;")]

  /** Python's `text.replace(raw, escaped)` for a one-character `raw`. */
  function Replace(text: string, raw: char, escaped: string): string {
    if text == "" then ""
    else (if text[0] == raw then escaped else [text[0]]) + Replace(text[1..], raw, escaped)
  }

  /** One character, escaped by the first `passes` entries of the table. */
  function EscapeChar(ch: char, passes: nat): string {
    if ch == '&' && passes >= 1 then "&amp;"
    else if ch == '<' && passes >= 2 then "&lt;"
    else if ch == '>' && passes >= 3 then "&gt;"
    else [ch]
  }

  /** The reference form: every character escaped on its own, in one left-to-right pass. */
  function Simultaneous(text: string, passes: nat := 3): string {
    if text == "" then "" else EscapeChar(text[0], passes) + Simultaneous(text[1..], passes)
  }

  lemma {:induction false} ReplaceConcat(a: string, b: string, raw: char, escaped: string)
    ensures Replace(a + b, raw, escaped) == Replace(a, raw, escaped) + Replace(b, raw, escaped)
  {
    if a == "" {
      assert a + b == b;
    } else {
      assert (a + b)[0] == a[0] && (a + b)[1..] == a[1..] + b;
      ReplaceConcat(a[1..], b, raw, escaped);
    }
  }

  lemma {:induction false} ReplaceAbsent(text: string, raw: char, escaped: string)
    requires raw !in text
    ensures Replace(text, raw, escaped) == text
  {
    if text != "" {
      ReplaceAbsent(text[1..], raw, escaped);
    }
  }

  lemma ReplaceOne(ch: char, passes: nat)
    requires passes < 3
    ensures var (raw, escaped) := PANGO_ESCAPES[passes];
            Replace(EscapeChar(ch, passes), raw, escaped) == EscapeChar(ch, passes + 1)
  {
    var (raw, escaped) := PANGO_ESCAPES[passes];
    if raw !in EscapeChar(ch, passes) {
      ReplaceAbsent(EscapeChar(ch, passes), raw, escaped);
    } else {
      assert EscapeChar(ch, passes) == [raw];
      assert [raw][1..] == "";
    }
  }

  /** A sequential pass over an already escaped string does the work of the next table entry and no more. */
  lemma {:induction false} OnePass(text: string, passes: nat)
    requires passes < 3
    ensures var (raw, escaped) := PANGO_ESCAPES[passes];
            Replace(Simultaneous(text, passes), raw, escaped) == Simultaneous(text, passes + 1)
  {
    var (raw, escaped) := PANGO_ESCAPES[passes];
    if text != "" {
      ReplaceOne(text[0], passes);
      OnePass(text[1..], passes);
      ReplaceConcat(EscapeChar(text[0], passes), Simultaneous(text[1..], passes), raw, escaped);
    }
  }

  lemma {:induction false} NoPassIsIdentity(text: string)
    ensures Simultaneous(text, 0) == text
  {
    if text != "" {
      NoPassIsIdentity(text[1..]);
    }
  }

  /** The three sequential whole-string replacements equal one simultaneous per-character escape. */
  method PangoEscape(input: string) returns (text: string)
    ensures text == Simultaneous(input)
  {
    text := input;
    NoPassIsIdentity(input);
    for i := 0 to |PANGO_ESCAPES|
      invariant text == Simultaneous(input, i)
    {
      OnePass(input, i);
      text := Replace(text, PANGO_ESCAPES[i].0, PANGO_ESCAPES[i].1);
    }
  }

  predicate StartsWith(s: string, prefix: string) {
    |prefix| <= |s| && s[..|prefix|] == prefix
  }

  /** Reads the three entities back. */
  function Unescape(s: string): string {
    if s == "" then ""
    else if StartsWith(s, "&amp;") then ['&'] + Unescape(s[5..])
    else if StartsWith(s, "&lt;") then ['<'] + Unescape(s[4..])
    else if StartsWith(s, "&gt;") then ['>'] + Unescape(s[4..])
    else [s[0]] + Unescape(s[1..])
  }

  /** Escaping loses nothing: a reader of the entities gets the text back. */
  lemma {:induction false} UnescapeUndoes(text: string)
    ensures Unescape(Simultaneous(text)) == text
  {
    if text != "" {
      var head, rest := EscapeChar(text[0], 3), Simultaneous(text[1..]);
      var s := head + rest;
      assert s[..|head|] == head && s[|head|..] == rest;
      assert |s| >= 4 ==> s[..4][0] == s[0] && s[..4][1] == s[1];
      assert |s| >= 5 ==> s[..5][0] == s[0] && s[..5][1] == s[1];
      assert s[0] == head[0] && (|head| > 1 ==> s[1] == head[1]);
      UnescapeUndoes(text[1..]);
    }
  }

  lemma EscapeInjective(a: string, b: string)
    requires Simultaneous(a) == Simultaneous(b)
    ensures a == b
  {
    UnescapeUndoes(a);
    UnescapeUndoes(b);
  }

  /** An `&` at position i opens one of the three entities. */
  predicate OpensEntity(s: string, i: nat)
    requires i < |s|
  {
    StartsWith(s[i..], "&amp;") || StartsWith(s[i..], "&lt;") || StartsWith(s[i..], "&gt;")
  }

  /** No raw markup character is left: `<` and `>` are gone and every `&` opens an entity. */
  lemma {:induction false} NoRawMarkup(text: string)
    ensures var s := Simultaneous(text);
            && '<' !in s && '>' !in s
            && forall i | 0 <= i < |s| :: s[i] == '&' ==> OpensEntity(s, i)
  {
    if text != "" {
      var head, rest := EscapeChar(text[0], 3), Simultaneous(text[1..]);
      var s := head + rest;
      NoRawMarkup(text[1..]);
      forall i | 0 <= i < |s| && s[i] == '&' ensures OpensEntity(s, i) {
        if i < |head| {
          assert i == 0;
          assert s[0..] == s && s[..|head|] == head;
        } else {
          assert s[i..] == rest[i - |head|..];
          assert OpensEntity(rest, i - |head|);
        }
      }
    }
  }

  /** The passes in the order `<`, `>`, `&`: the order the table's comment warns against. */
  function AmpersandLast(text: string): string {
    Replace(Replace(Replace(text, '<', "&lt;"), '>', "&gt;"), '&', "&amp;")
  }

  lemma AmpersandLastConcat(a: string, b: string)
    ensures AmpersandLast(a + b) == AmpersandLast(a) + AmpersandLast(b)
  {
    var a1, b1 := Replace(a, '<', "&lt;"), Replace(b, '<', "&lt;");
    ReplaceConcat(a, b, '<', "&lt;");
    ReplaceConcat(a1, b1, '>', "&gt;");
    ReplaceConcat(Replace(a1, '>', "&gt;"), Replace(b1, '>', "&gt;"), '&', "&amp;");
  }

  lemma ReplaceSingle(ch: char, raw: char, escaped: string)
    ensures Replace([ch], raw, escaped) == if ch == raw then escaped else [ch]
  {
  }

  lemma ReplaceEntityAmpersand(entity: string)
    requires entity != "" && entity[0] == '&' && '&' !in entity[1..]
    ensures Replace(entity, '&', "&amp;") == "&amp;" + entity[1..]
  {
    ReplaceAbsent(entity[1..], '&', "&amp;");
  }

  lemma AmpersandLastChar(ch: char)
    ensures AmpersandLast([ch])
         == if ch == '<' then "&amp;lt;" else if ch == '>' then "&amp;gt;" else EscapeChar(ch, 3)
  {
    ReplaceSingle(ch, '<', "&lt;");
    ReplaceSingle(ch, '>', "&gt;");
    ReplaceSingle(ch, '&', "&amp;");
    if ch == '<' {
      ReplaceAbsent("&lt;", '>', "&gt;");
      ReplaceEntityAmpersand("&lt;");
    } else if ch == '>' {
      ReplaceEntityAmpersand("&gt;");
    }
  }

  /** Why the table starts with `&`: any other order is right exactly on texts without `<` and `>`. */
  lemma {:induction false} OrderMatters(text: string)
    ensures |AmpersandLast(text)| >= |Simultaneous(text)|
    ensures AmpersandLast(text) == Simultaneous(text) <==> '<' !in text && '>' !in text
  {
    if text != "" {
      var ch, rest := text[0], text[1..];
      assert text == [ch] + rest;
      AmpersandLastConcat([ch], rest);
      AmpersandLastChar(ch);
      OrderMatters(rest);
      if ch != '<' && ch != '>' {
        var head := EscapeChar(ch, 3);
        assert (head + AmpersandLast(rest))[|head|..] == AmpersandLast(rest);
        assert (head + Simultaneous(rest))[|head|..] == Simultaneous(rest);
      }
    }
  }
}
