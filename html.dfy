/** `htmlspecialchars` with the flags PHP 7 uses by default (`ENT_COMPAT |
    ENT_HTML401`, `double_encode` on): `&`, `"`, `<` and `>` become entities,
    the single quote is left alone. */
module Html {

  /** The characters `htmlspecialchars` replaces under these flags. */
  predicate IsSpecial(c: char) {
    c == '&' || c == '"' || c == '<' || c == '>'
  }

  function EscapeChar(c: char): string {
    if c == '&' then "&amp;"
    else if c == '"' then "&quot;"
    else if c == '<' then "&lt;"
    else if c == '>' then "&gt;"
    else [c]
  }

  /** The escaped text holds no double quote and no angle bracket, so it can
      neither end an attribute value nor open or close a tag. */
  function HtmlSpecialChars(s: string): (r: string)
    ensures forall i :: 0 <= i < |r| ==> r[i] != '"' && r[i] != '<' && r[i] != '>'
    ensures |r| >= |s|
  {
    if s == [] then [] else EscapeChar(s[0]) + HtmlSpecialChars(s[1..])
  }

  /** The decoding a browser applies to the four entities `HtmlSpecialChars`
      produces; every other character stands for itself. */
  function Unescape(t: string): string
    decreases |t|
  {
    if t == [] then []
    else if "&amp;" <= t then "&" + Unescape(t[5..])
    else if "&quot;" <= t then "\"" + Unescape(t[6..])
    else if "&lt;" <= t then "<" + Unescape(t[4..])
    else if "&gt;" <= t then ">" + Unescape(t[4..])
    else [t[0]] + Unescape(t[1..])
  }

  lemma UnescapeEscapeChar(c: char, t: string)
    ensures Unescape(EscapeChar(c) + t) == [c] + Unescape(t)
  {
    var x := EscapeChar(c) + t;
    if c == '&' {
      assert "&amp;" <= x && x[5..] == t;
    } else if c == '"' {
      assert x[1] == 'q' && "&amp;"[1] == 'a';
      assert !("&amp;" <= x) && "&quot;" <= x && x[6..] == t;
    } else if c == '<' {
      assert x[1] == 'l' && "&amp;"[1] == 'a' && "&quot;"[1] == 'q';
      assert !("&amp;" <= x) && !("&quot;" <= x) && "&lt;" <= x && x[4..] == t;
    } else if c == '>' {
      assert x[1] == 'g' && "&amp;"[1] == 'a' && "&quot;"[1] == 'q' && "&lt;"[1] == 'l';
      assert !("&amp;" <= x) && !("&quot;" <= x) && !("&lt;" <= x) && "&gt;" <= x && x[4..] == t;
    } else {
      assert x[0] == c && x[1..] == t;
    }
  }

  /** Escaping loses nothing: decoding the entities gives the text back. */
  lemma {:induction false} UnescapeRoundTrip(s: string)
    ensures Unescape(HtmlSpecialChars(s)) == s
  {
    if s != [] {
      UnescapeEscapeChar(s[0], HtmlSpecialChars(s[1..]));
      UnescapeRoundTrip(s[1..]);
      assert [s[0]] + s[1..] == s;
    }
  }

  /** Text with none of the four special characters is left as it is. */
  lemma {:induction false} PlainTextUnchanged(s: string)
    requires forall i :: 0 <= i < |s| ==> !IsSpecial(s[i])
    ensures HtmlSpecialChars(s) == s
  {
    if s != [] {
      PlainTextUnchanged(s[1..]);
      assert [s[0]] + s[1..] == s;
    }
  }

  /** Escaping works character by character, so it distributes over
      concatenation. */
  lemma {:induction false} EscapeAppend(a: string, b: string)
    ensures HtmlSpecialChars(a + b) == HtmlSpecialChars(a) + HtmlSpecialChars(b)
  {
    if a == [] {
      assert a + b == b;
    } else {
      assert (a + b)[0] == a[0] && (a + b)[1..] == a[1..] + b;
      EscapeAppend(a[1..], b);
    }
  }

  lemma EscapeLessThan()
    ensures HtmlSpecialChars("<") == "&lt;"
  {
    assert "<"[1..] == [];
  }

  lemma EscapeGreaterThan()
    ensures HtmlSpecialChars(">") == "&gt;"
  {
    assert ">"[1..] == [];
  }

  /** A tag written out as text, such as `<script>`, escapes to its entity
      form and can no longer open an element. */
  lemma TagTextEscaped(name: string)
    requires forall i :: 0 <= i < |name| ==> !IsSpecial(name[i])
    ensures HtmlSpecialChars("<" + name + ">") == "&lt;" + name + "&gt;"
  {
    EscapeLessThan();
    EscapeGreaterThan();
    EscapeAppend("<", name);
    EscapeAppend("<" + name, ">");
    PlainTextUnchanged(name);
  }
}
