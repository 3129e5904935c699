/**
 * Python's `html.escape(s)` (with its default `quote=True`): the five characters
 * that are unsafe in HTML text or attribute values are replaced by entities.
 */
module HtmlEscape {
  import opened Text

  /** The characters `html.escape` replaces. */
  predicate IsUnsafe(c: char) {
    c == '&' || c == '<' || c == '>' || c == '"' || c == '\''
  }

  /** The replacement for one character. */
  function EscapeChar(c: char): (r: string)
    ensures IsUnsafe(c) ==> |r| >= 4 && r[0] == '&' && r[|r| - 1] == ';'
    ensures !IsUnsafe(c) ==> r == [c]
  {
    match c
    case '&' => "&amp;"
    case '<' => "&lt;"
    case '>' => "&gt;"
    case '"' => "&quot;"
    case '\'' => "&#x27;"
    case _ => [c]
  }

  /** `html.escape(s)`. */
  function Escape(s: string): string
  {
    if s == [] then "" else EscapeChar(s[0]) + Escape(s[1..])
  }

  /** Reads the entities `Escape` writes back as the characters they stand for. */
  function Unescape(s: string): string
  {
    if s == [] then ""
    else if StartsWith(s, "&amp;") then "&" + Unescape(s[5..])
    else if StartsWith(s, "&lt;") then "<" + Unescape(s[4..])
    else if StartsWith(s, "&gt;") then ">" + Unescape(s[4..])
    else if StartsWith(s, "&quot;") then "\"" + Unescape(s[6..])
    else if StartsWith(s, "&#x27;") then "'" + Unescape(s[6..])
    else [s[0]] + Unescape(s[1..])
  }

  /** Escaping loses nothing: the text can be recovered from its escaped form. */
  lemma {:induction false} UnescapeEscape(s: string)
    ensures Unescape(Escape(s)) == s
  {
    if s != [] {
      UnescapeEscape(s[1..]);
      UnescapeEscapeChar(s[0], Escape(s[1..]));
      assert s == [s[0]] + s[1..];
    }
  }

  /** The entity for one character is read back as that character, whatever follows it. */
  lemma UnescapeEscapeChar(c: char, rest: string)
    ensures Unescape(EscapeChar(c) + rest) == [c] + Unescape(rest)
  {
    var e := EscapeChar(c);
    var t := e + rest;
    assert t[..|e|] == e;
    assert t[|e|..] == rest;
    if !IsUnsafe(c) {
      assert t[0] == c;
      assert !StartsWith(t, "&amp;") && !StartsWith(t, "&lt;") && !StartsWith(t, "&gt;");
      assert !StartsWith(t, "&quot;") && !StartsWith(t, "&#x27;");
    } else if c == '<' {
      assert !StartsWith(t, "&amp;") by { assert t[1] == 'l'; }
    } else if c == '>' {
      assert !StartsWith(t, "&amp;") by { assert t[1] == 'g'; }
      assert !StartsWith(t, "&lt;") by { assert t[1] == 'g'; }
    } else if c == '"' {
      assert !StartsWith(t, "&amp;") by { assert t[1] == 'q'; }
      assert !StartsWith(t, "&lt;") by { assert t[1] == 'q'; }
      assert !StartsWith(t, "&gt;") by { assert t[1] == 'q'; }
    } else if c == '\'' {
      assert !StartsWith(t, "&amp;") by { assert t[1] == '#'; }
      assert !StartsWith(t, "&lt;") by { assert t[1] == '#'; }
      assert !StartsWith(t, "&gt;") by { assert t[1] == '#'; }
      assert !StartsWith(t, "&quot;") by { assert t[1] == '#'; }
    }
  }

  /** Two texts with the same escaped form are the same text. */
  lemma EscapeInjective(a: string, b: string)
    requires Escape(a) == Escape(b)
    ensures a == b
  {
    UnescapeEscape(a);
    UnescapeEscape(b);
  }

  /** No raw `<`, `>`, `"` or `'` occurs in `s`. */
  predicate NoMarkupChars(s: string) {
    forall i :: 0 <= i < |s| ==> s[i] != '<' && s[i] != '>' && s[i] != '"' && s[i] != '\''
  }

  /** Escaped text contains no raw `<`, `>`, `"` or `'`. */
  lemma {:induction false} EscapeHasNoMarkup(s: string)
    ensures NoMarkupChars(Escape(s))
  {
    if s != [] {
      EscapeHasNoMarkup(s[1..]);
      var e := EscapeChar(s[0]);
      assert Escape(s) == e + Escape(s[1..]);
    }
  }

  /** Escaping leaves a text unchanged exactly when it holds none of the five unsafe characters. */
  lemma {:induction false} EscapeIdentity(s: string)
    ensures Escape(s) == s <==> forall i :: 0 <= i < |s| ==> !IsUnsafe(s[i])
  {
    if s != [] {
      EscapeIdentity(s[1..]);
      EscapeLength(s[1..]);
      var e := EscapeChar(s[0]);
      assert Escape(s) == e + Escape(s[1..]);
      if IsUnsafe(s[0]) {
        assert Escape(s)[0] == '&';
        if s[0] == '&' {
          assert |Escape(s)| > |s|;
        }
      } else {
        assert s == [s[0]] + s[1..];
        if Escape(s) == s {
          assert Escape(s[1..]) == Escape(s)[1..];
        }
      }
    }
  }

  /** Escaping never shortens a text. */
  lemma {:induction false} EscapeLength(s: string)
    ensures |Escape(s)| >= |s|
    ensures |Escape(s)| == |s| ==> forall i :: 0 <= i < |s| ==> !IsUnsafe(s[i])
  {
    if s != [] {
      EscapeLength(s[1..]);
    }
  }

  /** Escaping works character by character, so it distributes over concatenation. */
  lemma {:induction false} EscapeAppend(a: string, b: string)
    ensures Escape(a + b) == Escape(a) + Escape(b)
  {
    if a != [] {
      assert (a + b)[1..] == a[1..] + b;
      EscapeAppend(a[1..], b);
    } else {
      assert a + b == b;
    }
  }

  /** Escaping adds no line break. */
  lemma {:induction false} EscapeNoLineBreak(s: string)
    requires NoLineBreak(s)
    ensures NoLineBreak(Escape(s))
  {
    if s != [] {
      EscapeNoLineBreak(s[1..]);
      assert Escape(s) == EscapeChar(s[0]) + Escape(s[1..]);
    }
  }
}
