/**
 * The string operations of Python's `str` that the converter relies on:
 * `strip`, `lstrip`, `startswith`, `split(sep, 1)`, `join`, `splitlines`,
 * `replace(old, new, 1)` and zero-padded decimal formatting.
 */
module Text {

  /** Characters for which Python's `str.isspace()` holds; `strip()` removes exactly these. */
  predicate IsSpace(c: char) {
    ('\t' <= c <= '\r') || ('\U{1C}' <= c <= '\U{1F}') || c == ' '
    || c == '\U{85}' || c == '\U{A0}' || c == '\U{1680}'
    || ('\U{2000}' <= c <= '\U{200A}') || c == '\U{2028}' || c == '\U{2029}'
    || c == '\U{202F}' || c == '\U{205F}' || c == '\U{3000}'
  }

  /** Characters at which Python's `str.splitlines()` ends a line (`\r\n` counts once). */
  predicate IsLineBreak(c: char) {
    c == '\n' || c == '\r' || c == '\U{0B}' || c == '\U{0C}'
    || ('\U{1C}' <= c <= '\U{1E}') || c == '\U{85}' || c == '\U{2028}' || c == '\U{2029}'
  }

  predicate NoLineBreak(s: string) {
    forall i :: 0 <= i < |s| ==> !IsLineBreak(s[i])
  }

  predicate StartsWith(s: string, prefix: string) {
    |prefix| <= |s| && s[..|prefix|] == prefix
  }

  /** `s.lstrip()`: a suffix of `s`. */
  function LStrip(s: string): (r: string)
    ensures |r| <= |s| && r == s[|s| - |r|..]
  {
    if s != [] && IsSpace(s[0]) then LStrip(s[1..]) else s
  }

  /** `s.rstrip()`: a prefix of `s`. */
  function RStrip(s: string): (r: string)
    ensures |r| <= |s| && r == s[..|r|]
  {
    if s != [] && IsSpace(s[|s| - 1]) then RStrip(s[..|s| - 1]) else s
  }

  /** `s.strip()`. */
  function Strip(s: string): (r: string)
    ensures |r| <= |s|
  {
    RStrip(LStrip(s))
  }

  /** `lstrip()` drops the leading whitespace and nothing else. */
  lemma {:induction false} LStripShape(s: string)
    ensures var r := LStrip(s);
      (r == [] || !IsSpace(r[0])) && forall i :: 0 <= i < |s| - |r| ==> IsSpace(s[i])
  {
    if s != [] && IsSpace(s[0]) {
      var t := s[1..];
      LStripShape(t);
      assert LStrip(s) == LStrip(t);
      forall i | 1 <= i < |s| - |LStrip(s)| ensures IsSpace(s[i]) {
        assert s[i] == t[i - 1];
      }
    }
  }

  /** `rstrip()` drops the trailing whitespace and nothing else. */
  lemma {:induction false} RStripShape(s: string)
    ensures var r := RStrip(s);
      (r == [] || !IsSpace(r[|r| - 1])) && forall i :: |r| <= i < |s| ==> IsSpace(s[i])
  {
    if s != [] && IsSpace(s[|s| - 1]) {
      var t := s[..|s| - 1];
      RStripShape(t);
      assert RStrip(s) == RStrip(t);
      forall i | |RStrip(s)| <= i < |t| ensures IsSpace(s[i]) {
        assert s[i] == t[i];
      }
    }
  }

  /** `lstrip()` removes an indentation of blanks in front of a text that starts with no space. */
  lemma {:induction false} LStripIndent(indent: string, x: string)
    requires forall i :: 0 <= i < |indent| ==> indent[i] == ' '
    requires x == [] || !IsSpace(x[0])
    ensures LStrip(indent + x) == x
  {
    if indent == [] {
      assert indent + x == x;
    } else {
      assert (indent + x)[1..] == indent[1..] + x;
      LStripIndent(indent[1..], x);
    }
  }

  /**
   * `strip()` keeps the piece of `s` starting at offset `|s| - |LStrip(s)|`: everything
   * dropped on either side is whitespace, and the piece neither starts nor ends with any.
   */
  lemma StripShape(s: string)
    ensures var d := |s| - |LStrip(s)|; var r := Strip(s);
      && d + |r| <= |s| && r == s[d..d + |r|]
      && (forall k :: 0 <= k < d ==> IsSpace(s[k]))
      && (forall k :: d + |r| <= k < |s| ==> IsSpace(s[k]))
      && (r == [] || (!IsSpace(r[0]) && !IsSpace(r[|r| - 1])))
  {
    LStripShape(s);
    StripSlice(s);
    StripTrailing(s);
    StripEnds(s);
  }

  lemma StripSlice(s: string)
    ensures var d := |s| - |LStrip(s)|; var r := Strip(s);
      d + |r| <= |s| && r == s[d..d + |r|]
  {
    var l := LStrip(s);
    var r := RStrip(l);
    var d := |s| - |l|;
    assert l == s[d..];
    assert r == l[..|r|];
  }

  lemma StripTrailing(s: string)
    ensures var d := |s| - |LStrip(s)|; var r := Strip(s);
      forall k :: d + |r| <= k < |s| ==> IsSpace(s[k])
  {
    var l := LStrip(s);
    var r := RStrip(l);
    var d := |s| - |l|;
    RStripShape(l);
    assert l == s[d..];
    forall k | d + |r| <= k < |s| ensures IsSpace(s[k]) {
      assert s[k] == l[k - d];
    }
  }

  lemma StripEnds(s: string)
    ensures var r := Strip(s); r == [] || (!IsSpace(r[0]) && !IsSpace(r[|r| - 1]))
  {
    var l := LStrip(s);
    var r := RStrip(l);
    LStripShape(s);
    RStripShape(l);
    if r != [] {
      assert r[0] == l[0];
    }
  }

  /** Stripping an already stripped string changes nothing. */
  lemma StripIdempotent(s: string)
    ensures Strip(Strip(s)) == Strip(s)
  {
    var r := Strip(s);
    StripShape(s);
    if r != [] {
      assert LStrip(r) == r;
      assert RStrip(r) == r;
    }
  }

  /** A stripped piece of a string without line breaks has none either. */
  lemma StripNoLineBreak(s: string)
    requires NoLineBreak(s)
    ensures NoLineBreak(Strip(s))
  {
    StripSlice(s);
    var i := |s| - |LStrip(s)|;
    var r := Strip(s);
    forall k | 0 <= k < |r| ensures !IsLineBreak(r[k]) {
      assert r[k] == s[i + k];
    }
  }

  /** Index of the first occurrence of `c` in `s`, or `|s|` when there is none. */
  function IndexOf(s: string, c: char): (i: nat)
    ensures i <= |s| && (i < |s| <==> c in s)
    ensures i < |s| ==> s[i] == c
    ensures c !in s[..i]
  {
    if s == [] then 0
    else if s[0] == c then 0
    else
      var k := IndexOf(s[1..], c);
      assert s[..k + 1] == [s[0]] + s[1..][..k];
      1 + k
  }

  /** `s.split(c, 1)` for a string that contains `c`: the text before and after its first occurrence. */
  function SplitFirst(s: string, c: char): (r: (string, string))
    requires c in s
    ensures s == r.0 + [c] + r.1
    ensures c !in r.0
  {
    var i := IndexOf(s, c);
    assert s == s[..i] + [c] + s[i + 1..];
    (s[..i], s[i + 1..])
  }

  /** `sep.join(items)`. */
  function Join(items: seq<string>, sep: string): string
  {
    if items == [] then ""
    else if |items| == 1 then items[0]
    else items[0] + sep + Join(items[1..], sep)
  }

  /** `"\n".join(lines)`. */
  function JoinLines(lines: seq<string>): string
  {
    Join(lines, "\n")
  }

  /** Index of the first line-break character of `s`, or `|s|`. */
  function FirstBreak(s: string): (i: nat)
    ensures i <= |s|
    ensures i < |s| ==> IsLineBreak(s[i])
    ensures forall k :: 0 <= k < i ==> !IsLineBreak(s[k])
  {
    if s == [] || IsLineBreak(s[0]) then 0 else 1 + FirstBreak(s[1..])
  }

  /**
   * `s.splitlines()`: the lines between line breaks, without the breaks; `\r\n` is one
   * break, and a break at the very end does not start another (empty) line.
   */
  function SplitLines(s: string): (r: seq<string>)
    ensures forall k :: 0 <= k < |r| ==> NoLineBreak(r[k])
    decreases |s|
  {
    if s == [] then []
    else
      var i := FirstBreak(s);
      if i == |s| then [s]
      else
        var j := if s[i] == '\r' && i + 1 < |s| && s[i + 1] == '\n' then i + 2 else i + 1;
        [s[..i]] + SplitLines(s[j..])
  }

  /** `splitlines` undoes `"\n".join` for lines without breaks whose last line is not empty. */
  lemma {:induction false} SplitJoinLines(lines: seq<string>)
    requires forall k :: 0 <= k < |lines| ==> NoLineBreak(lines[k])
    requires lines == [] || lines[|lines| - 1] != ""
    ensures SplitLines(JoinLines(lines)) == lines
  {
    if lines == [] {
    } else if |lines| == 1 {
      var s := lines[0];
      assert FirstBreak(s) == |s| by { FirstBreakOfPlain(s, s); }
    } else {
      var x := lines[0];
      var rest := JoinLines(lines[1..]);
      var s := x + "\n" + rest;
      assert JoinLines(lines) == s;
      assert FirstBreak(s) == |x| by { FirstBreakOfPlain(x, s); }
      assert s[..|x|] == x;
      assert s[|x| + 1..] == rest;
      SplitJoinLines(lines[1..]);
    }
  }

  /** The first break of a string that starts with a break-free piece lies at or after that piece. */
  lemma {:induction false} FirstBreakOfPlain(x: string, s: string)
    requires NoLineBreak(x) && StartsWith(s, x)
    requires |s| == |x| || IsLineBreak(s[|x|])
    ensures FirstBreak(s) == |x|
  {
    if x != [] {
      assert s[1..][..|x| - 1] == x[1..];
      FirstBreakOfPlain(x[1..], s[1..]);
    }
  }

  /** `pattern` occurs in `s` at index `i`. */
  predicate OccursAt(s: string, pattern: string, i: nat) {
    i + |pattern| <= |s| && s[i..i + |pattern|] == pattern
  }

  /** Index of the first occurrence of `pattern` in `s` at or after `from`, or -1. */
  function FindFrom(s: string, pattern: string, from: nat): (i: int)
    requires from <= |s|
    ensures -1 <= i && (i >= 0 ==> from <= i && OccursAt(s, pattern, i))
    ensures forall k :: from <= k && (i == -1 || k < i) ==> !OccursAt(s, pattern, k)
    decreases |s| - from
  {
    if from + |pattern| > |s| then -1
    else if s[from..from + |pattern|] == pattern then from
    else if from == |s| then -1
    else FindFrom(s, pattern, from + 1)
  }

  /** `s.replace(pattern, replacement, 1)`. */
  function ReplaceFirst(s: string, pattern: string, replacement: string): (r: string)
    ensures FindFrom(s, pattern, 0) == -1 ==> r == s
    ensures FindFrom(s, pattern, 0) >= 0 ==>
      var i := FindFrom(s, pattern, 0);
      r == s[..i] + replacement + s[i + |pattern|..]
  {
    var i := FindFrom(s, pattern, 0);
    if i == -1 then s else s[..i] + replacement + s[i + |pattern|..]
  }

  /** Replacing the first occurrence of a pattern that starts the string drops that prefix. */
  lemma ReplaceLeadingPattern(pattern: string, rest: string, replacement: string)
    ensures ReplaceFirst(pattern + rest, pattern, replacement) == replacement + rest
  {
    var s := pattern + rest;
    assert OccursAt(s, pattern, 0);
    assert s[|pattern|..] == rest;
  }

  /** Replacing the first occurrence of a pattern that only occurs at the end of the string drops that suffix. */
  lemma ReplaceTrailingPattern(head: string, pattern: string, replacement: string)
    requires forall k :: 0 <= k < |head| ==> !OccursAt(head + pattern, pattern, k)
    ensures ReplaceFirst(head + pattern, pattern, replacement) == head + replacement
  {
    var s := head + pattern;
    assert OccursAt(s, pattern, |head|);
    assert FindFrom(s, pattern, 0) == |head|;
    assert s[..|head|] == head;
  }

  /** The decimal digit character for `d`. */
  function Digit(d: nat): char
    requires d < 10
  {
    "0123456789"[d]
  }

  predicate IsDigit(c: char) {
    '0' <= c <= '9'
  }

  predicate AllDigits(s: string) {
    forall i :: 0 <= i < |s| ==> IsDigit(s[i])
  }

  /** `str(n)` for a natural number. */
  function NatToString(n: nat): (r: string)
    ensures 1 <= |r| && AllDigits(r)
    ensures |r| == 1 <==> n < 10
  {
    if n < 10 then [Digit(n)] else NatToString(n / 10) + [Digit(n % 10)]
  }

  function Zeros(k: nat): (r: string)
    ensures |r| == k && forall i :: 0 <= i < k ==> r[i] == '0'
  {
    if k == 0 then "" else "0" + Zeros(k - 1)
  }

  /** `f"{n:0{width}d}"`: decimal with leading zeros up to `width` digits. */
  function Pad(n: nat, width: nat): (r: string)
  {
    var digits := NatToString(n);
    if |digits| >= width then digits else Zeros(width - |digits|) + digits
  }

  /** The value of a string of decimal digits. */
  function DigitsValue(s: string): nat
    requires AllDigits(s)
  {
    if s == [] then 0 else 10 * DigitsValue(s[..|s| - 1]) + (s[|s| - 1] as int - '0' as int)
  }

  function Pow10(k: nat): (r: nat)
    ensures r >= 1
  {
    if k == 0 then 1 else 10 * Pow10(k - 1)
  }

  /** The last `width` decimal digits of `n`. */
  function FixedDigits(n: nat, width: nat): (r: string)
    ensures |r| == width && AllDigits(r)
  {
    if width == 0 then "" else FixedDigits(n / 10, width - 1) + [Digit(n % 10)]
  }

  /** Reading back `width` fixed digits of a number below 10^width gives the number. */
  lemma {:induction false} DigitsValueFixed(n: nat, width: nat)
    requires n < Pow10(width)
    ensures DigitsValue(FixedDigits(n, width)) == n
  {
    if width > 0 {
      var s := FixedDigits(n, width);
      assert s[..|s| - 1] == FixedDigits(n / 10, width - 1);
      assert n / 10 < Pow10(width - 1);
      DigitsValueFixed(n / 10, width - 1);
    } else {
      assert n == 0;
    }
  }

  /** Writing out the value of a digit string with as many fixed digits gives the string back. */
  lemma {:induction false} FixedDigitsValue(s: string)
    requires AllDigits(s)
    ensures FixedDigits(DigitsValue(s), |s|) == s
  {
    if s != [] {
      var init := s[..|s| - 1];
      var d := s[|s| - 1] as int - '0' as int;
      var v := DigitsValue(s);
      assert v == 10 * DigitsValue(init) + d;
      assert v / 10 == DigitsValue(init) && v % 10 == d;
      FixedDigitsValue(init);
      assert "0123456789"[d] == s[|s| - 1];
      assert s == init + [s[|s| - 1]];
    }
  }

  /** `str(n)` is `n` written with exactly as many digits as it needs. */
  lemma {:induction false} NatToStringFixed(n: nat)
    ensures n < Pow10(|NatToString(n)|)
    ensures NatToString(n) == FixedDigits(n, |NatToString(n)|)
  {
    if n >= 10 {
      NatToStringFixed(n / 10);
    }
  }

  /** Zero padding in front of fixed digits of a small number is more fixed digits. */
  lemma {:induction false} ZerosFixedDigits(n: nat, width: nat, k: nat)
    requires n < Pow10(width)
    ensures Zeros(k) + FixedDigits(n, width) == FixedDigits(n, width + k)
  {
    if k > 0 {
      if width == 0 {
        assert n == 0;
        ZerosFixedDigits(0, 0, k - 1);
        assert FixedDigits(0, k) == FixedDigits(0, k - 1) + "0";
        ZerosAppend(k - 1);
      } else {
        ZerosFixedDigits(n / 10, width - 1, k);
        assert FixedDigits(n, width + k) == FixedDigits(n / 10, width - 1 + k) + [Digit(n % 10)];
      }
    }
  }

  lemma ZerosAppend(k: nat)
    ensures Zeros(k) + "0" == "0" + Zeros(k)
  {
    assert Zeros(k) + "0" == Zeros(k + 1);
  }

  /** For a number below 10^width, zero padding to `width` gives exactly `width` digits. */
  lemma PadIsFixedDigits(n: nat, width: nat)
    requires 1 <= width && n < Pow10(width)
    ensures Pad(n, width) == FixedDigits(n, width)
  {
    var digits := NatToString(n);
    NatToStringFixed(n);
    if |digits| >= width {
      PowMonotone(width, |digits|);
      FixedDigitsWidth(n, width, |digits|);
    } else {
      ZerosFixedDigits(n, |digits|, width - |digits|);
    }
  }

  lemma {:induction false} PowMonotone(a: nat, b: nat)
    requires a <= b
    ensures Pow10(a) <= Pow10(b)
  {
    if a < b {
      PowMonotone(a, b - 1);
    }
  }

  /** `str(n)` has no more digits than needed: for n < 10^width a longer rendering is impossible. */
  lemma {:induction false} FixedDigitsWidth(n: nat, width: nat, len: nat)
    requires 1 <= width <= len && n < Pow10(width) && NatToString(n) == FixedDigits(n, len)
    ensures width == len
  {
    if width < len {
      NatToStringLeading(n);
      LeadingDigitZero(n, width, len);
    }
  }

  /** The first digit of `str(n)` is not 0 unless n is 0 itself. */
  lemma {:induction false} NatToStringLeading(n: nat)
    ensures NatToString(n)[0] == '0' ==> n == 0
  {
    if n >= 10 {
      NatToStringLeading(n / 10);
    }
  }

  /** Fixed digits of a number below 10^width, widened to `len` > `width`, start with a 0. */
  lemma {:induction false} LeadingDigitZero(n: nat, width: nat, len: nat)
    requires width < len && n < Pow10(width)
    ensures FixedDigits(n, len)[0] == '0'
  {
    ZerosFixedDigits(n, width, len - width);
    assert FixedDigits(n, len) == Zeros(len - width) + FixedDigits(n, width);
  }

  /** Distinct numbers are written differently. */
  lemma NatToStringInjective(a: nat, b: nat)
    requires NatToString(a) == NatToString(b)
    ensures a == b
  {
    NatToStringFixed(a);
    NatToStringFixed(b);
    DigitsValueFixed(a, |NatToString(a)|);
    DigitsValueFixed(b, |NatToString(b)|);
  }

  // ---------------------------------------------------------------------------
  // Texts without line breaks
  // ---------------------------------------------------------------------------

  /** A concatenation is free of line breaks exactly when both pieces are. */
  lemma NoLineBreakAppend(a: string, b: string)
    ensures NoLineBreak(a + b) <==> NoLineBreak(a) && NoLineBreak(b)
  {
    if NoLineBreak(a + b) {
      forall i | 0 <= i < |a| ensures !IsLineBreak(a[i]) {
        assert a[i] == (a + b)[i];
      }
      forall i | 0 <= i < |b| ensures !IsLineBreak(b[i]) {
        assert b[i] == (a + b)[|a| + i];
      }
    }
  }

  /** A suffix of a text without line breaks has none. */
  lemma SuffixNoLineBreak(s: string, i: nat)
    requires NoLineBreak(s) && i <= |s|
    ensures NoLineBreak(s[i..])
  {
    assert forall k :: 0 <= k < |s| - i ==> s[i..][k] == s[i + k];
  }

  /** No line of `lines` holds a line break. */
  predicate NoLineBreaks(lines: seq<string>) {
    forall k :: 0 <= k < |lines| ==> NoLineBreak(lines[k])
  }

  lemma NoLineBreaksAppend(a: seq<string>, b: seq<string>)
    ensures NoLineBreaks(a + b) <==> NoLineBreaks(a) && NoLineBreaks(b)
  {
    if NoLineBreaks(a + b) {
      forall k | 0 <= k < |a| ensures NoLineBreak(a[k]) {
        assert a[k] == (a + b)[k];
      }
      forall k | 0 <= k < |b| ensures NoLineBreak(b[k]) {
        assert b[k] == (a + b)[|a| + k];
      }
    }
  }

  /** Decimal digits are no line breaks. */
  lemma DigitsNoLineBreak(s: string)
    requires AllDigits(s)
    ensures NoLineBreak(s)
  {
  }

  /** Zero padding writes only digits. */
  lemma PadAllDigits(n: nat, width: nat)
    ensures AllDigits(Pad(n, width))
  {
  }

  /** Joining pieces without line breaks by a separator without line breaks gives none. */
  lemma {:induction false} JoinNoLineBreak(items: seq<string>, sep: string)
    requires forall k :: 0 <= k < |items| ==> NoLineBreak(items[k])
    requires NoLineBreak(sep)
    ensures NoLineBreak(Join(items, sep))
  {
    if |items| > 1 {
      JoinNoLineBreak(items[1..], sep);
      NoLineBreakAppend(items[0], sep);
      NoLineBreakAppend(items[0] + sep, Join(items[1..], sep));
    }
  }

  /** `replace(p, r, 1)` with a replacement free of line breaks keeps a text free of them. */
  lemma ReplaceFirstNoLineBreak(s: string, pattern: string, replacement: string)
    requires NoLineBreak(s) && NoLineBreak(replacement)
    ensures NoLineBreak(ReplaceFirst(s, pattern, replacement))
  {
    var i := FindFrom(s, pattern, 0);
    if i >= 0 {
      assert s == s[..i] + s[i..];
      NoLineBreakAppend(s[..i], s[i..]);
      assert s[i..] == s[i..i + |pattern|] + s[i + |pattern|..];
      NoLineBreakAppend(s[i..i + |pattern|], s[i + |pattern|..]);
      NoLineBreakAppend(s[..i], replacement);
      NoLineBreakAppend(s[..i] + replacement, s[i + |pattern|..]);
    }
  }

  /** `"\n".join` of two non-empty runs of lines puts one line break between their joins. */
  lemma {:induction false} JoinLinesAppend(a: seq<string>, b: seq<string>)
    requires a != [] && b != []
    ensures JoinLines(a + b) == JoinLines(a) + "\n" + JoinLines(b)
  {
    if |a| == 1 {
      assert (a + b)[1..] == b;
    } else {
      JoinLinesAppend(a[1..], b);
      assert (a + b)[1..] == a[1..] + b;
    }
  }

  /** A line that is itself a `"\n".join` of a non-empty run of lines can be spliced into the run. */
  lemma JoinLinesSplice(a: seq<string>, inner: seq<string>, b: seq<string>)
    requires a != [] && inner != [] && b != []
    ensures JoinLines(a + [JoinLines(inner)] + b) == JoinLines(a + inner + b)
  {
    var x := JoinLines(inner);
    assert a + [x] + b == a + ([x] + b);
    JoinLinesAppend(a, [x] + b);
    JoinLinesAppend([x], b);
    assert JoinLines([x]) == x;
    assert a + inner + b == a + (inner + b);
    JoinLinesAppend(a, inner + b);
    JoinLinesAppend(inner, b);
  }

  /** `splitlines` undoes `"\n".join(lines) + "\n"` for a non-empty run of lines without breaks. */
  lemma {:induction false} SplitJoinLinesNewline(lines: seq<string>)
    requires lines != []
    requires forall k :: 0 <= k < |lines| ==> NoLineBreak(lines[k])
    ensures SplitLines(JoinLines(lines) + "\n") == lines
  {
    var x := lines[0];
    var rest := if |lines| == 1 then "" else JoinLines(lines[1..]) + "\n";
    var s := x + "\n" + rest;
    assert JoinLines(lines) + "\n" == s;
    assert FirstBreak(s) == |x| by { FirstBreakOfPlain(x, s); }
    assert s[..|x|] == x;
    assert s[|x| + 1..] == rest;
    if |lines| > 1 {
      SplitJoinLinesNewline(lines[1..]);
    }
  }
}
