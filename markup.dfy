/**
 * The lines of HTML the converter emits. Each constructor of `Html` is one of the
 * line templates the converter appends to its output list; `Render` is the text of
 * that line, with every piece of plan text passed through `html.escape`.
 */
module Markup {
  import opened Wrappers
  import opened Text
  import opened HtmlEscape

  datatype Html =
    | WeekPara(week: nat, year: nat)          // the ISO week paragraph at the top of the body
    | SectionOpen
    | SectionClose
    | ListOpen
    | ListClose
    | Heading2(text: string)
    | Heading3(text: string)
    | Para(text: string)
    | Labelled(key: string, value: string)  // bold label followed by its value
    | LabelOnly(key: string)                  // bold label with nothing after it
    | Item(text: string)
    | ShoppingList(items: seq<string>)        // the "Einkaufsliste" paragraph

  function EscapeAll(items: seq<string>): (r: seq<string>)
    ensures |r| == |items| && forall k {:trigger r[k]} :: 0 <= k < |items| ==> r[k] == Escape(items[k])
  {
    if items == [] then [] else [Escape(items[0])] + EscapeAll(items[1..])
  }

  /** `KW <week, two digits>/<year>`, the label of a plan's week. */
  function WeekLabel(week: nat, year: nat): string
  {
    "KW " + Pad(week, 2) + "/" + NatToString(year)
  }

  /** An HTML tag, `<name>`; a closing tag has a name starting with `/`. */
  function Tag(name: string): string
  {
    "<" + name + ">"
  }

  /** A paragraph led by a bold key. */
  function StrongPara(key: string, rest: string): string
  {
    "    " + Tag("p") + Tag("strong") + key + Tag("/strong") + rest + Tag("/p")
  }

  /** The text of one emitted line. */
  function Render(h: Html): string
  {
    match h
    case WeekPara(week, year) => "  " + Tag("p") + WeekLabel(week, year) + Tag("/p")
    case SectionOpen => "  " + Tag("section")
    case SectionClose => "  " + Tag("/section")
    case ListOpen => "    " + Tag("ul")
    case ListClose => "    " + Tag("/ul")
    case Heading2(t) => "    " + Tag("h2") + Escape(t) + Tag("/h2")
    case Heading3(t) => "    " + Tag("h3") + Escape(t) + Tag("/h3")
    case Para(t) => "    " + Tag("p") + Escape(t) + Tag("/p")
    case Labelled(l, v) => StrongPara(Escape(l) + ":", " " + Escape(v))
    case LabelOnly(l) => StrongPara(Escape(l) + ":", "")
    case Item(t) => "      " + Tag("li") + Escape(t) + Tag("/li")
    case ShoppingList(items) => StrongPara("Einkaufsliste:", " " + Join(EscapeAll(items), ", "))
  }

  function RenderAll(hs: seq<Html>): (r: seq<string>)
    ensures |r| == |hs| && forall k {:trigger r[k]} :: 0 <= k < |hs| ==> r[k] == Render(hs[k])
  {
    if hs == [] then [] else [Render(hs[0])] + RenderAll(hs[1..])
  }

  /** `s` holds neither `<` nor `>`. */
  predicate NoAngles(s: string) {
    '<' !in s && '>' !in s
  }

  /** The number of times `x` occurs in `s`. */
  function Occurrences(s: string, x: char): nat
  {
    if s == [] then 0 else Occurrences(s[..|s| - 1], x) + (if s[|s| - 1] == x then 1 else 0)
  }

  lemma {:induction false} OccurrencesAppend(a: string, b: string, x: char)
    ensures Occurrences(a + b, x) == Occurrences(a, x) + Occurrences(b, x)
  {
    if b != [] {
      assert (a + b)[..|a + b| - 1] == a + b[..|b| - 1];
      OccurrencesAppend(a, b[..|b| - 1], x);
    } else {
      assert a + b == a;
    }
  }

  lemma {:induction false} OccurrencesAbsent(s: string, x: char)
    requires x !in s
    ensures Occurrences(s, x) == 0
  {
    if s != [] {
      OccurrencesAbsent(s[..|s| - 1], x);
    }
  }

  /** The angle brackets of `a + b` are those of `a` and those of `b`. */
  lemma AnglesAppend(a: string, b: string)
    ensures Occurrences(a + b, '<') == Occurrences(a, '<') + Occurrences(b, '<')
    ensures Occurrences(a + b, '>') == Occurrences(a, '>') + Occurrences(b, '>')
  {
    OccurrencesAppend(a, b, '<');
    OccurrencesAppend(a, b, '>');
  }

  lemma NoAnglesCount(s: string)
    requires NoAngles(s)
    ensures Occurrences(s, '<') == 0 && Occurrences(s, '>') == 0
  {
    OccurrencesAbsent(s, '<');
    OccurrencesAbsent(s, '>');
  }

  /** A tag whose name holds no angle brackets contributes one `<` and one `>`. */
  lemma TagCount(name: string)
    requires NoAngles(name)
    ensures Occurrences(Tag(name), '<') == 1 && Occurrences(Tag(name), '>') == 1
  {
    NoAnglesCount(name);
    AnglesAppend("<", name);
    AnglesAppend("<" + name, ">");
  }

  lemma EscapedNoAngles(t: string)
    ensures NoAngles(Escape(t))
  {
    EscapeHasNoMarkup(t);
  }

  /** Joining texts that hold no `<` or `>` with ", " adds none. */
  lemma {:induction false} JoinNoAngles(items: seq<string>)
    requires forall k :: 0 <= k < |items| ==> NoAngles(items[k])
    ensures NoAngles(Join(items, ", "))
  {
    if |items| > 1 {
      JoinNoAngles(items[1..]);
    }
  }

  lemma WeekLabelNoAngles(week: nat, year: nat)
    ensures NoAngles(WeekLabel(week, year))
  {
    var w := Pad(week, 2);
    var y := NatToString(year);
    var d := NatToString(week);
    assert AllDigits(w) by {
      if |d| < 2 {
        assert w == Zeros(2 - |d|) + d;
      }
    }
    assert NoAngles(w);
    assert NoAngles(y);
  }

  /** The number of tags in a line's template. */
  function TemplateTags(h: Html): nat
  {
    match h
    case SectionOpen | SectionClose | ListOpen | ListClose => 1
    case Labelled(_, _) | LabelOnly(_) | ShoppingList(_) => 4
    case _ => 2
  }

  /** An indent followed by one tag has one tag. */
  lemma IndentedTag(indent: string, name: string)
    requires NoAngles(indent) && NoAngles(name)
    ensures Occurrences(indent + Tag(name), '<') == 1 && Occurrences(indent + Tag(name), '>') == 1
  {
    TagCount(name);
    NoAnglesCount(indent);
    AnglesAppend(indent, Tag(name));
  }

  /** A line made of an indent and a text between an opening and a closing tag has two tags. */
  lemma WrappedTags(indent: string, open: string, text: string, close: string)
    requires NoAngles(indent) && NoAngles(open) && NoAngles(text) && NoAngles(close)
    ensures Occurrences(indent + Tag(open) + text + Tag(close), '<') == 2
    ensures Occurrences(indent + Tag(open) + text + Tag(close), '>') == 2
  {
    IndentedTag(indent, open);
    TagCount(close);
    NoAnglesCount(text);
    AnglesAppend(indent + Tag(open), text);
    AnglesAppend(indent + Tag(open) + text, Tag(close));
  }

  /** A bold-label paragraph, whatever comes after its label, has four tags. */
  lemma StrongParaTags(key: string, rest: string)
    requires NoAngles(key) && NoAngles(rest)
    ensures Occurrences(StrongPara(key, rest), '<') == 4 && Occurrences(StrongPara(key, rest), '>') == 4
  {
    var l1 := "    " + Tag("p");
    IndentedTag("    ", "p");
    TagCount("strong");
    TagCount("/strong");
    TagCount("/p");
    NoAnglesCount(key);
    NoAnglesCount(rest);
    var l2 := l1 + Tag("strong");
    AnglesAppend(l1, Tag("strong"));
    var l3 := l2 + key;
    AnglesAppend(l2, key);
    var l4 := l3 + Tag("/strong");
    AnglesAppend(l3, Tag("/strong"));
    var l5 := l4 + rest;
    AnglesAppend(l4, rest);
    AnglesAppend(l5, Tag("/p"));
  }

  /**
   * Plan text cannot add markup: whatever text a line carries, its `<` and `>`
   * characters are exactly those of its template's tags.
   */
  lemma TextAddsNoTags(h: Html)
    ensures Occurrences(Render(h), '<') == TemplateTags(h)
    ensures Occurrences(Render(h), '>') == TemplateTags(h)
  {
    match h
    case WeekPara(week, year) =>
      WeekLabelNoAngles(week, year);
      WrappedTags("  ", "p", WeekLabel(week, year), "/p");
    case SectionOpen => IndentedTag("  ", "section");
    case SectionClose => IndentedTag("  ", "/section");
    case ListOpen => IndentedTag("    ", "ul");
    case ListClose => IndentedTag("    ", "/ul");
    case Heading2(t) => EscapedNoAngles(t); WrappedTags("    ", "h2", Escape(t), "/h2");
    case Heading3(t) => EscapedNoAngles(t); WrappedTags("    ", "h3", Escape(t), "/h3");
    case Para(t) => EscapedNoAngles(t); WrappedTags("    ", "p", Escape(t), "/p");
    case Item(t) => EscapedNoAngles(t); WrappedTags("      ", "li", Escape(t), "/li");
    case Labelled(l, v) => LabelledTags(l, v);
    case LabelOnly(l) => LabelOnlyTags(l);
    case ShoppingList(items) => ShoppingListTags(items);
  }

  lemma LabelledTags(l: string, v: string)
    ensures Occurrences(Render(Labelled(l, v)), '<') == 4 && Occurrences(Render(Labelled(l, v)), '>') == 4
  {
    EscapedNoAngles(l);
    EscapedNoAngles(v);
    var key, rest := Escape(l) + ":", " " + Escape(v);
    StrongParaTags(key, rest);
  }

  lemma LabelOnlyTags(l: string)
    ensures Occurrences(Render(LabelOnly(l)), '<') == 4 && Occurrences(Render(LabelOnly(l)), '>') == 4
  {
    EscapedNoAngles(l);
    var key := Escape(l) + ":";
    StrongParaTags(key, "");
  }

  lemma ShoppingListTags(items: seq<string>)
    ensures Occurrences(Render(ShoppingList(items)), '<') == 4
    ensures Occurrences(Render(ShoppingList(items)), '>') == 4
  {
    var es := EscapeAll(items);
    forall k | 0 <= k < |es| ensures NoAngles(es[k]) {
      EscapedNoAngles(items[k]);
    }
    JoinNoAngles(es);
    var j := Join(es, ", ");
    var rest := " " + j;
    var key := "Einkaufsliste:";
    assert NoAngles(key);
    StrongParaTags(key, rest);
  }

  // ---------------------------------------------------------------------------
  // Every emitted line is one line of text
  // ---------------------------------------------------------------------------

  /** The plain text a line carries holds no line break. */
  predicate SingleLine(h: Html) {
    match h
    case Heading2(t) => NoLineBreak(t)
    case Heading3(t) => NoLineBreak(t)
    case Para(t) => NoLineBreak(t)
    case Labelled(l, v) => NoLineBreak(l) && NoLineBreak(v)
    case LabelOnly(l) => NoLineBreak(l)
    case Item(t) => NoLineBreak(t)
    case ShoppingList(items) => forall k :: 0 <= k < |items| ==> NoLineBreak(items[k])
    case _ => true
  }

  predicate AllSingleLine(hs: seq<Html>) {
    forall k :: 0 <= k < |hs| ==> SingleLine(hs[k])
  }

  /** A tag whose name holds no line break, after an indentation, holds none. */
  lemma TagNoLineBreak(indent: string, name: string)
    requires NoLineBreak(indent) && NoLineBreak(name)
    ensures NoLineBreak(Tag(name)) && NoLineBreak(indent + Tag(name))
  {
    NoLineBreakAppend("<", name);
    NoLineBreakAppend("<" + name, ">");
    NoLineBreakAppend(indent, Tag(name));
  }

  /** A template around a text: its pieces hold no line break, so neither does the whole. */
  lemma WrappedNoLineBreak(indent: string, open: string, text: string, close: string)
    requires NoLineBreak(indent) && NoLineBreak(open) && NoLineBreak(text) && NoLineBreak(close)
    ensures NoLineBreak(indent + Tag(open) + text + Tag(close))
  {
    TagNoLineBreak(indent, open);
    TagNoLineBreak("", close);
    NoLineBreakAppend(indent + Tag(open), text);
    NoLineBreakAppend(indent + Tag(open) + text, Tag(close));
  }

  lemma WeekLabelNoLineBreak(week: nat, year: nat)
    ensures NoLineBreak(WeekLabel(week, year))
  {
    PadAllDigits(week, 2);
    DigitsNoLineBreak(Pad(week, 2));
    DigitsNoLineBreak(NatToString(year));
    NoLineBreakAppend("KW ", Pad(week, 2));
    NoLineBreakAppend("KW " + Pad(week, 2), "/");
    NoLineBreakAppend("KW " + Pad(week, 2) + "/", NatToString(year));
  }

  lemma StrongParaNoLineBreak(key: string, rest: string)
    requires NoLineBreak(key) && NoLineBreak(rest)
    ensures NoLineBreak(StrongPara(key, rest))
  {
    TagNoLineBreak("    ", "p");
    TagNoLineBreak("", "strong");
    TagNoLineBreak("", "/strong");
    TagNoLineBreak("", "/p");
    var open := "    " + Tag("p") + Tag("strong");
    NoLineBreakAppend("    " + Tag("p"), Tag("strong"));
    NoLineBreakAppend(open, key);
    NoLineBreakAppend(open + key, Tag("/strong"));
    NoLineBreakAppend(open + key + Tag("/strong"), rest);
    NoLineBreakAppend(open + key + Tag("/strong") + rest, Tag("/p"));
  }

  /** The label of a bold-label paragraph with its colon holds no line break. */
  lemma LabelNoLineBreak(l: string)
    requires NoLineBreak(l)
    ensures NoLineBreak(Escape(l) + ":")
  {
    EscapeNoLineBreak(l);
    NoLineBreakAppend(Escape(l), ":");
  }

  /** The text after a bold label, led by a blank, holds no line break. */
  lemma ValueNoLineBreak(v: string)
    requires NoLineBreak(v)
    ensures NoLineBreak(" " + v)
  {
    NoLineBreakAppend(" ", v);
  }

  /** The shopping list's items, escaped and joined by `, `, hold no line break. */
  lemma ItemsNoLineBreak(items: seq<string>)
    requires forall k :: 0 <= k < |items| ==> NoLineBreak(items[k])
    ensures NoLineBreak(Join(EscapeAll(items), ", "))
  {
    var es := EscapeAll(items);
    EscapedItemsNoLineBreak(items);
    SeparatorNoLineBreak();
    JoinNoLineBreak(es, ", ");
  }

  lemma EscapedItemsNoLineBreak(items: seq<string>)
    requires forall k :: 0 <= k < |items| ==> NoLineBreak(items[k])
    ensures forall k :: 0 <= k < |items| ==> NoLineBreak(EscapeAll(items)[k])
  {
    var es := EscapeAll(items);
    forall k | 0 <= k < |es| ensures NoLineBreak(es[k]) {
      assert es[k] == Escape(items[k]);
      EscapeNoLineBreak(items[k]);
    }
  }

  lemma SeparatorNoLineBreak()
    ensures NoLineBreak(", ")
  {
  }

  /** A line whose text holds no line break renders as one non-empty line of text. */
  lemma RenderSingleLine(h: Html)
    requires SingleLine(h)
    ensures NoLineBreak(Render(h)) && Render(h) != ""
  {
    if h.Heading2? || h.Heading3? || h.Para? || h.Item? {
      TextLineSingle(h);
    } else if h.Labelled? || h.LabelOnly? || h.ShoppingList? {
      LabelLineSingle(h);
    } else {
      FrameLineSingle(h);
    }
  }

  lemma FrameLineSingle(h: Html)
    requires h.WeekPara? || h.SectionOpen? || h.SectionClose? || h.ListOpen? || h.ListClose?
    ensures NoLineBreak(Render(h)) && Render(h) != ""
  {
    match h
    case WeekPara(week, year) =>
      WeekLabelNoLineBreak(week, year);
      WrappedNoLineBreak("  ", "p", WeekLabel(week, year), "/p");
    case SectionOpen => TagNoLineBreak("  ", "section");
    case SectionClose => TagNoLineBreak("  ", "/section");
    case ListOpen => TagNoLineBreak("    ", "ul");
    case ListClose => TagNoLineBreak("    ", "/ul");
  }

  lemma TextLineSingle(h: Html)
    requires (h.Heading2? || h.Heading3? || h.Para? || h.Item?) && SingleLine(h)
    ensures NoLineBreak(Render(h)) && Render(h) != ""
  {
    EscapeNoLineBreak(h.text);
    match h
    case Heading2(t) => WrappedNoLineBreak("    ", "h2", Escape(t), "/h2");
    case Heading3(t) => WrappedNoLineBreak("    ", "h3", Escape(t), "/h3");
    case Para(t) => WrappedNoLineBreak("    ", "p", Escape(t), "/p");
    case Item(t) => WrappedNoLineBreak("      ", "li", Escape(t), "/li");
  }

  lemma LabelLineSingle(h: Html)
    requires (h.Labelled? || h.LabelOnly? || h.ShoppingList?) && SingleLine(h)
    ensures NoLineBreak(Render(h)) && Render(h) != ""
  {
    match h
    case Labelled(l, v) =>
      LabelNoLineBreak(l);
      EscapeNoLineBreak(v);
      ValueNoLineBreak(Escape(v));
      StrongParaNoLineBreak(Escape(l) + ":", " " + Escape(v));
    case LabelOnly(l) =>
      LabelNoLineBreak(l);
      StrongParaNoLineBreak(Escape(l) + ":", "");
    case ShoppingList(items) =>
      ItemsNoLineBreak(items);
      ValueNoLineBreak(Join(EscapeAll(items), ", "));
      StrongParaNoLineBreak("Einkaufsliste:", " " + Join(EscapeAll(items), ", "));
  }

  lemma AllSingleLineAppend(a: seq<Html>, b: seq<Html>)
    ensures AllSingleLine(a + b) <==> AllSingleLine(a) && AllSingleLine(b)
  {
    if AllSingleLine(a + b) {
      assert forall k :: 0 <= k < |a| ==> (a + b)[k] == a[k];
      assert forall k :: 0 <= k < |b| ==> (a + b)[|a| + k] == b[k];
    }
  }

  /** Rendering distributes over concatenation. */
  lemma RenderAllAppend(a: seq<Html>, b: seq<Html>)
    ensures RenderAll(a + b) == RenderAll(a) + RenderAll(b)
  {
  }

  /** Rendering commutes with cutting the parts at `k`. */
  lemma RenderAllSlices(hs: seq<Html>, k: nat)
    requires k < |hs|
    ensures RenderAll(hs)[..k] == RenderAll(hs[..k])
    ensures RenderAll(hs)[k] == Render(hs[k])
    ensures RenderAll(hs)[k + 1..] == RenderAll(hs[k + 1..])
  {
    RenderAllPrefix(hs, k);
    RenderAllSuffix(hs, k + 1);
  }

  lemma RenderAllPrefix(hs: seq<Html>, k: nat)
    requires k <= |hs|
    ensures RenderAll(hs)[..k] == RenderAll(hs[..k])
  {
    var r := RenderAll(hs);
    var front := RenderAll(hs[..k]);
    forall i | 0 <= i < k ensures r[..k][i] == front[i] {
      assert r[i] == Render(hs[i]);
      assert front[i] == Render(hs[..k][i]);
    }
  }

  lemma RenderAllSuffix(hs: seq<Html>, k: nat)
    requires k <= |hs|
    ensures RenderAll(hs)[k..] == RenderAll(hs[k..])
  {
    var r := RenderAll(hs);
    var back := RenderAll(hs[k..]);
    forall i | 0 <= i < |hs| - k ensures r[k..][i] == back[i] {
      assert r[k + i] == Render(hs[k + i]);
      assert back[i] == Render(hs[k..][i]);
    }
  }

  /** The rendered lines of single-line parts hold no line break, and none of them is empty. */
  lemma RenderAllSingleLine(hs: seq<Html>)
    requires AllSingleLine(hs)
    ensures forall k :: 0 <= k < |hs| ==> NoLineBreak(RenderAll(hs)[k]) && RenderAll(hs)[k] != ""
  {
    forall k | 0 <= k < |hs| ensures NoLineBreak(RenderAll(hs)[k]) && RenderAll(hs)[k] != "" {
      RenderSingleLine(hs[k]);
    }
  }

  /** Where a line stands: inside a `<section>`, and inside a `<ul>` within it. */
  datatype Nesting = Nesting(inSection: bool, inList: bool)

  const Top := Nesting(false, false)

  /**
   * The nesting after one more line, or `None` when the line is out of place:
   * sections do not nest, a list lies inside a section, a list item inside a list,
   * other content of a section outside its list, and the week paragraph outside
   * every section.
   */
  function NestStep(n: Nesting, h: Html): Option<Nesting>
  {
    match h
    case SectionOpen => if !n.inSection then Some(Nesting(true, false)) else None
    case SectionClose => if n.inSection && !n.inList then Some(Top) else None
    case ListOpen => if n.inSection && !n.inList then Some(Nesting(true, true)) else None
    case ListClose => if n.inList then Some(Nesting(true, false)) else None
    case Item(_) => if n.inList then Some(n) else None
    case WeekPara(_, _) => if !n.inSection then Some(n) else None
    case _ => if n.inSection && !n.inList then Some(n) else None
  }

  /** The nesting reached after reading `hs` from the top level, or `None` if a line is out of place. */
  function Nest(hs: seq<Html>): Option<Nesting>
  {
    if hs == [] then Some(Top)
    else
      match Nest(hs[..|hs| - 1])
      case None => None
      case Some(n) => NestStep(n, hs[|hs| - 1])
  }

  /** Every tag is opened and closed in order, and nothing is left open. */
  predicate WellNested(hs: seq<Html>) {
    Nest(hs) == Some(Top)
  }

  lemma NestAppend(hs: seq<Html>, h: Html)
    ensures Nest(hs + [h]) == match Nest(hs) case None => None case Some(n) => NestStep(n, h)
  {
    assert (hs + [h])[..|hs|] == hs;
  }

  /**
   * Opening and closing tags balance: at any nesting reached, every `<section>` but
   * the open one is closed, and likewise every `<ul>`; a list is only open inside a section.
   */
  lemma {:induction false} NestCounts(hs: seq<Html>)
    requires Nest(hs).Some?
    ensures var n := Nest(hs).value;
      (n.inList ==> n.inSection)
      && multiset(hs)[SectionOpen] == multiset(hs)[SectionClose] + (if n.inSection then 1 else 0)
      && multiset(hs)[ListOpen] == multiset(hs)[ListClose] + (if n.inList then 1 else 0)
  {
    if hs != [] {
      var init := hs[..|hs| - 1];
      var last := hs[|hs| - 1];
      assert hs == init + [last];
      assert multiset(hs) == multiset(init) + multiset{last};
      NestCounts(init);
      NestStepCounts(Nest(init).value, last);
    }
  }

  /** One line changes the open tags by exactly the tag it opens or closes. */
  lemma NestStepCounts(n: Nesting, h: Html)
    requires NestStep(n, h).Some? && (n.inList ==> n.inSection)
    ensures var m := NestStep(n, h).value;
      && (m.inList ==> m.inSection)
      && multiset{h}[SectionOpen] + (if n.inSection then 1 else 0) == multiset{h}[SectionClose] + (if m.inSection then 1 else 0)
      && multiset{h}[ListOpen] + (if n.inList then 1 else 0) == multiset{h}[ListClose] + (if m.inList then 1 else 0)
  {
  }

  /** A well-nested body has as many `</section>` as `<section>` lines, and as many `</ul>` as `<ul>`. */
  lemma WellNestedBalanced(hs: seq<Html>)
    requires WellNested(hs)
    ensures multiset(hs)[SectionOpen] == multiset(hs)[SectionClose]
    ensures multiset(hs)[ListOpen] == multiset(hs)[ListClose]
  {
    NestCounts(hs);
  }
}
