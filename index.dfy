/**
 * The overview page: each plan's body HTML is cut down to index fragments, and the
 * plans are listed newest first, one collapsible entry per plan.
 */
module Index {
  import opened Wrappers
  import opened Text
  import opened HtmlEscape
  import opened Markup
  import opened Plans

  // ---------------------------------------------------------------------------
  // Index fragments of one plan body
  // ---------------------------------------------------------------------------

  /** The ten blanks in front of every fragment line. */
  const FragmentIndent: string := "          "

  /** The bold paragraph an `<h3>` line becomes: the first `<h3>` and the first `</h3>` removed. */
  function BoldHeading(stripped: string): string
  {
    "<p><strong>" + ReplaceFirst(ReplaceFirst(stripped, "<h3>", ""), "</h3>", "") + "</strong></p>"
  }

  /**
   * What `_plan_fragment_lines` keeps of a line whose indentation is gone: nothing for
   * an empty line, a top heading or a week paragraph; a level-3 heading as a bold
   * paragraph; any other line as it is.
   */
  function KeptText(stripped: string): Option<string>
  {
    if stripped == "" then None
    else if StartsWith(stripped, "<h1>") then None
    else if StartsWith(stripped, "<p>KW ") then None
    else if StartsWith(stripped, "<h3>") then Some(BoldHeading(stripped))
    else Some(stripped)
  }

  /** The fragment line made of one line of body HTML, if any: the kept text indented by ten blanks. */
  function FragmentOf(rawLine: string): Option<string>
  {
    var kept := KeptText(LStrip(rawLine));
    if kept.None? then None else Some(FragmentIndent + kept.value)
  }

  /** The fragments of `lines`, in order. */
  function Fragments(lines: seq<string>): seq<string>
  {
    if lines == [] then []
    else
      var init := Fragments(lines[..|lines| - 1]);
      match FragmentOf(lines[|lines| - 1])
      case None => init
      case Some(f) => init + [f]
  }

  /** `_plan_fragment_lines(body_html)`. */
  method PlanFragmentLines(bodyHtml: string) returns (fragments: seq<string>)
    ensures fragments == Fragments(SplitLines(bodyHtml))
  {
    var rawLines := SplitLines(bodyHtml);
    fragments := [];
    for i := 0 to |rawLines|
      invariant fragments == Fragments(rawLines[..i])
    {
      FragmentsStep(rawLines, i);
      var stripped := LStrip(rawLines[i]);
      if stripped == "" || StartsWith(stripped, "<h1>") || StartsWith(stripped, "<p>KW ") {
        continue;
      }
      if StartsWith(stripped, "<h3>") {
        stripped := BoldHeading(stripped);
      }
      fragments := fragments + [FragmentIndent + stripped];
    }
    assert rawLines[..|rawLines|] == rawLines;
  }

  lemma FragmentsStep(lines: seq<string>, i: nat)
    requires i < |lines|
    ensures Fragments(lines[..i + 1])
      == Fragments(lines[..i]) + if FragmentOf(lines[i]).Some? then [FragmentOf(lines[i]).value] else []
  {
    assert lines[..i + 1][..i] == lines[..i];
  }

  /** A line `_plan_fragment_lines` emits: ten blanks, then text that it keeps as it is. */
  predicate IsFragment(f: string) {
    StartsWith(f, FragmentIndent)
    && var x := f[|FragmentIndent|..];
    x != "" && !IsSpace(x[0]) && KeptText(x) == Some(x)
  }

  lemma IndentIsBlank()
    ensures forall i :: 0 <= i < |FragmentIndent| ==> FragmentIndent[i] == ' '
  {
  }

  /** A bold heading is kept as it is. */
  lemma BoldHeadingKept(stripped: string)
    ensures var x := BoldHeading(stripped);
      x != "" && !IsSpace(x[0]) && KeptText(x) == Some(x)
  {
    var x := BoldHeading(stripped);
    var content := ReplaceFirst(ReplaceFirst(stripped, "<h3>", ""), "</h3>", "");
    assert x == "<p><strong>" + (content + "</strong></p>");
    assert x[0] == '<' && x[1] == 'p' && x[3] == '<';
    assert !StartsWith(x, "<h1>") by { assert |x| >= 4 ==> x[..4][1] == 'p'; }
    assert !StartsWith(x, "<p>KW ") by { assert |x| >= 6 ==> x[..6][3] == '<'; }
    assert !StartsWith(x, "<h3>") by { assert |x| >= 4 ==> x[..4][1] == 'p'; }
  }

  /** Every line kept is a fragment line. */
  lemma FragmentOfIsFragment(rawLine: string)
    requires FragmentOf(rawLine).Some?
    ensures IsFragment(FragmentOf(rawLine).value)
  {
    var stripped := LStrip(rawLine);
    LStripShape(rawLine);
    var x := KeptText(stripped).value;
    if StartsWith(stripped, "<h3>") {
      BoldHeadingKept(stripped);
    }
    assert x != "" && !IsSpace(x[0]) && KeptText(x) == Some(x);
    var f := FragmentIndent + x;
    assert f[|FragmentIndent|..] == x;
    assert f[..|FragmentIndent|] == FragmentIndent;
  }

  /** A fragment line is kept unchanged, so fragments are a fixed point of the rewriting. */
  lemma FragmentIsKept(f: string)
    requires IsFragment(f)
    ensures FragmentOf(f) == Some(f)
  {
    var x := f[|FragmentIndent|..];
    IndentIsBlank();
    assert f == FragmentIndent + x;
    LStripIndent(FragmentIndent, x);
  }

  /** The rewriting keeps at most one line per input line, and each kept line is a fragment line. */
  lemma {:induction false} FragmentsShape(lines: seq<string>)
    ensures |Fragments(lines)| <= |lines|
    ensures forall k :: 0 <= k < |Fragments(lines)| ==> IsFragment(Fragments(lines)[k])
  {
    if lines != [] {
      var init := lines[..|lines| - 1];
      FragmentsShape(init);
      var last := lines[|lines| - 1];
      if FragmentOf(last).Some? {
        FragmentOfIsFragment(last);
        assert Fragments(lines) == Fragments(init) + [FragmentOf(last).value];
      }
    }
  }

  /** Rewriting lines that are already fragment lines changes nothing. */
  lemma {:induction false} FragmentsOfFragments(fs: seq<string>)
    requires forall k :: 0 <= k < |fs| ==> IsFragment(fs[k])
    ensures Fragments(fs) == fs
  {
    if fs != [] {
      var init := fs[..|fs| - 1];
      FragmentsOfFragments(init);
      FragmentIsKept(fs[|fs| - 1]);
      assert fs == init + [fs[|fs| - 1]];
    }
  }

  /** The rewriting is idempotent. */
  lemma FragmentsIdempotent(lines: seq<string>)
    ensures Fragments(Fragments(lines)) == Fragments(lines)
  {
    FragmentsShape(lines);
    FragmentsOfFragments(Fragments(lines));
  }

  /** The text between `<h3>` and `</h3>` of an escaped heading is all that the bold paragraph keeps. */
  lemma BoldHeadingOfEscaped(e: string)
    requires NoAngles(e)
    ensures BoldHeading("<h3>" + (e + "</h3>")) == "<p><strong>" + e + "</strong></p>"
  {
    var rest := e + "</h3>";
    ReplaceLeadingPattern("<h3>", rest, "");
    assert "" + rest == rest;
    forall k | 0 <= k < |e| ensures !OccursAt(rest, "</h3>", k) {
      assert rest[k] == e[k];
      if k + 5 <= |rest| {
        assert rest[k..k + 5][0] == rest[k];
      }
    }
    ReplaceTrailingPattern(e, "</h3>", "");
    assert e + "" == e;
  }

  /** A rendered line regrouped: its indent, then everything after it. */
  lemma Regroup(indent: string, open: string, text: string, close: string)
    ensures indent + open + text + close == indent + (open + (text + close))
  {
  }

  /** A line indented by blanks becomes what its text alone becomes. */
  lemma IndentedFragment(indent: string, x: string)
    requires forall i :: 0 <= i < |indent| ==> indent[i] == ' '
    requires x != [] && x[0] == '<'
    ensures FragmentOf(indent + x) == if KeptText(x).None? then None else Some(FragmentIndent + KeptText(x).value)
  {
    LStripIndent(indent, x);
  }

  /** A level-3 heading, once its indentation is gone, is kept as a bold paragraph. */
  lemma KeptHeading3(rest: string)
    ensures KeptText("<h3>" + rest) == Some(BoldHeading("<h3>" + rest))
  {
    var x := "<h3>" + rest;
    assert x[..4] == "<h3>";
    assert !StartsWith(x, "<h1>") by { assert x[..4][2] == '3'; }
    assert !StartsWith(x, "<p>KW ") by { assert x[1] == 'h'; assert |x| >= 6 ==> x[..6][1] == 'h'; }
  }

  /** A paragraph starting with `KW `, once its indentation is gone, is dropped. */
  lemma KeptKwParagraph(rest: string)
    ensures KeptText("<p>" + ("KW " + rest)) == None
  {
    var x := "<p>" + ("KW " + rest);
    assert x[..6] == "<p>KW ";
    assert !StartsWith(x, "<h1>") by { assert x[..4][1] == 'p'; }
  }

  /** The `<h3>` line of a heading. */
  lemma RenderedHeading3(t: string)
    ensures Render(Heading3(t)) == "    " + ("<h3>" + (Escape(t) + "</h3>"))
  {
    assert Tag("h3") == "<h3>" && Tag("/h3") == "</h3>";
    Regroup("    ", "<h3>", Escape(t), "</h3>");
  }

  /** The `<p>` line of a paragraph. */
  lemma RenderedPara(t: string)
    ensures Render(Para(t)) == "    " + ("<p>" + (Escape(t) + "</p>"))
  {
    assert Tag("p") == "<p>" && Tag("/p") == "</p>";
    Regroup("    ", "<p>", Escape(t), "</p>");
  }

  /** The `<p>` line of the week paragraph. */
  lemma RenderedWeekPara(week: nat, year: nat)
    ensures Render(WeekPara(week, year)) == "  " + ("<p>" + ("KW " + (Pad(week, 2) + "/" + NatToString(year) + "</p>")))
  {
    var tail := Pad(week, 2) + "/" + NatToString(year);
    assert Tag("p") == "<p>" && Tag("/p") == "</p>";
    assert WeekLabel(week, year) == "KW " + tail;
    Regroup("  ", "<p>", "KW " + tail, "</p>");
    assert "KW " + tail + "</p>" == "KW " + (tail + "</p>");
  }

  /** An `<h3>` line of the converter becomes a bold paragraph with the same escaped text. */
  lemma Heading3BecomesBold(t: string)
    ensures FragmentOf(Render(Heading3(t))) == Some(FragmentIndent + ("<p><strong>" + Escape(t) + "</strong></p>"))
  {
    var e := Escape(t);
    EscapedNoAngles(t);
    RenderedHeading3(t);
    IndentedFragment("    ", "<h3>" + (e + "</h3>"));
    KeptHeading3(e + "</h3>");
    BoldHeadingOfEscaped(e);
  }

  /** The rendered week paragraph is no fragment. */
  lemma WeekParaLineDropped(week: nat, year: nat)
    ensures FragmentOf(Render(WeekPara(week, year))) == None
  {
    var rest := Pad(week, 2) + "/" + NatToString(year) + "</p>";
    RenderedWeekPara(week, year);
    IndentedFragment("  ", "<p>" + ("KW " + rest));
    KeptKwParagraph(rest);
  }

  /**
   * Any plain paragraph whose text starts with `KW ` is left out as well, not only the
   * week paragraph: the rewriting tells them apart by their first characters alone.
   */
  lemma KwParagraphLineDropped(rest: string)
    ensures FragmentOf(Render(Para("KW " + rest))) == None
  {
    EscapeIdentity("KW ");
    EscapeAppend("KW ", rest);
    RenderedPara("KW " + rest);
    assert Escape("KW " + rest) + "</p>" == "KW " + (Escape(rest) + "</p>");
    IndentedFragment("    ", "<p>" + ("KW " + (Escape(rest) + "</p>")));
    KeptKwParagraph(Escape(rest) + "</p>");
  }

  /** The fragments of two runs of lines are the fragments of each, in order. */
  lemma {:induction false} FragmentsAppend(a: seq<string>, b: seq<string>)
    ensures Fragments(a + b) == Fragments(a) + Fragments(b)
  {
    if b == [] {
      assert a + b == a;
    } else {
      var init := b[..|b| - 1];
      var last := b[|b| - 1];
      assert a + b == (a + init) + [last];
      assert b == init + [last];
      calc {
        Fragments(a + b);
        { FragmentsSnoc(a + init, last); }
        Fragments(a + init) + Fragments([last]);
        { FragmentsAppend(a, init); }
        (Fragments(a) + Fragments(init)) + Fragments([last]);
        Fragments(a) + (Fragments(init) + Fragments([last]));
        { FragmentsSnoc(init, last); }
        Fragments(a) + Fragments(b);
      }
    }
  }

  lemma FragmentsSnoc(lines: seq<string>, line: string)
    ensures Fragments(lines + [line]) == Fragments(lines) + Fragments([line])
  {
    assert (lines + [line])[..|lines|] == lines;
    assert [line][..0] == [];
  }

  /** A line that is no fragment can be cut out of the lines. */
  lemma DroppedLine(lines: seq<string>, k: nat)
    requires k < |lines| && FragmentOf(lines[k]) == None
    ensures Fragments(lines) == Fragments(lines[..k]) + Fragments(lines[k + 1..])
  {
    var before := lines[..k];
    var line := lines[k];
    var after := lines[k + 1..];
    CutAt(lines, k);
    calc {
      Fragments(before + ([line] + after));
      { FragmentsAppend(before, [line] + after); }
      Fragments(before) + Fragments([line] + after);
      { FragmentsAppend([line], after); }
      Fragments(before) + (Fragments([line]) + Fragments(after));
      { assert [line][..0] == []; }
      Fragments(before) + ([] + Fragments(after));
      { assert [] + Fragments(after) == Fragments(after); }
      Fragments(before) + Fragments(after);
    }
  }

  lemma CutAt<T>(s: seq<T>, k: nat)
    requires k < |s|
    ensures s == s[..k] + ([s[k]] + s[k + 1..])
  {
  }

  lemma RegroupAfter<T>(a: seq<T>, b: seq<T>, c: seq<T>, d: seq<T>, e: seq<T>)
    ensures a + b + c + d + e == a + b + (c + d + e)
  {
  }

  /** For text without line breaks, what the method returns is the rewriting of the given lines. */
  lemma FragmentsOfJoinedLines(lines: seq<string>)
    requires forall k :: 0 <= k < |lines| ==> NoLineBreak(lines[k])
    requires lines == [] || lines[|lines| - 1] != ""
    ensures Fragments(SplitLines(JoinLines(lines))) == Fragments(lines)
  {
    SplitJoinLines(lines);
  }

  // ---------------------------------------------------------------------------
  // Ordering the plans
  // ---------------------------------------------------------------------------

  /** Every plan starts no earlier than any plan after it. */
  predicate NewestFirst(ps: seq<Plan>) {
    forall i, j :: 0 <= i < j < |ps| ==> !Before(ps[i].startDate, ps[j].startDate)
  }

  /** `ps` with `p` placed before the first plan that starts no later than `p`. */
  function InsertNewestFirst(p: Plan, ps: seq<Plan>): (r: seq<Plan>)
    ensures multiset(r) == multiset(ps) + multiset{p}
  {
    if ps == [] || !Before(p.startDate, ps[0].startDate) then [p] + ps
    else
      assert ps == [ps[0]] + ps[1..];
      [ps[0]] + InsertNewestFirst(p, ps[1..])
  }

  /** `sorted(plans, key=start_date, reverse=True)`, as an insertion sort. */
  function SortNewestFirst(ps: seq<Plan>): (r: seq<Plan>)
    ensures multiset(r) == multiset(ps)
  {
    if ps == [] then []
    else
      assert ps == [ps[0]] + ps[1..];
      InsertNewestFirst(ps[0], SortNewestFirst(ps[1..]))
  }

  /** Inserting into a list that is newest first keeps it newest first. */
  lemma {:induction false} InsertKeepsNewestFirst(p: Plan, ps: seq<Plan>)
    requires NewestFirst(ps)
    ensures NewestFirst(InsertNewestFirst(p, ps))
  {
    if ps == [] || !Before(p.startDate, ps[0].startDate) {
      var r := [p] + ps;
      forall i, j | 0 <= i < j < |r| ensures !Before(r[i].startDate, r[j].startDate) {
        if i == 0 && j > 1 {
          assert !Before(ps[0].startDate, ps[j - 1].startDate);
        }
      }
    } else {
      var rec := InsertNewestFirst(p, ps[1..]);
      InsertKeepsNewestFirst(p, ps[1..]);
      InsertMembers(p, ps[1..]);
      var r := [ps[0]] + rec;
      forall j | 0 <= j < |rec| ensures !Before(ps[0].startDate, rec[j].startDate) {
        assert rec[j] in rec;
        if rec[j] != p {
          var k :| 0 <= k < |ps[1..]| && ps[1..][k] == rec[j];
          assert ps[k + 1] == rec[j];
        }
      }
      forall i, j | 0 <= i < j < |r| ensures !Before(r[i].startDate, r[j].startDate) {
        if i == 0 {
          assert r[j] == rec[j - 1];
        } else {
          assert r[i] == rec[i - 1] && r[j] == rec[j - 1];
        }
      }
    }
  }

  /** The plans of an insertion are the plan inserted and the plans inserted into. */
  lemma InsertMembers(p: Plan, ps: seq<Plan>)
    ensures forall q :: q in InsertNewestFirst(p, ps) ==> q == p || q in ps
  {
    var r := InsertNewestFirst(p, ps);
    forall q | q in r ensures q == p || q in ps {
      assert q in multiset(r);
    }
  }

  /** The sorted plans are the given plans, every one exactly once, newest first. */
  lemma {:induction false} SortIsNewestFirst(ps: seq<Plan>)
    ensures multiset(SortNewestFirst(ps)) == multiset(ps) && NewestFirst(SortNewestFirst(ps))
  {
    if ps != [] {
      SortIsNewestFirst(ps[1..]);
      InsertKeepsNewestFirst(ps[0], SortNewestFirst(ps[1..]));
    }
  }

  /** The plans of `ps` that start on `d`, in order. */
  function StartingOn(ps: seq<Plan>, d: Date): seq<Plan>
  {
    if ps == [] then []
    else (if ps[0].startDate == d then [ps[0]] else []) + StartingOn(ps[1..], d)
  }

  /** The plan inserted comes first among the plans starting on its day. */
  lemma {:induction false} InsertKeepsOrder(p: Plan, ps: seq<Plan>, d: Date)
    ensures StartingOn(InsertNewestFirst(p, ps), d) == StartingOn([p], d) + StartingOn(ps, d)
  {
    if ps == [] || !Before(p.startDate, ps[0].startDate) {
      assert ([p] + ps)[1..] == ps;
    } else {
      InsertKeepsOrder(p, ps[1..], d);
      var r := InsertNewestFirst(p, ps);
      assert r[1..] == InsertNewestFirst(p, ps[1..]);
      assert ps[0].startDate != p.startDate;
    }
  }

  /**
   * Sorting is stable, as Python's `sorted` is even with `reverse=True`: plans that
   * start on the same day keep their order.
   */
  lemma {:induction false} SortIsStable(ps: seq<Plan>, d: Date)
    ensures StartingOn(SortNewestFirst(ps), d) == StartingOn(ps, d)
  {
    if ps != [] {
      SortIsStable(ps[1..], d);
      InsertKeepsOrder(ps[0], SortNewestFirst(ps[1..]), d);
    }
  }

  // ---------------------------------------------------------------------------
  // The page
  // ---------------------------------------------------------------------------

  const NoPlans: string := "No plans found, cannot render index"

  /** The lines before the entries; `styleBlock` is the page's CSS block. */
  function IndexHead(styleBlock: string): seq<string>
  {
    HeadTop + [styleBlock] + HeadBottom
  }

  const HeadTop: seq<string> :=
    [ "<!DOCTYPE html>",
      "<html lang=\"de\">",
      "<head>",
      "  <meta charset=\"utf-8\" />",
      "  <meta name=\"viewport\" " + "content=\"width=device-width, " + "initial-scale=1\" />",
      "  <title>Ernaehrungsplaene</title>" ]

  const HeadBottom: seq<string> := ["</head>", "<body>", "  <h1>Rezepte</h1>", "  <div class=\"plan-list\">"]

  const IndexTail: seq<string> := ["  </div>", "</body>", "</html>"]

  const SummaryStart: string := "        <summary>"

  /** The summary line of a plan's entry: its ISO week label. */
  function Summary(p: Plan): string
  {
    SummaryStart + WeekLabel(p.isoWeek, p.isoYear) + "</summary>"
  }

  /** The lines of one plan's entry. */
  function Entry(p: Plan): seq<string>
  {
    EntryTop + [Summary(p)] + BodyOpen + Fragments(SplitLines(p.bodyHtml)) + EntryBottom
  }

  const EntryTop: seq<string> := ["    <section class=\"plan-entry\">", "      <details>"]
  const BodyOpen: seq<string> := ["        <div class=\"plan-body\">"]
  const EntryBottom: seq<string> := ["        </div>", "      </details>", "    </section>"]

  /** The entries of `ps`, in order. */
  function Entries(ps: seq<Plan>): seq<string>
  {
    if ps == [] then [] else Entries(ps[..|ps| - 1]) + Entry(ps[|ps| - 1])
  }

  /** `render_index(plans)`: the page text, or the error for an empty plan list. */
  function IndexPage(plans: seq<Plan>, styleBlock: string): Result<string>
  {
    if plans == [] then Err(NoPlans)
    else Ok(JoinLines(IndexHead(styleBlock) + Entries(SortNewestFirst(plans)) + IndexTail) + "\n")
  }

  /** The lines one plan adds to the page, built line by line. */
  method EntryLines(plan: Plan) returns (lines: seq<string>)
    ensures lines == Entry(plan)
  {
    lines := EntryTop + [Summary(plan)] + BodyOpen;
    var fragments := PlanFragmentLines(plan.bodyHtml);
    lines := lines + fragments;
    lines := lines + EntryBottom;
  }

  lemma EntriesStep(ps: seq<Plan>, i: nat)
    requires i < |ps|
    ensures Entries(ps[..i + 1]) == Entries(ps[..i]) + Entry(ps[i])
  {
    assert ps[..i + 1][..i] == ps[..i];
  }

  lemma AppendAssoc<T>(a: seq<T>, b: seq<T>, c: seq<T>)
    ensures a + b + c == a + (b + c)
  {
  }

  /** `render_index(plans)`, building the page line by line. */
  method RenderIndex(plans: seq<Plan>, styleBlock: string) returns (r: Result<string>)
    ensures r == IndexPage(plans, styleBlock)
  {
    if plans == [] {
      return Err(NoPlans);
    }
    var sortedPlans := SortNewestFirst(plans);
    var head := IndexHead(styleBlock);
    var lines := head;
    for i := 0 to |sortedPlans|
      invariant lines == head + Entries(sortedPlans[..i])
    {
      var entry := EntryLines(sortedPlans[i]);
      EntriesStep(sortedPlans, i);
      AppendAssoc(head, Entries(sortedPlans[..i]), entry);
      lines := lines + entry;
    }
    assert sortedPlans[..|sortedPlans|] == sortedPlans;
    lines := lines + IndexTail;
    r := Ok(JoinLines(lines) + "\n");
  }

  // ---------------------------------------------------------------------------
  // One entry per plan, newest first
  // ---------------------------------------------------------------------------

  /** The summary lines among `lines`, in order. */
  function SummaryLines(lines: seq<string>): seq<string>
  {
    if lines == [] then []
    else SummaryLines(lines[..|lines| - 1]) + (if StartsWith(lines[|lines| - 1], SummaryStart) then [lines[|lines| - 1]] else [])
  }

  lemma {:induction false} SummaryLinesAppend(a: seq<string>, b: seq<string>)
    ensures SummaryLines(a + b) == SummaryLines(a) + SummaryLines(b)
  {
    if b == [] {
      assert a + b == a;
    } else {
      var init := b[..|b| - 1];
      SummaryLinesAppend(a, init);
      assert (a + b)[..|a + b| - 1] == a + init;
    }
  }

  /** Lines none of which is a summary line contribute nothing. */
  lemma {:induction false} NoSummaryLines(lines: seq<string>)
    requires forall k :: 0 <= k < |lines| ==> !StartsWith(lines[k], SummaryStart)
    ensures SummaryLines(lines) == []
  {
    if lines != [] {
      NoSummaryLines(lines[..|lines| - 1]);
    }
  }

  /** A fragment line has a blank where a summary line has its tag. */
  lemma FragmentIsNoSummary(f: string)
    requires IsFragment(f)
    ensures !StartsWith(f, SummaryStart)
  {
    assert f[8] == FragmentIndent[8] == ' ';
    assert SummaryStart[8] == '<';
  }

  /** Each entry holds exactly one summary line, its plan's. */
  lemma EntrySummary(p: Plan)
    ensures SummaryLines(Entry(p)) == [Summary(p)]
  {
    var fs := Fragments(SplitLines(p.bodyHtml));
    FragmentsShape(SplitLines(p.bodyHtml));
    forall k | 0 <= k < |fs| ensures !StartsWith(fs[k], SummaryStart) {
      FragmentIsNoSummary(fs[k]);
    }
    NoSummaryLines(fs);
    FrameHasNoSummary();
    assert StartsWith(Summary(p), SummaryStart);
    assert SummaryLines([Summary(p)]) == [Summary(p)];
    SummaryLinesAppend(EntryTop, [Summary(p)]);
    SummaryLinesAppend(EntryTop + [Summary(p)], BodyOpen);
    SummaryLinesAppend(EntryTop + [Summary(p)] + BodyOpen, fs);
    SummaryLinesAppend(EntryTop + [Summary(p)] + BodyOpen + fs, EntryBottom);
  }

  /** A line that differs from the summary tag within its first characters is no summary line. */
  lemma DiffersFromSummary(s: string, k: nat)
    requires k < |s| && k < |SummaryStart| && s[k] != SummaryStart[k]
    ensures !StartsWith(s, SummaryStart)
  {
  }

  /** The fixed lines around a plan's summary and fragments hold no summary line. */
  lemma FrameHasNoSummary()
    ensures SummaryLines(EntryTop) == [] && SummaryLines(BodyOpen) == [] && SummaryLines(EntryBottom) == []
  {
    DiffersFromSummary(EntryTop[0], 4);
    DiffersFromSummary(EntryTop[1], 6);
    DiffersFromSummary(BodyOpen[0], 9);
    DiffersFromSummary(EntryBottom[0], 9);
    DiffersFromSummary(EntryBottom[1], 6);
    DiffersFromSummary(EntryBottom[2], 4);
    NoSummaryLines(EntryTop);
    NoSummaryLines(BodyOpen);
    NoSummaryLines(EntryBottom);
  }

  /** The summaries of `ps`, in order. */
  function Summaries(ps: seq<Plan>): (r: seq<string>)
    ensures |r| == |ps|
  {
    if ps == [] then [] else Summaries(ps[..|ps| - 1]) + [Summary(ps[|ps| - 1])]
  }

  lemma {:induction false} EntriesSummaries(ps: seq<Plan>)
    ensures SummaryLines(Entries(ps)) == Summaries(ps)
  {
    if ps != [] {
      var init := ps[..|ps| - 1];
      EntriesSummaries(init);
      SummaryLinesAppend(Entries(init), Entry(ps[|ps| - 1]));
      EntrySummary(ps[|ps| - 1]);
    }
  }

  /** The fixed lines before and after the entries hold no summary line. */
  lemma PageFrameHasNoSummary()
    ensures SummaryLines(HeadTop) == [] && SummaryLines(HeadBottom) == [] && SummaryLines(IndexTail) == []
  {
    DiffersFromSummary(HeadTop[0], 0);
    DiffersFromSummary(HeadTop[1], 0);
    DiffersFromSummary(HeadTop[2], 0);
    DiffersFromSummary(HeadTop[3], 2);
    DiffersFromSummary(HeadTop[4], 2);
    DiffersFromSummary(HeadTop[5], 2);
    NoSummaryLines(HeadTop);
    DiffersFromSummary(HeadBottom[0], 0);
    DiffersFromSummary(HeadBottom[1], 0);
    DiffersFromSummary(HeadBottom[2], 2);
    DiffersFromSummary(HeadBottom[3], 2);
    NoSummaryLines(HeadBottom);
    DiffersFromSummary(IndexTail[0], 2);
    DiffersFromSummary(IndexTail[1], 0);
    DiffersFromSummary(IndexTail[2], 0);
    NoSummaryLines(IndexTail);
  }

  /** With a style block that is no summary line, the page head holds none. */
  lemma HeadHasNoSummary(styleBlock: string)
    requires !StartsWith(styleBlock, SummaryStart)
    ensures SummaryLines(IndexHead(styleBlock)) == []
  {
    PageFrameHasNoSummary();
    NoSummaryLines([styleBlock]);
    SummaryLinesAppend(HeadTop, [styleBlock]);
    SummaryLinesAppend(HeadTop + [styleBlock], HeadBottom);
  }

  /**
   * The page lists one entry per plan, newest first: its summary lines are the week
   * labels of the plans sorted by start date, latest first, every plan exactly once.
   */
  lemma IndexListsPlansNewestFirst(plans: seq<Plan>, styleBlock: string)
    requires plans != [] && !StartsWith(styleBlock, SummaryStart)
    ensures var sorted := SortNewestFirst(plans);
      && SummaryLines(IndexHead(styleBlock) + Entries(sorted) + IndexTail) == Summaries(sorted)
      && multiset(sorted) == multiset(plans) && NewestFirst(sorted)
  {
    var sorted := SortNewestFirst(plans);
    SortIsNewestFirst(plans);
    var head := IndexHead(styleBlock);
    HeadHasNoSummary(styleBlock);
    PageFrameHasNoSummary();
    EntriesSummaries(sorted);
    SummaryLinesAppend(head, Entries(sorted));
    SummaryLinesAppend(head + Entries(sorted), IndexTail);
  }

  // ---------------------------------------------------------------------------
  // The page as text
  // ---------------------------------------------------------------------------

  /** The bold paragraph of a heading without line breaks has none. */
  lemma BoldHeadingNoLineBreak(stripped: string)
    requires NoLineBreak(stripped)
    ensures NoLineBreak(BoldHeading(stripped))
  {
    var once := ReplaceFirst(stripped, "<h3>", "");
    ReplaceFirstNoLineBreak(stripped, "<h3>", "");
    ReplaceFirstNoLineBreak(once, "</h3>", "");
    var inner := ReplaceFirst(once, "</h3>", "");
    NoLineBreakAppend("<p><strong>", inner);
    NoLineBreakAppend("<p><strong>" + inner, "</strong></p>");
  }

  /** What a line keeps is the line itself or its bold paragraph. */
  lemma KeptTextShape(stripped: string)
    ensures KeptText(stripped).Some? ==>
      KeptText(stripped).value == stripped || KeptText(stripped).value == BoldHeading(stripped)
  {
  }

  /** The fragment made of a line without line breaks has none. */
  lemma FragmentOfNoLineBreak(line: string)
    requires NoLineBreak(line)
    ensures FragmentOf(line).Some? ==> NoLineBreak(FragmentOf(line).value)
  {
    var stripped := LStrip(line);
    SuffixNoLineBreak(line, |line| - |stripped|);
    KeptNoLineBreak(stripped);
    if FragmentOf(line).Some? {
      IndentNoLineBreak();
      NoLineBreakAppend(FragmentIndent, KeptText(stripped).value);
    }
  }

  lemma KeptNoLineBreak(stripped: string)
    requires NoLineBreak(stripped)
    ensures KeptText(stripped).Some? ==> NoLineBreak(KeptText(stripped).value)
  {
    BoldHeadingNoLineBreak(stripped);
    KeptTextShape(stripped);
  }

  lemma IndentNoLineBreak()
    ensures NoLineBreak(FragmentIndent)
  {
  }

  lemma {:induction false} FragmentsNoLineBreaks(lines: seq<string>)
    requires NoLineBreaks(lines)
    ensures NoLineBreaks(Fragments(lines))
  {
    if lines != [] {
      var init := lines[..|lines| - 1];
      var last := lines[|lines| - 1];
      assert NoLineBreaks(init) by {
        forall k | 0 <= k < |init| ensures NoLineBreak(init[k]) {
          assert init[k] == lines[k];
        }
      }
      FragmentsNoLineBreaks(init);
      FragmentOfNoLineBreak(last);
      FragmentsSnoc(init, last);
      assert lines == init + [last];
      assert [last][..0] == [];
      NoLineBreaksAppend(Fragments(init), Fragments([last]));
    }
  }

  /** The fixed lines of the page hold no line break. */
  lemma HeadTopNoLineBreaks()
    ensures NoLineBreaks(HeadTop)
  {
    ShortHeadLinesNoLineBreak();
    CharsetNoLineBreak();
    ViewportNoLineBreak();
    TitleNoLineBreak();
  }

  lemma ShortHeadLinesNoLineBreak()
    ensures NoLineBreak("<!DOCTYPE html>") && NoLineBreak("<html lang=\"de\">") && NoLineBreak("<head>")
  {
  }

  lemma CharsetNoLineBreak()
    ensures NoLineBreak("  <meta charset=\"utf-8\" />")
  {
  }

  lemma ViewportNoLineBreak()
    ensures NoLineBreak("  <meta name=\"viewport\" " + "content=\"width=device-width, " + "initial-scale=1\" />")
  {
    assert NoLineBreak("  <meta name=\"viewport\" ");
    assert NoLineBreak("content=\"width=device-width, ");
    assert NoLineBreak("initial-scale=1\" />");
    NoLineBreakAppend("  <meta name=\"viewport\" ", "content=\"width=device-width, ");
    NoLineBreakAppend("  <meta name=\"viewport\" " + "content=\"width=device-width, ", "initial-scale=1\" />");
  }

  lemma TitleNoLineBreak()
    ensures NoLineBreak("  <title>Ernaehrungsplaene</title>")
  {
  }

  lemma HeadBottomNoLineBreaks()
    ensures NoLineBreaks(HeadBottom) && NoLineBreaks(IndexTail)
  {
    ShortTailLinesNoLineBreak();
    ListOpenNoLineBreak();
  }

  lemma ShortTailLinesNoLineBreak()
    ensures NoLineBreak("</head>") && NoLineBreak("<body>") && NoLineBreak("  <h1>Rezepte</h1>")
    ensures NoLineBreak("  </div>") && NoLineBreak("</body>") && NoLineBreak("</html>")
  {
    HeadingNoLineBreak();
  }

  lemma HeadingNoLineBreak()
    ensures NoLineBreak("  <h1>Rezepte</h1>")
  {
  }

  lemma ListOpenNoLineBreak()
    ensures NoLineBreak("  <div class=\"plan-list\">")
  {
  }

  lemma EntryFrameNoLineBreaks()
    ensures NoLineBreaks(EntryTop) && NoLineBreaks(BodyOpen) && NoLineBreaks(EntryBottom)
  {
    SectionOpenNoLineBreak();
    BodyOpenNoLineBreak();
    ShortEntryLinesNoLineBreak();
  }

  lemma SectionOpenNoLineBreak()
    ensures NoLineBreak("    <section class=\"plan-entry\">")
  {
  }

  lemma BodyOpenNoLineBreak()
    ensures NoLineBreak("        <div class=\"plan-body\">")
  {
  }

  lemma ShortEntryLinesNoLineBreak()
    ensures NoLineBreak("      <details>") && NoLineBreak("        </div>")
    ensures NoLineBreak("      </details>") && NoLineBreak("    </section>")
  {
  }

  lemma SummaryTagsNoLineBreak()
    ensures NoLineBreak(SummaryStart) && NoLineBreak("</summary>")
  {
  }

  lemma SummaryNoLineBreak(p: Plan)
    ensures NoLineBreak(Summary(p))
  {
    var weekLabel := WeekLabel(p.isoWeek, p.isoYear);
    WeekLabelNoLineBreak(p.isoWeek, p.isoYear);
    SummaryTagsNoLineBreak();
    NoLineBreakAppend(SummaryStart, weekLabel);
    NoLineBreakAppend(SummaryStart + weekLabel, "</summary>");
  }

  lemma EntryNoLineBreaks(p: Plan)
    ensures NoLineBreaks(Entry(p))
  {
    var fs := Fragments(SplitLines(p.bodyHtml));
    var top := EntryTop + [Summary(p)] + BodyOpen;
    SummaryNoLineBreak(p);
    FragmentsNoLineBreaks(SplitLines(p.bodyHtml));
    EntryFrameNoLineBreaks();
    NoLineBreaksAppend(EntryTop, [Summary(p)]);
    NoLineBreaksAppend(EntryTop + [Summary(p)], BodyOpen);
    NoLineBreaksAppend(top, fs);
    NoLineBreaksAppend(top + fs, EntryBottom);
    assert Entry(p) == top + fs + EntryBottom;
  }

  lemma {:induction false} EntriesNoLineBreaks(ps: seq<Plan>)
    ensures NoLineBreaks(Entries(ps))
  {
    if ps != [] {
      EntriesNoLineBreaks(ps[..|ps| - 1]);
      EntryNoLineBreaks(ps[|ps| - 1]);
      NoLineBreaksAppend(Entries(ps[..|ps| - 1]), Entry(ps[|ps| - 1]));
    }
  }

  /** The page's lines with the style block's own lines in its place. */
  function PageLines(sorted: seq<Plan>, styleLines: seq<string>): seq<string>
  {
    HeadTop + styleLines + (HeadBottom + Entries(sorted) + IndexTail)
  }

  /** The page text is the join of its lines, the style block's lines among them. */
  lemma PageTextLines(sorted: seq<Plan>, styleLines: seq<string>)
    requires styleLines != []
    ensures JoinLines(IndexHead(JoinLines(styleLines)) + Entries(sorted) + IndexTail) == JoinLines(PageLines(sorted, styleLines))
  {
    var rest := HeadBottom + Entries(sorted) + IndexTail;
    var style := JoinLines(styleLines);
    RegroupAfter(HeadTop, [style], HeadBottom, Entries(sorted), IndexTail);
    JoinLinesSplice(HeadTop, styleLines, rest);
  }

  lemma PageLinesNoLineBreaks(sorted: seq<Plan>, styleLines: seq<string>)
    requires NoLineBreaks(styleLines)
    ensures NoLineBreaks(PageLines(sorted, styleLines))
  {
    HeadTopNoLineBreaks();
    HeadBottomNoLineBreaks();
    EntriesNoLineBreaks(sorted);
    NoLineBreaksAppend(HeadBottom, Entries(sorted));
    NoLineBreaksAppend(HeadBottom + Entries(sorted), IndexTail);
    NoLineBreaksAppend(HeadTop, styleLines);
    NoLineBreaksAppend(HeadTop + styleLines, HeadBottom + Entries(sorted) + IndexTail);
  }

  lemma PageLinesSummaries(sorted: seq<Plan>, styleLines: seq<string>)
    requires forall k :: 0 <= k < |styleLines| ==> !StartsWith(styleLines[k], SummaryStart)
    ensures SummaryLines(PageLines(sorted, styleLines)) == Summaries(sorted)
  {
    PageFrameHasNoSummary();
    NoSummaryLines(styleLines);
    EntriesSummaries(sorted);
    SummaryLinesAppend(HeadBottom, Entries(sorted));
    SummaryLinesAppend(HeadBottom + Entries(sorted), IndexTail);
    SummaryLinesAppend(HeadTop, styleLines);
    SummaryLinesAppend(HeadTop + styleLines, HeadBottom + Entries(sorted) + IndexTail);
  }

  /**
   * Read back as lines, the page text lists one entry per plan, newest first: for a style
   * block made of lines none of which is a summary line, the summary lines of the page
   * text are the week labels of the plans sorted by start date, latest first, every plan
   * exactly once.
   */
  lemma IndexPageListsPlansNewestFirst(plans: seq<Plan>, styleLines: seq<string>)
    requires plans != [] && styleLines != [] && NoLineBreaks(styleLines)
    requires forall k :: 0 <= k < |styleLines| ==> !StartsWith(styleLines[k], SummaryStart)
    ensures IndexPage(plans, JoinLines(styleLines)).Ok?
    ensures var sorted := SortNewestFirst(plans);
      && SummaryLines(SplitLines(IndexPage(plans, JoinLines(styleLines)).value)) == Summaries(sorted)
      && multiset(sorted) == multiset(plans) && NewestFirst(sorted)
  {
    var sorted := SortNewestFirst(plans);
    SortIsNewestFirst(plans);
    var lines := PageLines(sorted, styleLines);
    PageTextLines(sorted, styleLines);
    PageLinesNoLineBreaks(sorted, styleLines);
    SplitJoinLinesNewline(lines);
    PageLinesSummaries(sorted, styleLines);
  }
}
