/**
 * From a converted plan to its entry in the overview: the HTML body the converter
 * emits, split back into lines, is exactly the list of rendered parts, so the
 * overview's fragments can be read off the parts themselves.
 */
module Overview {
  import opened Wrappers
  import opened Text
  import opened Markup
  import opened Converter
  import opened ConverterFacts
  import opened Index

  /** The overview fragments of a converted plan are the fragments of its rendered parts. */
  lemma OverviewOfConvertedPlan(rawText: string, isoWeek: nat, isoYear: nat)
    requires ConvertSpec(rawText, isoWeek, isoYear).Ok?
    ensures var parts := BodyParts(BodyLines(rawText), isoWeek, isoYear);
      Fragments(SplitLines(ConvertSpec(rawText, isoWeek, isoYear).value.bodyHtml)) == Fragments(RenderAll(parts))
  {
    var parts := BodyParts(BodyLines(rawText), isoWeek, isoYear);
    var lines := RenderAll(parts);
    ConvertedLines(rawText, isoWeek, isoYear);
    RenderAllSingleLine(parts);
    assert lines[|lines| - 1] != "";
    FragmentsOfJoinedLines(lines);
  }

  lemma FragmentsOfDropped(line: string)
    requires FragmentOf(line) == None
    ensures Fragments([line]) == []
  {
    assert [line][..0] == [];
  }

  /**
   * The week paragraph, the converter's first part, never reaches the overview: the
   * fragments of a converted plan are those of the parts after it.
   */
  lemma WeekParaDropped(rawText: string, isoWeek: nat, isoYear: nat)
    requires ConvertSpec(rawText, isoWeek, isoYear).Ok?
    ensures var parts := BodyParts(BodyLines(rawText), isoWeek, isoYear);
      && |parts| >= 1
      && Fragments(SplitLines(ConvertSpec(rawText, isoWeek, isoYear).value.bodyHtml)) == Fragments(RenderAll(parts[1..]))
  {
    var parts := BodyParts(BodyLines(rawText), isoWeek, isoYear);
    OverviewOfConvertedPlan(rawText, isoWeek, isoYear);
    ConvertedLines(rawText, isoWeek, isoYear);
    assert RenderAll(parts) == [Render(parts[0])] + RenderAll(parts[1..]);
    FragmentsAppend([Render(parts[0])], RenderAll(parts[1..]));
    WeekParaLineDropped(isoWeek, isoYear);
    FragmentsOfDropped(Render(parts[0]));
  }

  /**
   * So does every other paragraph of the plan whose text starts with `KW `: the fragments
   * of a converted plan are those of the parts before it followed by those after it.
   */
  lemma KwParagraphDropped(rawText: string, isoWeek: nat, isoYear: nat, k: nat)
    requires ConvertSpec(rawText, isoWeek, isoYear).Ok?
    requires var parts := BodyParts(BodyLines(rawText), isoWeek, isoYear);
      k < |parts| && parts[k].Para? && StartsWith(parts[k].text, "KW ")
    ensures var parts := BodyParts(BodyLines(rawText), isoWeek, isoYear);
      Fragments(SplitLines(ConvertSpec(rawText, isoWeek, isoYear).value.bodyHtml))
      == Fragments(RenderAll(parts[..k])) + Fragments(RenderAll(parts[k + 1..]))
  {
    OverviewOfConvertedPlan(rawText, isoWeek, isoYear);
    KwPartDropped(BodyParts(BodyLines(rawText), isoWeek, isoYear), k);
  }

  lemma KwPartDropped(parts: seq<Html>, k: nat)
    requires k < |parts| && parts[k].Para? && StartsWith(parts[k].text, "KW ")
    ensures Fragments(RenderAll(parts)) == Fragments(RenderAll(parts[..k])) + Fragments(RenderAll(parts[k + 1..]))
  {
    KwParaLine(parts[k]);
    RenderAllSlices(parts, k);
    DroppedLine(RenderAll(parts), k);
  }

  lemma KwParaLine(h: Html)
    requires h.Para? && StartsWith(h.text, "KW ")
    ensures FragmentOf(Render(h)) == None
  {
    var rest := h.text[3..];
    assert h.text == "KW " + rest;
    assert h == Para("KW " + rest);
    KwParagraphLineDropped(rest);
  }
}
