/**
 * The plan-text converter: the title is the first non-empty line, and every other
 * line is classified and turned into HTML lines by a small state machine that tracks
 * whether a `<section>` and a `<ul>` are open and whether the bullets being read are
 * ingredients (collected for the shopping list).
 */
module Converter {
  import opened Wrappers
  import opened Text
  import opened HtmlEscape
  import opened Markup

  /** Labels that start a section of their own. */
  const SectionHeadings: set<string> := {"Zwischenmahlzeiten-Empfehlung", "Getraenke-Tipp", "Allgemeine Hinweise"}

  /** Labels rendered as a bold label paragraph. */
  const EmphasisHeadings: set<string> := {"Zubereitungszeit", "Zubereitung", "Naehrwertfokus", "Batch-Tipp", "Thermomix"}

  /** The label that starts an ingredient list. */
  const IngredientsLabel: string := "Zutaten"

  /** The emphasis label after which the collected ingredients are listed for shopping. */
  const DeviceLabel: string := "Thermomix"

  // ---------------------------------------------------------------------------
  // Classifying one (stripped) line
  // ---------------------------------------------------------------------------

  /** How a line is rendered, in the order the converter tests for each shape. */
  datatype LineKind =
    | Blank
    | MealHeading(name: string)
    | Bullet(item: string)
    | SectionLabel(key: string, value: string)
    | Ingredients(value: string)
    | EmphasisLabel(key: string, value: string)
    | GenericLabel(key: string, value: string)
    | Plain

  /** The meal name of a `Gericht ` line: the trimmed text after its first colon, or "" without one. */
  function MealName(line: string): string
  {
    if ':' in line then Strip(SplitFirst(line, ':').1) else ""
  }

  /** `[segment.strip() for segment in line.split(":", 1)]`: the trimmed label and value. */
  function LabelOf(line: string): (string, string)
    requires ':' in line
  {
    var (before, after) := SplitFirst(line, ':');
    (Strip(before), Strip(after))
  }

  function Classify(line: string): LineKind
  {
    if line == "" then Blank
    else if StartsWith(line, "Gericht ") then MealHeading(MealName(line))
    else if StartsWith(line, "- ") then Bullet(Strip(line[2..]))
    else if ':' in line then ClassifyLabel(LabelOf(line).0, LabelOf(line).1)
    else Plain
  }

  /** How a `label: value` line is rendered, by its trimmed label and value. */
  function ClassifyLabel(key: string, value: string): (k: LineKind)
    ensures k != Blank && !k.MealHeading? && !k.Bullet?
  {
    if key in SectionHeadings then SectionLabel(key, value)
    else if key == IngredientsLabel then Ingredients(value)
    else if key in EmphasisHeadings then EmphasisLabel(key, value)
    else if value != "" then GenericLabel(key, value)
    else Plain
  }

  /** A line that falls through every labelled case: no colon, or an unknown label with nothing after it. */
  predicate FallsThrough(line: string) {
    ':' !in line
    || (var (key, value) := LabelOf(line);
        key !in SectionHeadings && key != IngredientsLabel && key !in EmphasisHeadings && value == "")
  }

  /**
   * The classification follows a fixed priority: blank lines first, then meal headings,
   * bullets, the three label families in the order section, ingredients, emphasis,
   * then any other label with a value, and everything else is a plain paragraph.
   */
  lemma ClassifyMarkedLines(line: string)
    ensures Classify(line) == Blank <==> line == ""
    ensures Classify(line).MealHeading? <==> StartsWith(line, "Gericht ")
    ensures Classify(line).Bullet? <==> StartsWith(line, "- ")
  {
    BulletIsNotMeal(line);
  }

  /**
   * The three label families are disjoint, so each label is classified by the family it
   * belongs to; an unknown label is a generic label paragraph when it has a value.
   */
  lemma ClassifyLabelFamilies(key: string, value: string)
    ensures ClassifyLabel(key, value).SectionLabel? <==> key in SectionHeadings
    ensures ClassifyLabel(key, value).Ingredients? <==> key == IngredientsLabel
    ensures ClassifyLabel(key, value).EmphasisLabel? <==> key in EmphasisHeadings
    ensures ClassifyLabel(key, value).GenericLabel? <==>
      (key !in SectionHeadings && key != IngredientsLabel && key !in EmphasisHeadings && value != "")
  {
  }

  /** Among the other lines, labels are tested in the order section, ingredients, emphasis, then the rest. */
  lemma ClassifyLabelledLines(line: string)
    ensures Classify(line).SectionLabel? <==> (HasLabel(line) && LabelOf(line).0 in SectionHeadings)
    ensures Classify(line).Ingredients? <==> (HasLabel(line) && LabelOf(line).0 == IngredientsLabel)
    ensures Classify(line).EmphasisLabel? <==> (HasLabel(line) && LabelOf(line).0 in EmphasisHeadings)
    ensures Classify(line) == Plain <==> (Unmarked(line) && FallsThrough(line))
  {
    BulletIsNotMeal(line);
    if HasLabel(line) {
      assert Classify(line) == ClassifyLabel(LabelOf(line).0, LabelOf(line).1);
      ClassifyLabelFamilies(LabelOf(line).0, LabelOf(line).1);
    } else if Unmarked(line) {
      assert Classify(line) == Plain;
    } else {
      ClassifyMarkedLines(line);
    }
  }

  /** A non-empty line that is neither a meal heading nor a bullet. */
  predicate Unmarked(line: string) {
    line != "" && !StartsWith(line, "Gericht ") && !StartsWith(line, "- ")
  }

  /** An unmarked line with a colon, so a `label: value` line. */
  predicate HasLabel(line: string) {
    Unmarked(line) && ':' in line
  }

  /** A `label: value` line is classified by its trimmed label and value. */
  lemma ClassifyLabelLine(line: string)
    requires HasLabel(line)
    ensures Classify(line) == ClassifyLabel(LabelOf(line).0, LabelOf(line).1)
  {
    BulletIsNotMeal(line);
  }

  /** The device label is one of the emphasis labels, and of no other family. */
  lemma DeviceIsEmphasis()
    ensures DeviceLabel in EmphasisHeadings && DeviceLabel !in SectionHeadings && DeviceLabel != IngredientsLabel
  {
  }

  /** Meal names come out trimmed. */
  lemma MealNameTrimmed(line: string)
    ensures Strip(MealName(line)) == MealName(line)
  {
    if ':' in line {
      StripIdempotent(SplitFirst(line, ':').1);
    }
  }

  lemma BulletIsNotMeal(line: string)
    ensures StartsWith(line, "- ") ==> !StartsWith(line, "Gericht ")
  {
    if StartsWith(line, "- ") && |line| >= 8 {
      assert line[0] == '-' by { assert line[..2] == "- "; }
      assert line[..8][0] == '-';
      assert "Gericht "[0] == 'G';
    }
  }

  // ---------------------------------------------------------------------------
  // The state machine as functions
  // ---------------------------------------------------------------------------

  /** The converter's state: the three flags, the pending ingredients, and the output so far. */
  datatype ConvState = ConvState(
    openSection: bool,
    openList: bool,
    inIngredients: bool,
    ingredients: seq<string>,
    parts: seq<Html>,
    meals: seq<string>)

  /** The state before the first body line: only the week paragraph has been emitted. */
  function InitState(isoWeek: nat, isoYear: nat): ConvState
  {
    ConvState(false, false, false, [], [WeekPara(isoWeek, isoYear)], [])
  }

  /** `ensure_section()`. */
  function EnsuredSection(st: ConvState): ConvState
  {
    if st.openSection then st else st.(parts := st.parts + [SectionOpen], openSection := true)
  }

  /** `close_list()`. */
  function ClosedList(st: ConvState): ConvState
  {
    if st.openList then st.(parts := st.parts + [ListClose], openList := false) else st
  }

  /** `close_section()`. */
  function ClosedSection(st: ConvState): ConvState
  {
    if st.openSection then
      var s := ClosedList(st);
      s.(parts := s.parts + [SectionClose], openSection := false)
    else st
  }

  /** A value paragraph, emitted only when the value is not empty. */
  function ValuePara(value: string): seq<Html>
  {
    if value != "" then [Para(value)] else []
  }

  /** The state after one body line. */
  function Step(st: ConvState, line: string): ConvState
  {
    StepAs(st, line, Classify(line))
  }

  /** Blank lines, meal headings and bullets are told apart by their first characters. */
  lemma StepOfMarkedLine(st: ConvState, line: string)
    ensures line == "" ==> Step(st, line) == BlankStep(st)
    ensures StartsWith(line, "Gericht ") ==> Step(st, line) == MealStep(st, line, MealName(line))
    ensures StartsWith(line, "- ") ==> Step(st, line) == BulletStep(st, Strip(line[2..]))
  {
    BulletIsNotMeal(line);
  }

  /** The state after one body line of kind `kind`. */
  function StepAs(st: ConvState, line: string, kind: LineKind): ConvState
  {
    match kind
    case Blank => BlankStep(st)
    case MealHeading(name) => MealStep(st, line, name)
    case Bullet(item) => BulletStep(st, item)
    case SectionLabel(key, value) => SectionStep(st, key, value)
    case Ingredients(value) => IngredientsStep(st, value)
    case EmphasisLabel(key, value) => EmphasisStep(st, key, value)
    case GenericLabel(key, value) => ParagraphStep(st, Labelled(key, value))
    case Plain => ParagraphStep(st, Para(line))
  }

  /** A blank line closes the list and ends the ingredients, but not the section. */
  function BlankStep(st: ConvState): ConvState
  {
    ClosedList(st).(inIngredients := false)
  }

  /** A meal heading closes the section and opens a new one headed by the whole line. */
  function MealStep(st: ConvState, line: string, name: string): ConvState
  {
    var s := ClosedSection(st);
    s.(parts := s.parts + [SectionOpen, Heading2(line)],
       meals := if name != "" then s.meals + [name] else s.meals,
       openSection := true, ingredients := [], inIngredients := false)
  }

  /** A bullet becomes a list item, opening the section and the list if needed. */
  function BulletStep(st: ConvState, item: string): ConvState
  {
    var s := EnsuredSection(st);
    var s' := if s.openList then s else s.(parts := s.parts + [ListOpen], openList := true);
    s'.(parts := s'.parts + [Item(item)],
        ingredients := if s'.inIngredients then s'.ingredients + [item] else s'.ingredients)
  }

  /** A section label closes the section and opens a new one headed by the label. */
  function SectionStep(st: ConvState, key: string, value: string): ConvState
  {
    var s := ClosedSection(st);
    s.(parts := s.parts + [SectionOpen, Heading2(key)] + ValuePara(value),
       openSection := true, inIngredients := false, ingredients := [])
  }

  /** The ingredients label starts collecting ingredients afresh. */
  function IngredientsStep(st: ConvState, value: string): ConvState
  {
    var s := ClosedList(EnsuredSection(st));
    s.(parts := s.parts + [Heading3(IngredientsLabel)] + ValuePara(value),
       inIngredients := true, ingredients := [])
  }

  /** An emphasis label; the device label also lists and clears the collected ingredients. */
  function EmphasisStep(st: ConvState, key: string, value: string): ConvState
  {
    var s := ClosedList(EnsuredSection(st));
    var s' := s.(parts := s.parts + [if value != "" then Labelled(key, value) else LabelOnly(key)]);
    if key == DeviceLabel && s'.ingredients != [] then
      s'.(parts := s'.parts + [ShoppingList(s'.ingredients)], ingredients := [])
    else s'
  }

  /** Any other line becomes one paragraph inside a section, outside any list. */
  function ParagraphStep(st: ConvState, para: Html): ConvState
  {
    var s := ClosedList(EnsuredSection(st));
    s.(parts := s.parts + [para])
  }

  /** The state after the body lines `lines`, read in order. */
  function Run(st: ConvState, lines: seq<string>): ConvState
  {
    if lines == [] then st else Step(Run(st, lines[..|lines| - 1]), lines[|lines| - 1])
  }

  /** The HTML lines of a plan body: the state machine's output after the final `close_section()`. */
  function BodyParts(body: seq<string>, isoWeek: nat, isoYear: nat): seq<Html>
  {
    ClosedSection(Run(InitState(isoWeek, isoYear), body)).parts
  }

  // ---------------------------------------------------------------------------
  // Title extraction and the whole conversion
  // ---------------------------------------------------------------------------

  /** `[line.strip() for line in lines]`. */
  function StripAll(lines: seq<string>): (r: seq<string>)
    ensures |r| == |lines| && forall k :: 0 <= k < |lines| ==> r[k] == Strip(lines[k])
  {
    if lines == [] then [] else [Strip(lines[0])] + StripAll(lines[1..])
  }

  /** The title (or "" when there is none) and the remaining lines, as the first loop computes them. */
  function ExtractTitle(lines: seq<string>): (string, seq<string>)
  {
    if lines == [] then ("", [])
    else
      var (title, body) := ExtractTitle(lines[..|lines| - 1]);
      var line := lines[|lines| - 1];
      if title == "" && line != "" then (line, body) else (title, body + [line])
  }

  /** Index of the first non-empty line, or `|lines|` when all are empty. */
  function FirstNonEmpty(lines: seq<string>): (k: nat)
    ensures k <= |lines| && (k < |lines| ==> lines[k] != "")
    ensures forall j :: 0 <= j < k ==> lines[j] == ""
  {
    if lines == [] || lines[0] != "" then 0 else 1 + FirstNonEmpty(lines[1..])
  }

  /**
   * The title is the first non-empty line, and exactly that one line is taken out of
   * the body; when every line is empty there is no title and the body is everything.
   */
  lemma {:induction false} TitleIsFirstNonEmptyLine(lines: seq<string>)
    ensures var k := FirstNonEmpty(lines);
      ExtractTitle(lines) == if k < |lines| then (lines[k], lines[..k] + lines[k + 1..]) else ("", lines)
  {
    if lines != [] {
      var init := lines[..|lines| - 1];
      var last := lines[|lines| - 1];
      TitleIsFirstNonEmptyLine(init);
      var k := FirstNonEmpty(init);
      FirstNonEmptyPrefix(lines, init);
      assert lines == init + [last];
      if k < |init| {
        assert FirstNonEmpty(lines) == k;
        assert init[k] != "" && lines[k] == init[k];
        assert ExtractTitle(lines) == (init[k], init[..k] + init[k + 1..] + [last]);
        assert init[..k] == lines[..k];
        DropAppend(init, [last], k + 1);
        assert lines[..k] + lines[k + 1..] == init[..k] + init[k + 1..] + [last];
      } else if last != "" {
        assert FirstNonEmpty(lines) == k && lines[k] == last;
        assert ExtractTitle(lines) == (last, init);
        assert lines[..k] == init;
        assert lines[k + 1..] == [];
        assert lines[..k] + lines[k + 1..] == init;
      } else {
        assert FirstNonEmpty(lines) == |lines|;
        assert ExtractTitle(lines) == ("", init + [last]);
      }
    }
  }

  lemma DropAppend<T>(a: seq<T>, b: seq<T>, n: nat)
    requires n <= |a|
    ensures (a + b)[n..] == a[n..] + b
  {
    assert forall j :: 0 <= j < |a| - n + |b| ==> (a + b)[n..][j] == (a[n..] + b)[j];
  }

  /** Extending a list keeps its first non-empty line, if it had one. */
  lemma FirstNonEmptyPrefix(lines: seq<string>, init: seq<string>)
    requires lines != [] && init == lines[..|lines| - 1]
    ensures FirstNonEmpty(init) < |init| ==> FirstNonEmpty(lines) == FirstNonEmpty(init)
    ensures FirstNonEmpty(init) == |init| ==>
      FirstNonEmpty(lines) == if lines[|init|] != "" then |init| else |lines|
  {
    var k := FirstNonEmpty(init);
    var m := FirstNonEmpty(lines);
    assert forall j :: 0 <= j < |init| ==> lines[j] == init[j];
    assert m < |init| ==> init[m] != "";
    assert k < |init| ==> lines[k] != "";
  }

  /** The result of a conversion: the title, the body HTML and the meal names. */
  datatype Converted = Converted(title: string, bodyHtml: string, mealNames: seq<string>)

  const MissingTitle: string := "Plan text must contain a title on the first non-empty line"

  /** `convert_plan_text(raw_text, start_date)` for a start date in ISO week `isoWeek` of `isoYear`. */
  function ConvertSpec(rawText: string, isoWeek: nat, isoYear: nat): Result<Converted>
  {
    ConvertLines(StripAll(SplitLines(rawText)), isoWeek, isoYear)
  }

  /** The conversion of the trimmed lines of a plan text. */
  function ConvertLines(lines: seq<string>, isoWeek: nat, isoYear: nat): Result<Converted>
  {
    var (title, body) := ExtractTitle(lines);
    if title == "" then Err(MissingTitle) else Ok(ConvertBody(title, body, isoWeek, isoYear))
  }

  /** The conversion of a plan with title `title` and body lines `body`. */
  function ConvertBody(title: string, body: seq<string>, isoWeek: nat, isoYear: nat): Converted
  {
    var final := ClosedSection(Run(InitState(isoWeek, isoYear), body));
    Converted(title, JoinLines(RenderAll(final.parts)), final.meals)
  }

  // ---------------------------------------------------------------------------
  // The converter as the program runs it
  // ---------------------------------------------------------------------------

  /** The locals of one conversion, which the nested helpers update in place. */
  class PlanConverter {
    var parts: seq<Html>
    var mealNames: seq<string>
    var openSection: bool
    var openList: bool
    var inIngredientSection: bool
    var currentIngredients: seq<string>

    function State(): ConvState
      reads this
    {
      ConvState(openSection, openList, inIngredientSection, currentIngredients, parts, mealNames)
    }

    constructor (isoWeek: nat, isoYear: nat)
      ensures State() == InitState(isoWeek, isoYear)
    {
      parts := [WeekPara(isoWeek, isoYear)];
      mealNames := [];
      openSection := false;
      openList := false;
      inIngredientSection := false;
      currentIngredients := [];
    }

    method EnsureSection()
      modifies this
      ensures State() == EnsuredSection(old(State()))
    {
      if !openSection {
        parts := parts + [SectionOpen];
        openSection := true;
      }
    }

    method CloseList()
      modifies this
      ensures State() == ClosedList(old(State()))
    {
      if openList {
        parts := parts + [ListClose];
        openList := false;
      }
    }

    method CloseSection()
      modifies this
      ensures State() == ClosedSection(old(State()))
    {
      if openSection {
        CloseList();
        parts := parts + [SectionClose];
        openSection := false;
      }
    }

    /** One iteration of the loop over the body lines. */
    method ProcessLine(line: string)
      modifies this
      ensures State() == Step(old(State()), line)
    {
      ghost var st0 := State();
      StepOfMarkedLine(st0, line);
      if line == "" {
        CloseList();
        inIngredientSection := false;
        return;
      }
      if StartsWith(line, "Gericht ") {
        ProcessMealHeading(line);
        return;
      }
      if StartsWith(line, "- ") {
        var itemText := Strip(line[2..]);
        ProcessBullet(itemText);
        return;
      }
      ProcessOtherLine(line);
    }

    /** The rest of the loop body, for a line that is neither blank, a meal heading nor a bullet. */
    method ProcessOtherLine(line: string)
      requires Unmarked(line)
      modifies this
      ensures State() == Step(old(State()), line)
    {
      if ':' in line {
        ProcessLabelLine(line);
      } else {
        assert Classify(line) == Plain;
        ProcessParagraph(Para(line));
      }
    }

    /** A `label: value` line, dispatched on its trimmed label and value. */
    method ProcessLabelLine(line: string)
      requires HasLabel(line)
      modifies this
      ensures State() == Step(old(State()), line)
    {
      ghost var st0 := State();
      var (key, value) := LabelOf(line);
      assert Step(st0, line) == match ClassifyLabel(key, value)
        case SectionLabel(k, v) => SectionStep(st0, k, v)
        case Ingredients(v) => IngredientsStep(st0, v)
        case EmphasisLabel(k, v) => EmphasisStep(st0, k, v)
        case GenericLabel(k, v) => ParagraphStep(st0, Labelled(k, v))
        case _ => ParagraphStep(st0, Para(line));
      if key in SectionHeadings {
        ProcessSectionLabel(key, value);
      } else if key == IngredientsLabel {
        ProcessIngredientsLabel(key, value);
      } else if key in EmphasisHeadings {
        ProcessEmphasisLabel(key, value);
      } else if value != "" {
        ProcessParagraph(Labelled(key, value));
      } else {
        ProcessParagraph(Para(line));
      }
    }

    /** A paragraph line: inside a section, outside any list. */
    method ProcessParagraph(para: Html)
      modifies this
      ensures State() == ParagraphStep(old(State()), para)
    {
      EnsureSection();
      CloseList();
      parts := parts + [para];
    }

    method ProcessMealHeading(line: string)
      modifies this
      ensures State() == MealStep(old(State()), line, MealName(line))
    {
      var name := MealName(line);
      CloseSection();
      parts := parts + [SectionOpen, Heading2(line)];
      if name != "" {
        mealNames := mealNames + [name];
      }
      openSection := true;
      currentIngredients := [];
      inIngredientSection := false;
    }

    method ProcessBullet(itemText: string)
      modifies this
      ensures State() == BulletStep(old(State()), itemText)
    {
      EnsureSection();
      if !openList {
        parts := parts + [ListOpen];
        openList := true;
      }
      parts := parts + [Item(itemText)];
      if inIngredientSection {
        currentIngredients := currentIngredients + [itemText];
      }
    }

    method ProcessSectionLabel(key: string, value: string)
      modifies this
      ensures State() == SectionStep(old(State()), key, value)
    {
      CloseSection();
      parts := parts + [SectionOpen, Heading2(key)];
      openSection := true;
      if value != "" {
        parts := parts + [Para(value)];
      }
      inIngredientSection := false;
      currentIngredients := [];
    }

    method ProcessIngredientsLabel(key: string, value: string)
      requires key == IngredientsLabel
      modifies this
      ensures State() == IngredientsStep(old(State()), value)
    {
      EnsureSection();
      CloseList();
      parts := parts + [Heading3(key)];
      if value != "" {
        parts := parts + [Para(value)];
      }
      inIngredientSection := true;
      currentIngredients := [];
    }

    method ProcessEmphasisLabel(key: string, value: string)
      modifies this
      ensures State() == EmphasisStep(old(State()), key, value)
    {
      EnsureSection();
      CloseList();
      if value != "" {
        parts := parts + [Labelled(key, value)];
      } else {
        parts := parts + [LabelOnly(key)];
      }
      if key == DeviceLabel && currentIngredients != [] {
        parts := parts + [ShoppingList(currentIngredients)];
        currentIngredients := [];
      }
    }
  }

  /** The first loop of the conversion: take out the first non-empty line as the title. */
  method SplitTitle(lines: seq<string>) returns (title: string, bodyLines: seq<string>)
    ensures (title, bodyLines) == ExtractTitle(lines)
  {
    title := "";
    bodyLines := [];
    for i := 0 to |lines|
      invariant (title, bodyLines) == ExtractTitle(lines[..i])
    {
      assert lines[..i + 1][..i] == lines[..i];
      var line := lines[i];
      if title == "" && line != "" {
        title := line;
        continue;
      }
      bodyLines := bodyLines + [line];
    }
    assert lines[..|lines|] == lines;
  }

  /** `convert_plan_text`: the title, the body HTML and the meal names, or the missing-title error. */
  method ConvertPlanText(rawText: string, isoWeek: nat, isoYear: nat) returns (r: Result<Converted>)
    ensures r == ConvertSpec(rawText, isoWeek, isoYear)
  {
    var lines := StripAll(SplitLines(rawText));
    var title, bodyLines := SplitTitle(lines);
    if title == "" {
      return Err(MissingTitle);
    }
    var converter := new PlanConverter(isoWeek, isoYear);
    for i := 0 to |bodyLines|
      invariant converter.State() == Run(InitState(isoWeek, isoYear), bodyLines[..i])
    {
      assert bodyLines[..i + 1][..i] == bodyLines[..i];
      converter.ProcessLine(bodyLines[i]);
    }
    assert bodyLines[..|bodyLines|] == bodyLines;
    converter.CloseSection();
    r := Ok(Converted(title, JoinLines(RenderAll(converter.parts)), converter.mealNames));
  }
}
