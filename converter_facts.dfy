/**
 * What the converter guarantees about the HTML it emits: the tags nest properly,
 * the week paragraph comes first, the meal names are those of the meal headings,
 * the collected ingredients reach the shopping list, and a plan without a title is
 * refused.
 */
module ConverterFacts {
  import opened Wrappers
  import opened Text
  import opened Markup
  import opened Converter

  // ---------------------------------------------------------------------------
  // The flags track the nesting of the emitted lines
  // ---------------------------------------------------------------------------

  /** The two flags say exactly which tags the emitted lines leave open. */
  predicate Inv(st: ConvState) {
    (st.openList ==> st.openSection) && Nest(st.parts) == Some(Nesting(st.openSection, st.openList))
  }

  /** A line that may stand in a section outside its list. */
  predicate IsContent(h: Html) {
    h.Heading2? || h.Heading3? || h.Para? || h.Labelled? || h.LabelOnly? || h.ShoppingList?
  }

  lemma InitInv(isoWeek: nat, isoYear: nat)
    ensures Inv(InitState(isoWeek, isoYear))
  {
    NestAppend([], WeekPara(isoWeek, isoYear));
  }

  lemma EnsuredSectionInv(st: ConvState)
    requires Inv(st)
    ensures var s := EnsuredSection(st);
      Inv(s) && s.openSection && s.openList == st.openList && s.inIngredients == st.inIngredients
      && s.ingredients == st.ingredients && s.meals == st.meals
  {
    if !st.openSection {
      NestAppend(st.parts, SectionOpen);
    }
  }

  lemma ClosedListInv(st: ConvState)
    requires Inv(st)
    ensures var s := ClosedList(st);
      Inv(s) && !s.openList && s.openSection == st.openSection && s.inIngredients == st.inIngredients
      && s.ingredients == st.ingredients && s.meals == st.meals
  {
    if st.openList {
      NestAppend(st.parts, ListClose);
    }
  }

  /** `close_section()` leaves every tag closed. */
  lemma ClosedSectionInv(st: ConvState)
    requires Inv(st)
    ensures var s := ClosedSection(st);
      Inv(s) && !s.openSection && !s.openList && WellNested(s.parts)
      && s.ingredients == st.ingredients && s.meals == st.meals
  {
    if st.openSection {
      ClosedListInv(st);
      NestAppend(ClosedList(st).parts, SectionClose);
    }
  }

  /** Content lines keep a section open with no list in it. */
  lemma {:induction false} AppendContent(parts: seq<Html>, hs: seq<Html>)
    requires Nest(parts) == Some(Nesting(true, false))
    requires forall k :: 0 <= k < |hs| ==> IsContent(hs[k])
    ensures Nest(parts + hs) == Some(Nesting(true, false))
  {
    if hs != [] {
      var init := hs[..|hs| - 1];
      assert forall k :: 0 <= k < |init| ==> init[k] == hs[k];
      AppendContent(parts, init);
      var last := hs[|hs| - 1];
      assert hs == init + [last];
      assert parts + hs == (parts + init) + [last];
      NestAppend(parts + init, last);
      assert IsContent(last);
      assert NestStep(Nesting(true, false), last) == Some(Nesting(true, false));
    } else {
      assert parts + hs == parts;
    }
  }

  /** A new section opened at the top level, followed by content lines. */
  lemma OpenSectionWith(parts: seq<Html>, hs: seq<Html>)
    requires WellNested(parts)
    requires forall k :: 0 <= k < |hs| ==> IsContent(hs[k])
    ensures Nest(parts + [SectionOpen] + hs) == Some(Nesting(true, false))
  {
    NestAppend(parts, SectionOpen);
    AppendContent(parts + [SectionOpen], hs);
  }

  lemma MealStepInv(st: ConvState, line: string, name: string)
    requires Inv(st)
    ensures Inv(MealStep(st, line, name))
  {
    var s := ClosedSection(st);
    ClosedSectionInv(st);
    OpenSectionWith(s.parts, [Heading2(line)]);
    assert s.parts + [SectionOpen, Heading2(line)] == s.parts + [SectionOpen] + [Heading2(line)];
  }

  lemma SectionStepInv(st: ConvState, key: string, value: string)
    requires Inv(st)
    ensures Inv(SectionStep(st, key, value))
  {
    var s := ClosedSection(st);
    ClosedSectionInv(st);
    var hs := [Heading2(key)] + ValuePara(value);
    OpenSectionWith(s.parts, hs);
    assert s.parts + [SectionOpen, Heading2(key)] + ValuePara(value) == s.parts + [SectionOpen] + hs;
  }

  /** The state after `ensure_section()` and `close_list()`: inside a section, outside any list. */
  lemma InSectionInv(st: ConvState)
    requires Inv(st)
    ensures var s := ClosedList(EnsuredSection(st));
      Inv(s) && s.openSection && !s.openList && s.inIngredients == st.inIngredients
      && s.ingredients == st.ingredients && s.meals == st.meals
  {
    EnsuredSectionInv(st);
    ClosedListInv(EnsuredSection(st));
  }

  lemma IngredientsStepInv(st: ConvState, value: string)
    requires Inv(st)
    ensures Inv(IngredientsStep(st, value))
  {
    var s := ClosedList(EnsuredSection(st));
    InSectionInv(st);
    AppendContent(s.parts, [Heading3(IngredientsLabel)] + ValuePara(value));
    assert s.parts + [Heading3(IngredientsLabel)] + ValuePara(value)
      == s.parts + ([Heading3(IngredientsLabel)] + ValuePara(value));
  }

  lemma EmphasisStepInv(st: ConvState, key: string, value: string)
    requires Inv(st)
    ensures Inv(EmphasisStep(st, key, value))
  {
    var s := ClosedList(EnsuredSection(st));
    InSectionInv(st);
    var h := if value != "" then Labelled(key, value) else LabelOnly(key);
    AppendContent(s.parts, [h]);
    if key == DeviceLabel && s.ingredients != [] {
      AppendContent(s.parts + [h], [ShoppingList(s.ingredients)]);
    }
  }

  lemma ParagraphStepInv(st: ConvState, para: Html)
    requires Inv(st) && IsContent(para)
    ensures Inv(ParagraphStep(st, para))
  {
    InSectionInv(st);
    AppendContent(ClosedList(EnsuredSection(st)).parts, [para]);
  }

  lemma BulletStepInv(st: ConvState, item: string)
    requires Inv(st)
    ensures Inv(BulletStep(st, item))
  {
    var s := EnsuredSection(st);
    EnsuredSectionInv(st);
    if !s.openList {
      NestAppend(s.parts, ListOpen);
    }
    var s' := if s.openList then s else s.(parts := s.parts + [ListOpen], openList := true);
    NestAppend(s'.parts, Item(item));
  }

  /** Every line keeps the flags in step with the emitted lines. */
  lemma StepInv(st: ConvState, line: string)
    requires Inv(st)
    ensures Inv(Step(st, line))
  {
    StepAsInv(st, line, Classify(line));
  }

  lemma StepAsInv(st: ConvState, line: string, kind: LineKind)
    requires Inv(st)
    ensures Inv(StepAs(st, line, kind))
  {
    match kind
    case Blank => ClosedListInv(st);
    case MealHeading(name) => MealStepInv(st, line, name);
    case Bullet(item) => BulletStepInv(st, item);
    case SectionLabel(key, value) => SectionStepInv(st, key, value);
    case Ingredients(value) => IngredientsStepInv(st, value);
    case EmphasisLabel(key, value) => EmphasisStepInv(st, key, value);
    case GenericLabel(key, value) => ParagraphStepInv(st, Labelled(key, value));
    case Plain => ParagraphStepInv(st, Para(line));
  }

  lemma {:induction false} RunInv(st: ConvState, lines: seq<string>)
    requires Inv(st)
    ensures Inv(Run(st, lines))
  {
    if lines != [] {
      RunInv(st, lines[..|lines| - 1]);
      StepInv(Run(st, lines[..|lines| - 1]), lines[|lines| - 1]);
    }
  }

  /**
   * Whatever the plan text, the body HTML closes every `<section>` and `<ul>` it
   * opens, never nests sections, keeps list items inside lists and puts the week
   * paragraph outside every section.
   */
  lemma BodyWellNested(body: seq<string>, isoWeek: nat, isoYear: nat)
    ensures WellNested(BodyParts(body, isoWeek, isoYear))
  {
    InitInv(isoWeek, isoYear);
    RunInv(InitState(isoWeek, isoYear), body);
    ClosedSectionInv(Run(InitState(isoWeek, isoYear), body));
  }

  /**
   * A meal heading closes whatever section and list are open, then opens a new section
   * headed by the whole line; its meal name is recorded exactly when it is not empty.
   */
  lemma MealHeadingOpensSection(st: ConvState, line: string)
    requires Inv(st) && StartsWith(line, "Gericht ")
    ensures var s := Step(st, line);
      var c := ClosedSection(st);
      && WellNested(c.parts) && s.parts == c.parts + [SectionOpen, Heading2(line)]
      && s.openSection && !s.openList && !s.inIngredients && s.ingredients == []
      && s.meals == if MealName(line) != "" then st.meals + [MealName(line)] else st.meals
  {
    StepOfMarkedLine(st, line);
    ClosedSectionInv(st);
  }

  /** A section label closes whatever section and list are open, then opens a new section headed by the label. */
  lemma SectionLabelOpensSection(st: ConvState, line: string)
    requires Inv(st) && HasLabel(line) && LabelOf(line).0 in SectionHeadings
    ensures var s := Step(st, line);
      var c := ClosedSection(st);
      var (key, value) := LabelOf(line);
      && WellNested(c.parts) && s.parts == c.parts + [SectionOpen, Heading2(key)] + ValuePara(value)
      && s.openSection && !s.openList && !s.inIngredients && s.ingredients == [] && s.meals == st.meals
  {
    ClassifyLabelLine(line);
    ClassifyLabelFamilies(LabelOf(line).0, LabelOf(line).1);
    ClosedSectionInv(st);
  }

  // ---------------------------------------------------------------------------
  // The output only grows: the week paragraph stays first
  // ---------------------------------------------------------------------------

  lemma StepExtends(st: ConvState, line: string)
    ensures st.parts <= Step(st, line).parts
  {
    StepAsExtends(st, line, Classify(line));
  }

  lemma StepAsExtends(st: ConvState, line: string, kind: LineKind)
    ensures st.parts <= StepAs(st, line, kind).parts
  {
    match kind
    case Blank =>
    case MealHeading(name) =>
    case Bullet(item) =>
    case SectionLabel(key, value) =>
    case Ingredients(value) =>
    case EmphasisLabel(key, value) =>
    case GenericLabel(key, value) =>
    case Plain =>
  }

  lemma {:induction false} RunExtends(st: ConvState, lines: seq<string>)
    ensures st.parts <= Run(st, lines).parts
  {
    if lines != [] {
      RunExtends(st, lines[..|lines| - 1]);
      StepExtends(Run(st, lines[..|lines| - 1]), lines[|lines| - 1]);
    }
  }

  /** The first line of every body is the paragraph naming the plan's ISO week. */
  lemma WeekParaFirst(body: seq<string>, isoWeek: nat, isoYear: nat)
    ensures var parts := BodyParts(body, isoWeek, isoYear);
      |parts| >= 1 && parts[0] == WeekPara(isoWeek, isoYear)
  {
    var st := Run(InitState(isoWeek, isoYear), body);
    RunExtends(InitState(isoWeek, isoYear), body);
    assert st.parts <= ClosedSection(st).parts;
  }

  // ---------------------------------------------------------------------------
  // Meal names
  // ---------------------------------------------------------------------------

  /** A reference definition: the names of the meal headings among `lines`, in order, skipping empty ones. */
  function MealsOf(lines: seq<string>): (r: seq<string>)
    ensures |r| <= |lines|
  {
    if lines == [] then []
    else
      var line := lines[|lines| - 1];
      MealsOf(lines[..|lines| - 1])
      + (if StartsWith(line, "Gericht ") && MealName(line) != "" then [MealName(line)] else [])
  }

  lemma StepMeals(st: ConvState, line: string)
    ensures Step(st, line).meals
      == st.meals + (if StartsWith(line, "Gericht ") && MealName(line) != "" then [MealName(line)] else [])
  {
    ClassifyMarkedLines(line);
    if StartsWith(line, "Gericht ") {
      assert Classify(line) == MealHeading(MealName(line));
    } else {
      StepAsKeepsMeals(st, line, Classify(line));
    }
  }

  /** Only a meal heading adds a meal name. */
  lemma StepAsKeepsMeals(st: ConvState, line: string, kind: LineKind)
    requires !kind.MealHeading?
    ensures StepAs(st, line, kind).meals == st.meals
  {
    match kind
    case Blank =>
    case Bullet(item) =>
    case SectionLabel(key, value) =>
    case Ingredients(value) =>
    case EmphasisLabel(key, value) =>
    case GenericLabel(key, value) =>
    case Plain =>
  }

  lemma {:induction false} RunMeals(st: ConvState, lines: seq<string>)
    ensures Run(st, lines).meals == st.meals + MealsOf(lines)
  {
    if lines != [] {
      var init := lines[..|lines| - 1];
      RunMeals(st, init);
      StepMeals(Run(st, init), lines[|lines| - 1]);
    }
  }

  /** Every collected meal name is non-empty and already trimmed. */
  lemma {:induction false} MealsAreTrimmed(lines: seq<string>)
    ensures forall k :: 0 <= k < |MealsOf(lines)| ==>
      MealsOf(lines)[k] != "" && Strip(MealsOf(lines)[k]) == MealsOf(lines)[k]
  {
    if lines != [] {
      var init := lines[..|lines| - 1];
      var line := lines[|lines| - 1];
      MealsAreTrimmed(init);
      MealNameTrimmed(line);
      var extra := if StartsWith(line, "Gericht ") && MealName(line) != "" then [MealName(line)] else [];
      assert MealsOf(lines) == MealsOf(init) + extra;
      forall k | 0 <= k < |MealsOf(lines)|
        ensures MealsOf(lines)[k] != "" && Strip(MealsOf(lines)[k]) == MealsOf(lines)[k]
      {
        if k < |MealsOf(init)| {
          assert MealsOf(lines)[k] == MealsOf(init)[k];
        } else {
          assert MealsOf(lines)[k] == extra[0];
        }
      }
    }
  }

  // ---------------------------------------------------------------------------
  // Ingredients and the shopping list
  // ---------------------------------------------------------------------------

  /** A bullet becomes a list item, and is collected exactly when an ingredient list is being read. */
  lemma BulletCollects(st: ConvState, line: string)
    requires StartsWith(line, "- ")
    ensures var s := Step(st, line);
      |s.parts| > 0 && s.parts[|s.parts| - 1] == Item(Strip(line[2..])) && s.openList && s.inIngredients == st.inIngredients
      && s.ingredients == if st.inIngredients then st.ingredients + [Strip(line[2..])] else st.ingredients
  {
    ClassifyMarkedLines(line);
    BulletIsNotMeal(line);
    assert Classify(line) == Bullet(Strip(line[2..]));
    BulletStepCollects(st, Strip(line[2..]));
  }

  lemma BulletStepCollects(st: ConvState, item: string)
    ensures var s := BulletStep(st, item);
      |s.parts| > 0 && s.parts[|s.parts| - 1] == Item(item) && s.openList && s.inIngredients == st.inIngredients
      && s.ingredients == if st.inIngredients then st.ingredients + [item] else st.ingredients
  {
  }

  /**
   * A blank line closes the list and ends the ingredient list, but keeps the section
   * open and keeps the ingredients collected so far.
   */
  lemma BlankKeepsCollection(st: ConvState)
    ensures var s := Step(st, "");
      s.openSection == st.openSection && !s.openList && !s.inIngredients && s.ingredients == st.ingredients
      && s.meals == st.meals
  {
  }

  /** The ingredients label starts a fresh collection. */
  lemma IngredientsStartCollection(st: ConvState, line: string)
    requires HasLabel(line) && LabelOf(line).0 == IngredientsLabel
    ensures var s := Step(st, line);
      s.inIngredients && s.ingredients == [] && s.openSection && !s.openList
  {
    ClassifyLabelLine(line);
    ClassifyLabelFamilies(LabelOf(line).0, LabelOf(line).1);
  }

  /**
   * After the device label, the collected ingredients are listed in one shopping-list
   * line exactly when there are any, and the collection is emptied.
   */
  lemma DeviceListsIngredients(st: ConvState, line: string)
    requires HasLabel(line) && LabelOf(line).0 == DeviceLabel
    ensures var s := Step(st, line);
      s.ingredients == [] && s.inIngredients == st.inIngredients && |s.parts| > 0
      && (s.parts[|s.parts| - 1] == ShoppingList(st.ingredients) <==> st.ingredients != [])
  {
    var value := LabelOf(line).1;
    ClassifyLabelLine(line);
    DeviceIsEmphasis();
    assert Classify(line) == EmphasisLabel(DeviceLabel, value);
    DeviceStep(st, line, value);
  }

  lemma DeviceStep(st: ConvState, line: string, value: string)
    ensures var s := StepAs(st, line, EmphasisLabel(DeviceLabel, value));
      s.ingredients == [] && s.inIngredients == st.inIngredients && |s.parts| > 0
      && (s.parts[|s.parts| - 1] == ShoppingList(st.ingredients) <==> st.ingredients != [])
  {
  }

  /**
   * An ingredient bullet, a blank line and then the device label: the blank line does not
   * drop the collection, so the shopping list still holds the bullet's item last.
   */
  lemma IngredientsSurviveBlankLine(st: ConvState, bullet: string, device: string)
    requires st.inIngredients
    requires StartsWith(bullet, "- ")
    requires HasLabel(device) && LabelOf(device).0 == DeviceLabel
    ensures var s := Step(Step(Step(st, bullet), ""), device);
      |s.parts| > 0 && s.parts[|s.parts| - 1] == ShoppingList(st.ingredients + [Strip(bullet[2..])])
  {
    var s1 := Step(st, bullet);
    BulletCollects(st, bullet);
    var s2 := Step(s1, "");
    BlankKeepsCollection(s1);
    DeviceListsIngredients(s2, device);
  }

  /** A label outside the known families with nothing after it stays a plain paragraph of the whole line. */
  lemma UnknownEmptyLabelIsParagraph(st: ConvState, line: string)
    requires HasLabel(line) && FallsThrough(line)
    ensures Step(st, line) == ParagraphStep(st, Para(line))
  {
    ClassifyLabelledLines(line);
  }

  // ---------------------------------------------------------------------------
  // The whole conversion
  // ---------------------------------------------------------------------------

  /** The body lines of a plan text: its trimmed lines without the title. */
  function BodyLines(rawText: string): seq<string>
  {
    ExtractTitle(StripAll(SplitLines(rawText))).1
  }

  /** Every line is empty once trimmed. */
  predicate AllBlank(lines: seq<string>) {
    forall k :: 0 <= k < |lines| ==> Strip(lines[k]) == ""
  }

  /** Every line is empty. */
  predicate AllEmpty(lines: seq<string>) {
    forall k :: 0 <= k < |lines| ==> lines[k] == ""
  }

  lemma StripAllBlank(raw: seq<string>)
    ensures AllEmpty(StripAll(raw)) <==> AllBlank(raw)
  {
    var lines := StripAll(raw);
    if AllBlank(raw) {
      forall k | 0 <= k < |lines| ensures lines[k] == "" {
        assert Strip(raw[k]) == "";
      }
    }
    if AllEmpty(lines) {
      forall k | 0 <= k < |raw| ensures Strip(raw[k]) == "" {
        assert lines[k] == "";
      }
    }
  }

  /** A plan text is refused exactly when all of its lines are blank. */
  lemma TitleRequired(rawText: string, isoWeek: nat, isoYear: nat)
    ensures ConvertSpec(rawText, isoWeek, isoYear).Err? <==> AllBlank(SplitLines(rawText))
    ensures ConvertSpec(rawText, isoWeek, isoYear).Err? ==>
      ConvertSpec(rawText, isoWeek, isoYear).message == MissingTitle
  {
    var raw := SplitLines(rawText);
    NoTitleWhenBlank(StripAll(raw), isoWeek, isoYear);
    StripAllBlank(raw);
  }

  lemma NoTitleWhenBlank(lines: seq<string>, isoWeek: nat, isoYear: nat)
    ensures ConvertLines(lines, isoWeek, isoYear).Err? <==> AllEmpty(lines)
    ensures ConvertLines(lines, isoWeek, isoYear).Err? ==> ConvertLines(lines, isoWeek, isoYear).message == MissingTitle
  {
    TitleIsFirstNonEmptyLine(lines);
    var k := FirstNonEmpty(lines);
    if k < |lines| {
      assert lines[k] != "";
    }
  }

  /** A converted plan's title is its first non-empty trimmed line, and the rest is its body. */
  lemma ConvertedTitle(lines: seq<string>, isoWeek: nat, isoYear: nat)
    requires ConvertLines(lines, isoWeek, isoYear).Ok?
    ensures var c := ConvertLines(lines, isoWeek, isoYear).value;
      var k := FirstNonEmpty(lines);
      && k < |lines| && c.title == lines[k] && c.title != ""
      && c == ConvertBody(c.title, lines[..k] + lines[k + 1..], isoWeek, isoYear)
  {
    TitleIsFirstNonEmptyLine(lines);
  }

  /**
   * The body HTML of a converted plan is the rendered lines of a well-nested body that
   * starts with the week paragraph, and its meal names are those of the meal headings
   * among the body lines, in order.
   */
  lemma ConvertedBody(title: string, body: seq<string>, isoWeek: nat, isoYear: nat)
    ensures var c := ConvertBody(title, body, isoWeek, isoYear);
      var parts := BodyParts(body, isoWeek, isoYear);
      && c.title == title
      && c.bodyHtml == JoinLines(RenderAll(parts))
      && WellNested(parts) && |parts| >= 1 && parts[0] == WeekPara(isoWeek, isoYear)
      && c.mealNames == MealsOf(body)
  {
    BodyWellNested(body, isoWeek, isoYear);
    WeekParaFirst(body, isoWeek, isoYear);
    RunMeals(InitState(isoWeek, isoYear), body);
  }

  // ---------------------------------------------------------------------------
  // The ingredient state over a run of lines
  // ---------------------------------------------------------------------------

  /**
   * A reference definition of the ingredient mode and the collected items after one
   * line of kind `kind`: a blank line, a meal heading and a section label end the mode,
   * the ingredients label starts it; a bullet adds its item in the mode; meal headings,
   * section labels, the ingredients label and the device label empty the collection;
   * paragraphs, other labels and other emphasis labels change neither.
   */
  function Collect(mode: bool, items: seq<string>, kind: LineKind): (bool, seq<string>)
  {
    match kind
    case Blank => (false, items)
    case MealHeading(_) => (false, [])
    case Bullet(item) => (mode, if mode then items + [item] else items)
    case SectionLabel(_, _) => (false, [])
    case Ingredients(_) => (true, [])
    case EmphasisLabel(key, _) => (mode, if key == DeviceLabel then [] else items)
    case GenericLabel(_, _) => (mode, items)
    case Plain => (mode, items)
  }

  /** The kinds of a run of lines, in order. */
  function Kinds(lines: seq<string>): (r: seq<LineKind>)
    ensures |r| == |lines|
  {
    if lines == [] then [] else Kinds(lines[..|lines| - 1]) + [Classify(lines[|lines| - 1])]
  }

  /** The ingredient mode and the collected items after lines of kinds `kinds`, starting from `mode` and `items`. */
  function Collected(mode: bool, items: seq<string>, kinds: seq<LineKind>): (bool, seq<string>)
  {
    if kinds == [] then (mode, items)
    else
      var prev := Collected(mode, items, kinds[..|kinds| - 1]);
      Collect(prev.0, prev.1, kinds[|kinds| - 1])
  }

  lemma StepAsCollects(st: ConvState, line: string, kind: LineKind)
    ensures var s := StepAs(st, line, kind);
      (s.inIngredients, s.ingredients) == Collect(st.inIngredients, st.ingredients, kind)
  {
    match kind
    case Blank =>
    case MealHeading(name) =>
    case Bullet(item) =>
    case SectionLabel(key, value) =>
    case Ingredients(value) =>
    case EmphasisLabel(key, value) =>
    case GenericLabel(key, value) =>
    case Plain =>
  }

  /** The converter's ingredient state follows the reference definition line by line. */
  lemma {:induction false} RunIngredients(st: ConvState, lines: seq<string>)
    ensures var s := Run(st, lines);
      (s.inIngredients, s.ingredients) == Collected(st.inIngredients, st.ingredients, Kinds(lines))
  {
    if lines != [] {
      var init := lines[..|lines| - 1];
      var line := lines[|lines| - 1];
      RunIngredients(st, init);
      StepAsCollects(Run(st, init), line, Classify(line));
      var kinds := Kinds(lines);
      assert kinds[..|kinds| - 1] == Kinds(init);
    }
  }

  lemma {:induction false} KindsAppend(a: seq<string>, b: seq<string>)
    ensures Kinds(a + b) == Kinds(a) + Kinds(b)
  {
    if b == [] {
      assert a + b == a;
    } else {
      var init := b[..|b| - 1];
      KindsAppend(a, init);
      assert (a + b)[..|a + b| - 1] == a + init;
    }
  }

  lemma {:induction false} KindAt(lines: seq<string>, k: int)
    requires 0 <= k < |lines|
    ensures Kinds(lines)[k] == Classify(lines[k])
  {
    if k < |lines| - 1 {
      KindAt(lines[..|lines| - 1], k);
    }
  }

  /** A kind that leaves the collected items alone: a blank line, a paragraph, a generic label, or an emphasis label other than the device label. */
  predicate KeepsKind(kind: LineKind) {
    kind.Blank? || kind.Plain? || kind.GenericLabel? || (kind.EmphasisLabel? && kind.key != DeviceLabel)
  }

  /** A paragraph, a generic label or an emphasis label other than the device label changes neither the mode nor the items. */
  lemma StepKeepsIngredients(st: ConvState, line: string)
    requires KeepsKind(Classify(line)) && !Classify(line).Blank?
    ensures Step(st, line).inIngredients == st.inIngredients && Step(st, line).ingredients == st.ingredients
  {
    var kind := Classify(line);
    StepAsCollects(st, line, kind);
    CollectKeeps(st.inIngredients, st.ingredients, kind);
  }

  lemma CollectKeeps(mode: bool, items: seq<string>, kind: LineKind)
    requires kind.Plain? || kind.GenericLabel? || (kind.EmphasisLabel? && kind.key != DeviceLabel)
    ensures Collect(mode, items, kind) == (mode, items)
  {
  }

  lemma {:induction false} CollectedAppend(mode: bool, items: seq<string>, a: seq<LineKind>, b: seq<LineKind>)
    ensures var mid := Collected(mode, items, a);
      Collected(mode, items, a + b) == Collected(mid.0, mid.1, b)
  {
    if b == [] {
      assert a + b == a;
    } else {
      var init := b[..|b| - 1];
      CollectedAppend(mode, items, a, init);
      assert (a + b)[..|a + b| - 1] == a + init;
    }
  }

  /** The items of bullet kinds, in order. */
  function ItemsOf(kinds: seq<LineKind>): (r: seq<string>)
    requires forall k :: 0 <= k < |kinds| ==> kinds[k].Bullet?
    ensures |r| == |kinds|
  {
    if kinds == [] then []
    else
      var last := kinds[|kinds| - 1];
      assert last.Bullet?;
      ItemsOf(kinds[..|kinds| - 1]) + [last.item]
  }

  /** Bullets read in ingredient mode are collected, in order. */
  lemma {:induction false} BulletsCollect(items: seq<string>, kinds: seq<LineKind>)
    requires forall k :: 0 <= k < |kinds| ==> kinds[k].Bullet?
    ensures Collected(true, items, kinds) == (true, items + ItemsOf(kinds))
  {
    if kinds != [] {
      var init := kinds[..|kinds| - 1];
      var last := kinds[|kinds| - 1];
      BulletsCollect(items, init);
      assert ItemsOf(kinds) == ItemsOf(init) + [last.item];
      assert (items + ItemsOf(init)) + [last.item] == items + ItemsOf(kinds);
    } else {
      assert items + [] == items;
    }
  }

  /** Kinds that keep the items keep them all the way. */
  lemma {:induction false} KeptItems(mode: bool, items: seq<string>, kinds: seq<LineKind>)
    requires forall k :: 0 <= k < |kinds| ==> KeepsKind(kinds[k])
    ensures Collected(mode, items, kinds).1 == items
  {
    if kinds != [] {
      KeptItems(mode, items, kinds[..|kinds| - 1]);
      assert KeepsKind(kinds[|kinds| - 1]);
    }
  }

  /** After the ingredients label, bullets and kinds that keep the items, the items are the bullets' items. */
  lemma RecipeItems(mode: bool, items: seq<string>, value: string, bullets: seq<LineKind>, middle: seq<LineKind>)
    requires forall k :: 0 <= k < |bullets| ==> bullets[k].Bullet?
    requires forall k :: 0 <= k < |middle| ==> KeepsKind(middle[k])
    ensures Collected(mode, items, [Ingredients(value)] + bullets + middle).1 == ItemsOf(bullets)
  {
    var head := [Ingredients(value)];
    var list := head + bullets;
    assert head[..0] == [];
    assert Collected(mode, items, head) == (true, []);
    CollectedAppend(mode, items, head, bullets);
    BulletsCollect([], bullets);
    assert [] + ItemsOf(bullets) == ItemsOf(bullets);
    CollectedAppend(mode, items, list, middle);
    KeptItems(true, ItemsOf(bullets), middle);
  }

  /** The items of bullet lines, in order. */
  function BulletItems(bullets: seq<string>): (r: seq<string>)
    requires forall k :: 0 <= k < |bullets| ==> StartsWith(bullets[k], "- ")
    ensures |r| == |bullets|
  {
    if bullets == [] then []
    else
      var last := bullets[|bullets| - 1];
      assert StartsWith(last, "- ");
      BulletItems(bullets[..|bullets| - 1]) + [Strip(last[2..])]
  }

  lemma ClassifyBullet(line: string)
    requires StartsWith(line, "- ")
    ensures Classify(line) == Bullet(Strip(line[2..]))
  {
    ClassifyMarkedLines(line);
    BulletIsNotMeal(line);
  }

  /** Bullet lines are of bullet kind, and their items are the bullets' items. */
  lemma {:induction false} BulletKinds(bullets: seq<string>)
    requires forall k :: 0 <= k < |bullets| ==> StartsWith(bullets[k], "- ")
    ensures forall k :: 0 <= k < |bullets| ==> Kinds(bullets)[k].Bullet?
    ensures ItemsOf(Kinds(bullets)) == BulletItems(bullets)
  {
    if bullets != [] {
      var init := bullets[..|bullets| - 1];
      var last := bullets[|bullets| - 1];
      BulletKinds(init);
      ClassifyBullet(last);
      var kinds := Kinds(bullets);
      assert kinds == Kinds(init) + [Bullet(Strip(last[2..]))];
      assert kinds[..|kinds| - 1] == Kinds(init);
    }
  }

  lemma KeptKinds(middle: seq<string>)
    requires forall k :: 0 <= k < |middle| ==> KeepsKind(Classify(middle[k]))
    ensures forall k :: 0 <= k < |middle| ==> KeepsKind(Kinds(middle)[k])
  {
    forall k | 0 <= k < |middle| ensures KeepsKind(Kinds(middle)[k]) {
      KindAt(middle, k);
    }
  }

  lemma IngredientsLabelKind(zutaten: string)
    requires HasLabel(zutaten) && LabelOf(zutaten).0 == IngredientsLabel
    ensures Kinds([zutaten]) == [Ingredients(LabelOf(zutaten).1)]
  {
    ClassifyLabelLine(zutaten);
    ClassifyLabelFamilies(LabelOf(zutaten).0, LabelOf(zutaten).1);
    assert [zutaten][..0] == [];
  }

  /** The kinds of the usual shape of a recipe, part by part. */
  lemma RecipeKinds(zutaten: string, bullets: seq<string>, middle: seq<string>)
    requires HasLabel(zutaten) && LabelOf(zutaten).0 == IngredientsLabel
    ensures Kinds([zutaten] + bullets + middle) == [Ingredients(LabelOf(zutaten).1)] + Kinds(bullets) + Kinds(middle)
  {
    KindsAppend([zutaten] + bullets, middle);
    KindsAppend([zutaten], bullets);
    IngredientsLabelKind(zutaten);
  }

  /**
   * The usual shape of a recipe: the ingredients label, its bullets, any lines that keep
   * the items (blank lines, the preparation and other emphasis labels, paragraphs), then
   * the device label. The device label lists exactly the bullets' items, when there are
   * any, and empties the collection.
   */
  lemma RecipeShoppingList(st: ConvState, zutaten: string, bullets: seq<string>, middle: seq<string>, device: string)
    requires HasLabel(zutaten) && LabelOf(zutaten).0 == IngredientsLabel
    requires forall k :: 0 <= k < |bullets| ==> StartsWith(bullets[k], "- ")
    requires forall k :: 0 <= k < |middle| ==> KeepsKind(Classify(middle[k]))
    requires HasLabel(device) && LabelOf(device).0 == DeviceLabel
    ensures var s := Run(st, [zutaten] + bullets + middle + [device]);
      && s.ingredients == [] && |s.parts| > 0
      && (s.parts[|s.parts| - 1] == ShoppingList(BulletItems(bullets)) <==> bullets != [])
  {
    var pre := [zutaten] + bullets + middle;
    RecipeIngredients(st, zutaten, bullets, middle);
    DeviceListsIngredients(Run(st, pre), device);
    RunSnoc(st, pre, device);
  }

  /** Before the device label, the collected items are the bullets' items. */
  lemma RecipeIngredients(st: ConvState, zutaten: string, bullets: seq<string>, middle: seq<string>)
    requires HasLabel(zutaten) && LabelOf(zutaten).0 == IngredientsLabel
    requires forall k :: 0 <= k < |bullets| ==> StartsWith(bullets[k], "- ")
    requires forall k :: 0 <= k < |middle| ==> KeepsKind(Classify(middle[k]))
    ensures Run(st, [zutaten] + bullets + middle).ingredients == BulletItems(bullets)
  {
    RecipeKinds(zutaten, bullets, middle);
    BulletKinds(bullets);
    KeptKinds(middle);
    RecipeItems(st.inIngredients, st.ingredients, LabelOf(zutaten).1, Kinds(bullets), Kinds(middle));
    RunIngredients(st, [zutaten] + bullets + middle);
  }

  lemma RunSnoc(st: ConvState, lines: seq<string>, line: string)
    ensures Run(st, lines + [line]) == Step(Run(st, lines), line)
  {
    assert (lines + [line])[..|lines|] == lines;
  }

  // ---------------------------------------------------------------------------
  // Every emitted line is one line of text
  // ---------------------------------------------------------------------------

  /** The text a line kind carries into the output holds no line break. */
  predicate KindSingleLine(kind: LineKind) {
    match kind
    case Bullet(item) => NoLineBreak(item)
    case SectionLabel(key, value) => NoLineBreak(key) && NoLineBreak(value)
    case Ingredients(value) => NoLineBreak(value)
    case EmphasisLabel(key, value) => NoLineBreak(key) && NoLineBreak(value)
    case GenericLabel(key, value) => NoLineBreak(key) && NoLineBreak(value)
    case _ => true
  }

  /** The emitted lines and the collected items hold no line break. */
  predicate SingleLines(st: ConvState) {
    AllSingleLine(st.parts) && forall k :: 0 <= k < |st.ingredients| ==> NoLineBreak(st.ingredients[k])
  }

  /** A line without line breaks classifies into pieces without line breaks. */
  lemma ClassifySingleLine(line: string)
    requires NoLineBreak(line)
    ensures KindSingleLine(Classify(line))
  {
    if StartsWith(line, "- ") {
      BulletSingleLine(line);
    } else if HasLabel(line) {
      LabelSingleLine(line);
    } else {
      ClassifyMarkedLines(line);
      ClassifyLabelledLines(line);
    }
  }

  lemma BulletSingleLine(line: string)
    requires NoLineBreak(line) && StartsWith(line, "- ")
    ensures KindSingleLine(Classify(line))
  {
    ClassifyBullet(line);
    SuffixNoLineBreak(line, 2);
    StripNoLineBreak(line[2..]);
  }

  lemma LabelSingleLine(line: string)
    requires NoLineBreak(line) && HasLabel(line)
    ensures KindSingleLine(Classify(line))
  {
    var (before, after) := SplitFirst(line, ':');
    NoLineBreakAppend(before + [':'], after);
    NoLineBreakAppend(before, [':']);
    StripNoLineBreak(before);
    StripNoLineBreak(after);
    ClassifyLabelLine(line);
    LabelPiecesSingleLine(Strip(before), Strip(after));
  }

  lemma LabelPiecesSingleLine(key: string, value: string)
    requires NoLineBreak(key) && NoLineBreak(value)
    ensures KindSingleLine(ClassifyLabel(key, value))
  {
  }

  lemma AddedSingleLines(st: ConvState, hs: seq<Html>)
    requires SingleLines(st) && AllSingleLine(hs)
    ensures SingleLines(st.(parts := st.parts + hs))
  {
    AllSingleLineAppend(st.parts, hs);
  }

  lemma ClosedSectionSingleLines(st: ConvState)
    requires SingleLines(st)
    ensures SingleLines(ClosedList(st)) && SingleLines(EnsuredSection(st)) && SingleLines(ClosedSection(st))
    ensures SingleLines(ClosedList(EnsuredSection(st)))
  {
    AddedSingleLines(st, [ListClose]);
    AddedSingleLines(st, [SectionOpen]);
    AddedSingleLines(ClosedList(st), [SectionClose]);
    AddedSingleLines(EnsuredSection(st), [ListClose]);
  }

  lemma StepAsSingleLines(st: ConvState, line: string, kind: LineKind)
    requires SingleLines(st) && NoLineBreak(line) && KindSingleLine(kind)
    ensures SingleLines(StepAs(st, line, kind))
  {
    ClosedSectionSingleLines(st);
    var c := ClosedSection(st);
    var p := ClosedList(EnsuredSection(st));
    match kind
    case Blank =>
    case MealHeading(name) =>
      AddedSingleLines(c.(ingredients := []), [SectionOpen, Heading2(line)]);
    case Bullet(item) => BulletSingleLines(st, item);
    case SectionLabel(key, value) =>
      AddedSingleLines(c.(ingredients := []), [SectionOpen, Heading2(key)] + ValuePara(value));
    case Ingredients(value) =>
      assert NoLineBreak(IngredientsLabel);
      AddedSingleLines(p.(ingredients := []), [Heading3(IngredientsLabel)] + ValuePara(value));
    case EmphasisLabel(key, value) => EmphasisSingleLines(st, key, value);
    case GenericLabel(key, value) => AddedSingleLines(p, [Labelled(key, value)]);
    case Plain => AddedSingleLines(p, [Para(line)]);
  }

  lemma BulletSingleLines(st: ConvState, item: string)
    requires SingleLines(st) && NoLineBreak(item)
    ensures SingleLines(BulletStep(st, item))
  {
    ClosedSectionSingleLines(st);
    var s := EnsuredSection(st);
    AddedSingleLines(s, [ListOpen]);
    var s' := if s.openList then s else s.(parts := s.parts + [ListOpen], openList := true);
    AddedSingleLines(s', [Item(item)]);
  }

  lemma EmphasisSingleLines(st: ConvState, key: string, value: string)
    requires SingleLines(st) && NoLineBreak(key) && NoLineBreak(value)
    ensures SingleLines(EmphasisStep(st, key, value))
  {
    ClosedSectionSingleLines(st);
    var s := ClosedList(EnsuredSection(st));
    var h := if value != "" then Labelled(key, value) else LabelOnly(key);
    AddedSingleLines(s, [h]);
    var s' := s.(parts := s.parts + [h]);
    assert SingleLine(ShoppingList(s'.ingredients));
    AddedSingleLines(s', [ShoppingList(s'.ingredients)]);
  }

  lemma {:induction false} RunSingleLines(st: ConvState, lines: seq<string>)
    requires SingleLines(st) && forall k :: 0 <= k < |lines| ==> NoLineBreak(lines[k])
    ensures SingleLines(Run(st, lines))
  {
    if lines != [] {
      var init := lines[..|lines| - 1];
      var line := lines[|lines| - 1];
      RunSingleLines(st, init);
      ClassifySingleLine(line);
      StepAsSingleLines(Run(st, init), line, Classify(line));
    }
  }

  /** A body made of lines without line breaks emits lines whose texts hold none. */
  lemma BodyPartsSingleLine(body: seq<string>, isoWeek: nat, isoYear: nat)
    requires forall k :: 0 <= k < |body| ==> NoLineBreak(body[k])
    ensures AllSingleLine(BodyParts(body, isoWeek, isoYear))
  {
    RunSingleLines(InitState(isoWeek, isoYear), body);
    ClosedSectionSingleLines(Run(InitState(isoWeek, isoYear), body));
  }

  /** The body keeps only lines it was given. */
  lemma {:induction false} ExtractTitleKeepsLines(lines: seq<string>)
    ensures forall x :: x in ExtractTitle(lines).1 ==> x in lines
  {
    if lines != [] {
      var init := lines[..|lines| - 1];
      ExtractTitleKeepsLines(init);
      assert forall x :: x in init ==> x in lines;
    }
  }

  /** The body lines of a plan text hold no line break. */
  lemma BodyLinesSingleLine(rawText: string)
    ensures forall k :: 0 <= k < |BodyLines(rawText)| ==> NoLineBreak(BodyLines(rawText)[k])
  {
    var lines := StripAll(SplitLines(rawText));
    forall k | 0 <= k < |lines| ensures NoLineBreak(lines[k]) {
      StripNoLineBreak(SplitLines(rawText)[k]);
    }
    ExtractTitleKeepsLines(lines);
    var body := BodyLines(rawText);
    forall k | 0 <= k < |body| ensures NoLineBreak(body[k]) {
      assert body[k] in lines;
    }
  }

  /**
   * The body HTML of a converted plan text is its rendered body lines joined by line
   * breaks, each of them one non-empty line of text.
   */
  lemma ConvertedLines(rawText: string, isoWeek: nat, isoYear: nat)
    requires ConvertSpec(rawText, isoWeek, isoYear).Ok?
    ensures var parts := BodyParts(BodyLines(rawText), isoWeek, isoYear);
      && ConvertSpec(rawText, isoWeek, isoYear).value.bodyHtml == JoinLines(RenderAll(parts))
      && AllSingleLine(parts) && |parts| >= 1 && parts[0] == WeekPara(isoWeek, isoYear)
  {
    BodyLinesSingleLine(rawText);
    BodyPartsSingleLine(BodyLines(rawText), isoWeek, isoYear);
    WeekParaFirst(BodyLines(rawText), isoWeek, isoYear);
  }
}
