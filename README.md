# Weekly nutrition plans: text to HTML, and the overview page

This project models the core of the weekly-plan generator, `update_weekly_plan.py`,
and proves properties of that model in Dafny.

- **Converter.** A plan text's first non-empty trimmed line becomes its title. Every
  other line is classified as one of:
  - blank;
  - a `Gericht ` meal heading;
  - a `- ` bullet;
  - a `label: value` line: a section label, `Zutaten`, an emphasis label, or any
    other label;
  - plain.

  A small state machine turns each line into HTML lines. It tracks whether a
  `<section>` is open, whether a `<ul>` is open, whether ingredients are being read,
  and the ingredients collected for the shopping list.
- **Index fragments.** The rewriter that cuts a plan body down to index fragments.
- **Overview page.** Its entry rule: refuse an empty plan list, sort the plans newest
  first, and give one collapsible entry per plan.
- **File names and dates.** A plan's two output file names, the source file-name
  pattern, `date.isoformat`/`fromisoformat` on `YYYY-MM-DD`, and the end date six
  days after the start.
- **Escaping.** HTML escaping (`html.escape` with `quote=True`).

Files:

- `wrappers.dfy`: `Option` and `Result`.
- `text.dfy`: Python string operations, including:
  - `strip`/`lstrip` with Python's whitespace set;
  - `splitlines`, `"\n".join` and `split(":", 1)`;
  - `replace(old, new, 1)` and `{:02d}` padding.
- `escape.dfy`: `html.escape` and its inverse.
- `markup.dfy`:
  - one constructor per HTML line template the converter emits;
  - their rendering;
  - a scanner that checks how `<section>` and `<ul>` nest.
- `converter.dfy`:
  - the classification and the state machine as functions;
  - the whole conversion as a function (`ConvertSpec`);
  - class `PlanConverter`: the converter's locals as fields, and its nested helpers
    and loop body as methods;
  - method `ConvertPlanText`, proved equal to `ConvertSpec`.
- `converter_facts.dfy`: lemmas about the conversion.
- `plans.dfy`: proleptic Gregorian dates, the ISO date format, `Plan`, its file
  names and the file-name pattern.
- `index.dfy`: the fragment rewriter and the overview page, both as methods proved
  against functions, plus the lemmas about them.
- `overview.dfy`: a converted plan's body as the fragment rewriter reads it back.

Where the code and its description disagree, the model follows the code. A blank
line closes the open list and ends ingredient mode. It does **not** discard the
ingredients collected so far (lines 236-239), so a later `Thermomix:` label still
lists them (lines 294-299). `IngredientsSurviveBlankLine` proves this.

The fragment rewriter tells the week paragraph apart by its first characters alone,
`<p>KW `. So any plain paragraph whose text starts with `KW ` also leaves the
overview, as `Overview.KwParagraphDropped` shows for a converted plan.

## Model

All source paths are in `automation/wochenplaene/scripts/update_weekly_plan.py`.

| member | source | states |
|---|---|---|
| Text.StripIdempotent | automation/wochenplaene/scripts/update_weekly_plan.py:194 | stripping a stripped line changes nothing |
| Text.StripShape | automation/wochenplaene/scripts/update_weekly_plan.py:194 | `strip()` removes only blanks, and only from both ends, and leaves no blank at either end |
| Text.LStripShape | automation/wochenplaene/scripts/update_weekly_plan.py:348 | `lstrip()` removes only leading blanks and leaves no blank in front |
| Text.LStripIndent | automation/wochenplaene/scripts/update_weekly_plan.py:348 | `lstrip()` of an indentation of blanks in front of a non-blank text gives that text |
| Text.SplitJoinLines | automation/wochenplaene/scripts/update_weekly_plan.py:313 | `splitlines()` of `"\n".join(lines)` gives the lines back when none holds a line break and the last is not empty |
| Text.SplitJoinLinesNewline | automation/wochenplaene/scripts/update_weekly_plan.py:389 | `splitlines()` of `"\n".join(lines) + "\n"` gives a non-empty list of lines back when none holds a line break |
| Text.JoinLinesAppend | automation/wochenplaene/scripts/update_weekly_plan.py:389 | joining two non-empty runs of lines is joining each and putting a newline between them |
| Text.JoinLinesSplice | automation/wochenplaene/scripts/update_weekly_plan.py:373 | a line that is itself several joined lines can be replaced by those lines without changing the joined text |
| Text.StripNoLineBreak | automation/wochenplaene/scripts/update_weekly_plan.py:194 | stripping adds no line break |
| Text.ReplaceLeadingPattern | automation/wochenplaene/scripts/update_weekly_plan.py:356 | `replace(p, r, 1)` on a text that starts with `p` replaces that leading `p` |
| Text.ReplaceTrailingPattern | automation/wochenplaene/scripts/update_weekly_plan.py:356 | `replace(p, r, 1)` on a text where `p` first occurs at its end replaces that trailing `p` |
| Text.PadIsFixedDigits | automation/wochenplaene/scripts/update_weekly_plan.py:209 | `{:02d}` of a number below 10^width is exactly `width` decimal digits, zero-padded |
| Text.NatToStringInjective | automation/wochenplaene/scripts/update_weekly_plan.py:150 | different numbers have different decimal texts |
| HtmlEscape.UnescapeEscape | automation/wochenplaene/scripts/update_weekly_plan.py:243 | escaping loses nothing: unescaping the escaped text gives the text back |
| HtmlEscape.EscapeInjective | automation/wochenplaene/scripts/update_weekly_plan.py:243 | different texts escape to different texts |
| HtmlEscape.EscapeHasNoMarkup | automation/wochenplaene/scripts/update_weekly_plan.py:260 | escaped text contains no raw `<`, `>`, `"` or `'` |
| HtmlEscape.EscapeIdentity | automation/wochenplaene/scripts/update_weekly_plan.py:310 | escaping leaves a text unchanged exactly when it contains none of `& < > " '` |
| HtmlEscape.EscapeLength | automation/wochenplaene/scripts/update_weekly_plan.py:290 | escaping never shortens a text, and keeps its length only when nothing needed escaping |
| HtmlEscape.EscapeAppend | automation/wochenplaene/scripts/update_weekly_plan.py:289-290 | the escape of a concatenation is the concatenation of the escapes |
| HtmlEscape.EscapeNoLineBreak | automation/wochenplaene/scripts/update_weekly_plan.py:313 | escaping adds no line break |
| Markup.RenderAll | automation/wochenplaene/scripts/update_weekly_plan.py:313 | one rendered text per emitted HTML line, in order |
| Markup.RenderSingleLine | automation/wochenplaene/scripts/update_weekly_plan.py:240-310 | every line template whose texts hold no line break renders to one non-empty line |
| Markup.RenderAllSingleLine | automation/wochenplaene/scripts/update_weekly_plan.py:313 | so do all the emitted lines |
| Markup.RenderAllSlices | automation/wochenplaene/scripts/update_weekly_plan.py:313 | the rendering of a list of lines is that of the lines before a position, the line there, and those after it |
| Markup.TextAddsNoTags | automation/wochenplaene/scripts/update_weekly_plan.py:240-310 | whatever text a line carries, its `<` and `>` are exactly those of its template's tags |
| Markup.NestCounts | automation/wochenplaene/scripts/update_weekly_plan.py:216-233 | while the nesting check succeeds, the `<section>` and `<ul>` lines each outnumber their closing lines by what is still open |
| Markup.WellNestedBalanced | automation/wochenplaene/scripts/update_weekly_plan.py:216-233 | a well-nested body has as many `</section>` as `<section>` lines and as many `</ul>` as `<ul>` lines |
| Converter.ClassifyMarkedLines | automation/wochenplaene/scripts/update_weekly_plan.py:235-263 | a line is blank, a meal heading or a bullet exactly when it is empty, starts with `Gericht ` or starts with `- ` |
| Converter.ClassifyLabelledLines | automation/wochenplaene/scripts/update_weekly_plan.py:264-310 | the label checks run in the order section labels, `Zutaten`, emphasis labels; a line is plain exactly when it has no colon or an unknown label with an empty value |
| Converter.ClassifyLabelFamilies | automation/wochenplaene/scripts/update_weekly_plan.py:266-301 | each label is classified by the one family it belongs to; an unknown label counts as a generic label only with a value |
| Converter.MealNameTrimmed | automation/wochenplaene/scripts/update_weekly_plan.py:244-249 | a meal name is already trimmed |
| Converter.StepOfMarkedLine | automation/wochenplaene/scripts/update_weekly_plan.py:235-263 | unfolds the loop body for blank lines, meal headings and bullets into their own branches; its one fact beyond the definitions is that a `- ` line never starts with `Gericht ` |
| Converter.TitleIsFirstNonEmptyLine | automation/wochenplaene/scripts/update_weekly_plan.py:194-203 | the title is the first non-empty line, and exactly that line leaves the body; with no such line the title is empty and the body is everything |
| Converter.FirstNonEmptyPrefix | automation/wochenplaene/scripts/update_weekly_plan.py:197-200 | adding a line at the end keeps the first non-empty line when there already was one |
| Converter.SplitTitle | automation/wochenplaene/scripts/update_weekly_plan.py:195-201 | the first loop computes the title and body lines that `ExtractTitle` defines |
| Converter.PlanConverter.constructor | automation/wochenplaene/scripts/update_weekly_plan.py:207-214 | the converter starts with the week paragraph, no meals, every flag false and no ingredients |
| Converter.PlanConverter.EnsureSection | automation/wochenplaene/scripts/update_weekly_plan.py:216-220 | `ensure_section()`: opens a section only when none is open |
| Converter.PlanConverter.CloseList | automation/wochenplaene/scripts/update_weekly_plan.py:222-226 | `close_list()`: closes the list only when one is open |
| Converter.PlanConverter.CloseSection | automation/wochenplaene/scripts/update_weekly_plan.py:228-233 | `close_section()`: closes the list, then the section, only when a section is open |
| Converter.PlanConverter.ProcessLine | automation/wochenplaene/scripts/update_weekly_plan.py:235-310 | one iteration of the body loop moves the converter to the state `Step` defines |
| Converter.PlanConverter.ProcessOtherLine | automation/wochenplaene/scripts/update_weekly_plan.py:264-310 | a line that is not blank, a meal heading or a bullet is handled as `Step` defines |
| Converter.PlanConverter.ProcessLabelLine | automation/wochenplaene/scripts/update_weekly_plan.py:264-307 | a `label: value` line is dispatched on its label as `Step` defines |
| Converter.PlanConverter.ProcessParagraph | automation/wochenplaene/scripts/update_weekly_plan.py:301-310 | a paragraph opens a section if needed, closes the list, and is appended |
| Converter.PlanConverter.ProcessMealHeading | automation/wochenplaene/scripts/update_weekly_plan.py:240-253 | a meal heading closes the section, opens a new one headed by the line, records a non-empty meal name and resets the ingredients |
| Converter.PlanConverter.ProcessBullet | automation/wochenplaene/scripts/update_weekly_plan.py:254-263 | a bullet opens a section and a list if needed, adds an item and collects it in ingredient mode |
| Converter.PlanConverter.ProcessSectionLabel | automation/wochenplaene/scripts/update_weekly_plan.py:266-275 | a section label closes the section and opens a new one headed by the label, followed by its value paragraph if any |
| Converter.PlanConverter.ProcessIngredientsLabel | automation/wochenplaene/scripts/update_weekly_plan.py:276-284 | `Zutaten` adds an `<h3>` inside a section, outside any list, and starts collecting afresh |
| Converter.PlanConverter.ProcessEmphasisLabel | automation/wochenplaene/scripts/update_weekly_plan.py:285-300 | an emphasis label becomes a bold-label paragraph; `Thermomix` with collected ingredients adds the shopping list and empties the collection |
| Converter.ConvertPlanText | automation/wochenplaene/scripts/update_weekly_plan.py:193-313 | `convert_plan_text` returns what `ConvertSpec` defines, including the missing-title error |
| ConverterFacts.InitInv | automation/wochenplaene/scripts/update_weekly_plan.py:207-214 | the flags agree with the emitted lines before the first body line |
| ConverterFacts.EnsuredSectionInv | automation/wochenplaene/scripts/update_weekly_plan.py:216-220 | `ensure_section()` keeps the flags in step with the emitted lines and leaves a section open |
| ConverterFacts.ClosedListInv | automation/wochenplaene/scripts/update_weekly_plan.py:222-226 | `close_list()` keeps the flags in step and leaves no list open |
| ConverterFacts.ClosedSectionInv | automation/wochenplaene/scripts/update_weekly_plan.py:228-233 | `close_section()` leaves every tag closed and the emitted lines well nested |
| ConverterFacts.StepInv | automation/wochenplaene/scripts/update_weekly_plan.py:235-310 | every line keeps `open_list` ⇒ `open_section` and the flags in step with the emitted lines |
| ConverterFacts.RunInv | automation/wochenplaene/scripts/update_weekly_plan.py:235 | the body loop keeps that invariant |
| ConverterFacts.BodyWellNested | automation/wochenplaene/scripts/update_weekly_plan.py:312 | after the final `close_section()`, the body closes every `<section>` and `<ul>` it opens, with lists inside sections |
| ConverterFacts.WeekParaFirst | automation/wochenplaene/scripts/update_weekly_plan.py:205-209 | the first body line is always the week paragraph |
| ConverterFacts.RunExtends | automation/wochenplaene/scripts/update_weekly_plan.py:235-310 | the loop only appends to the emitted lines |
| ConverterFacts.MealHeadingOpensSection | automation/wochenplaene/scripts/update_weekly_plan.py:240-253 | a meal heading closes everything open, then opens a section headed by the line; the meal name is recorded exactly when it is not empty |
| ConverterFacts.SectionLabelOpensSection | automation/wochenplaene/scripts/update_weekly_plan.py:266-275 | a section label closes everything open, then opens a section headed by the label |
| ConverterFacts.StepMeals | automation/wochenplaene/scripts/update_weekly_plan.py:240-253 | only a meal heading with a non-empty name adds a meal name |
| ConverterFacts.RunMeals | automation/wochenplaene/scripts/update_weekly_plan.py:235-253 | the meal names are those of the meal headings among the body lines, in order |
| ConverterFacts.MealsAreTrimmed | automation/wochenplaene/scripts/update_weekly_plan.py:248-249 | every meal name is non-empty and trimmed |
| ConverterFacts.BulletCollects | automation/wochenplaene/scripts/update_weekly_plan.py:254-263 | a bullet becomes a list item and is collected exactly in ingredient mode |
| ConverterFacts.BlankKeepsCollection | automation/wochenplaene/scripts/update_weekly_plan.py:236-239 | a blank line closes the list and ends ingredient mode, but keeps the section and the collected ingredients |
| ConverterFacts.IngredientsStartCollection | automation/wochenplaene/scripts/update_weekly_plan.py:276-284 | `Zutaten` starts an empty collection in ingredient mode, inside a section |
| ConverterFacts.DeviceListsIngredients | automation/wochenplaene/scripts/update_weekly_plan.py:294-299 | after `Thermomix`, the shopping list of the collected items is emitted exactly when there are some, and the collection is empty |
| ConverterFacts.IngredientsSurviveBlankLine | automation/wochenplaene/scripts/update_weekly_plan.py:236-299 | an ingredient collected before a blank line still appears in the shopping list of a later `Thermomix` line |
| ConverterFacts.UnknownEmptyLabelIsParagraph | automation/wochenplaene/scripts/update_weekly_plan.py:301-310 | an unknown label with an empty value falls through to a plain paragraph of the whole line |
| ConverterFacts.StripAllBlank | automation/wochenplaene/scripts/update_weekly_plan.py:194 | every stripped line is empty exactly when every raw line is blank |
| ConverterFacts.TitleRequired | automation/wochenplaene/scripts/update_weekly_plan.py:194-203 | the conversion fails exactly when every line is blank, and then with the missing-title message |
| ConverterFacts.NoTitleWhenBlank | automation/wochenplaene/scripts/update_weekly_plan.py:197-203 | on stripped lines, there is no title exactly when every line is empty |
| ConverterFacts.ConvertedTitle | automation/wochenplaene/scripts/update_weekly_plan.py:194-203 | a converted plan's title is its first non-empty line, and the body is all other lines in order |
| ConverterFacts.ConvertedBody | automation/wochenplaene/scripts/update_weekly_plan.py:205-313 | the body HTML is the joined lines of a well-nested body led by the week paragraph, and the meal names are those of its meal headings |
| ConverterFacts.RunIngredients | automation/wochenplaene/scripts/update_weekly_plan.py:235-310 | after any run of body lines, ingredient mode and the collected items are those of the reference fold `Collected` over the lines' kinds |
| ConverterFacts.StepKeepsIngredients | automation/wochenplaene/scripts/update_weekly_plan.py:285-310 | a paragraph, a generic label or an emphasis label other than `Thermomix` changes neither ingredient mode nor the collected items |
| ConverterFacts.CollectedAppend | automation/wochenplaene/scripts/update_weekly_plan.py:235-310 | the collection after two runs of kinds is the second run's, started where the first ended |
| ConverterFacts.BulletsCollect | automation/wochenplaene/scripts/update_weekly_plan.py:254-263 | bullets read in ingredient mode add exactly their items to the collection, in order |
| ConverterFacts.KeptItems | automation/wochenplaene/scripts/update_weekly_plan.py:236-310 | blank lines, paragraphs, generic labels and non-`Thermomix` emphasis labels keep the collected items over any run |
| ConverterFacts.RecipeItems | automation/wochenplaene/scripts/update_weekly_plan.py:254-310 | after `Zutaten`, bullets and lines that keep the items, the collection is exactly the bullets' items |
| ConverterFacts.BulletKinds | automation/wochenplaene/scripts/update_weekly_plan.py:254-259 | bullet lines are of bullet kind, and their items are the lines without `- `, trimmed |
| ConverterFacts.RecipeIngredients | automation/wochenplaene/scripts/update_weekly_plan.py:254-310 | after `Zutaten:`, some bullets and lines that keep the items, the converter holds exactly the bullets' items |
| ConverterFacts.RecipeShoppingList | automation/wochenplaene/scripts/update_weekly_plan.py:276-299 | the recipe shape `Zutaten:`, bullets, lines that keep the items, `Thermomix:` ends with the shopping list of exactly the bullets' items when there are bullets, and empties the collection |
| ConverterFacts.RunSingleLines | automation/wochenplaene/scripts/update_weekly_plan.py:235-310 | on body lines without line breaks, every emitted line and collected item stays free of line breaks |
| ConverterFacts.BodyPartsSingleLine | automation/wochenplaene/scripts/update_weekly_plan.py:312 | so is every part of the finished body |
| ConverterFacts.BodyLinesSingleLine | automation/wochenplaene/scripts/update_weekly_plan.py:194-201 | the stripped body lines of a plan text hold no line break |
| ConverterFacts.ConvertedLines | automation/wochenplaene/scripts/update_weekly_plan.py:193-313 | a converted plan's body HTML is the join of its rendered parts, at least one, each a single line, led by the week paragraph |
| Plans.MonthsFillYear | automation/wochenplaene/scripts/update_weekly_plan.py:141-142 | the months of a year add up to its length |
| Plans.OrdinalInYear | automation/wochenplaene/scripts/update_weekly_plan.py:141-142 | a valid date's day number lies within its year |
| Plans.BeforeIsOrdinalOrder | automation/wochenplaene/scripts/update_weekly_plan.py:365 | comparing dates is comparing their day numbers |
| Plans.NextDayOrdinal | automation/wochenplaene/scripts/update_weekly_plan.py:141-142 | the next day is a valid date one day number later |
| Plans.AddDaysOrdinal | automation/wochenplaene/scripts/update_weekly_plan.py:141-142 | adding days succeeds exactly when the result is not past 9999-12-31, and then moves the day number by that many days |
| Plans.EndDateIsSixDaysLater | automation/wochenplaene/scripts/update_weekly_plan.py:140-142 | the end date is six days after the start date, when it is representable |
| Plans.IsoFormatPieces | automation/wochenplaene/scripts/update_weekly_plan.py:146 | `isoformat()` is four year digits, `-`, two month digits, `-`, two day digits |
| Plans.ParseIsoFormat | automation/wochenplaene/scripts/update_weekly_plan.py:178 | `fromisoformat(d.isoformat())` gives `d` back |
| Plans.IsoFormatOfParsed | automation/wochenplaene/scripts/update_weekly_plan.py:178 | a text that parses as a date is that date's ISO form |
| Plans.CanonicalFilenameInjective | automation/wochenplaene/scripts/update_weekly_plan.py:144-146 | plans with different start dates get different canonical file names |
| Plans.KwFilenameInjective | automation/wochenplaene/scripts/update_weekly_plan.py:148-150 | plans with different ISO weeks (below 100) or ISO years get different `kw` file names |
| Plans.FilenamesDiffer | automation/wochenplaene/scripts/update_weekly_plan.py:339-342 | a plan's canonical name never equals any plan's `kw` name, so neither file overwrites the other |
| Plans.MatchPlanNameExactly | automation/wochenplaene/scripts/update_weekly_plan.py:13 | the pattern accepts exactly `wochenplan_` + a `dddd-dd-dd` text + `.txt`, optionally followed by one newline, and yields that text |
| Plans.MatchesSourceName | automation/wochenplaene/scripts/update_weekly_plan.py:13 | every such name matches, with its date text |
| Plans.MatchedIsSourceName | automation/wochenplaene/scripts/update_weekly_plan.py:13 | every matching name is of that form |
| Plans.CanonicalFilenameFollowsSource | automation/wochenplaene/scripts/update_weekly_plan.py:174-178 | a plan read from source `wochenplan_D.txt` is written as `wochenplan_D.html` |
| Index.PlanFragmentLines | automation/wochenplaene/scripts/update_weekly_plan.py:345-359 | `_plan_fragment_lines` returns the fragments `Fragments` defines for the body's lines |
| Index.BoldHeadingKept | automation/wochenplaene/scripts/update_weekly_plan.py:355-357 | the bold paragraph made from an `<h3>` line is kept as it is |
| Index.FragmentOfIsFragment | automation/wochenplaene/scripts/update_weekly_plan.py:348-358 | every kept line is ten blanks followed by a non-blank text that the rewriter keeps unchanged |
| Index.FragmentIsKept | automation/wochenplaene/scripts/update_weekly_plan.py:348-358 | such a fragment line is rewritten to itself |
| Index.FragmentsShape | automation/wochenplaene/scripts/update_weekly_plan.py:345-359 | there are at most as many fragments as lines, and each is a fragment line |
| Index.FragmentsOfFragments | automation/wochenplaene/scripts/update_weekly_plan.py:345-359 | rewriting fragment lines changes nothing |
| Index.FragmentsIdempotent | automation/wochenplaene/scripts/update_weekly_plan.py:345-359 | rewriting twice is rewriting once |
| Index.BoldHeadingOfEscaped | automation/wochenplaene/scripts/update_weekly_plan.py:356-357 | the bold paragraph of `<h3>e</h3>`, for a text without angle brackets, is `<p><strong>e</strong></p>` |
| Index.IndentedFragment | automation/wochenplaene/scripts/update_weekly_plan.py:348-358 | a line indented by blanks is rewritten by what follows the indent |
| Index.Heading3BecomesBold | automation/wochenplaene/scripts/update_weekly_plan.py:355-358 | the converter's `<h3>` line becomes ten blanks and `<p><strong>` with the same escaped text |
| Index.WeekParaLineDropped | automation/wochenplaene/scripts/update_weekly_plan.py:353-354 | the rendered week paragraph line is no fragment |
| Index.KwParagraphLineDropped | automation/wochenplaene/scripts/update_weekly_plan.py:353-354 | nor is the rendered line of any paragraph whose text starts with `KW ` |
| Index.FragmentsAppend | automation/wochenplaene/scripts/update_weekly_plan.py:345-359 | the fragments of two runs of lines are the fragments of each, in order |
| Index.DroppedLine | automation/wochenplaene/scripts/update_weekly_plan.py:351-354 | a line that yields no fragment can be cut out without changing the fragments |
| Index.FragmentOfNoLineBreak | automation/wochenplaene/scripts/update_weekly_plan.py:348-358 | a fragment made from a line without line breaks holds none |
| Index.FragmentsNoLineBreaks | automation/wochenplaene/scripts/update_weekly_plan.py:345-359 | the fragments of lines without line breaks hold none |
| Index.FragmentsOfJoinedLines | automation/wochenplaene/scripts/update_weekly_plan.py:347 | for lines without line breaks whose last line is not empty, the fragments of the joined HTML are the fragments of those lines |
| Overview.OverviewOfConvertedPlan | automation/wochenplaene/scripts/update_weekly_plan.py:347 | the overview fragments of a converted plan's body HTML, split back into lines, are the fragments of its rendered parts |
| Overview.WeekParaDropped | automation/wochenplaene/scripts/update_weekly_plan.py:353-354 | the week paragraph, the converter's first part, never reaches the overview: a converted plan's fragments are those of the parts after it |
| Overview.KwParagraphDropped | automation/wochenplaene/scripts/update_weekly_plan.py:353-354 | neither does any other paragraph part whose text starts with `KW `: the fragments are those of the parts before it followed by those after it |
| Overview.KwPartDropped | automation/wochenplaene/scripts/update_weekly_plan.py:353-354 | cutting a `KW ` paragraph out of any list of parts leaves its fragments unchanged |
| Index.InsertNewestFirst | automation/wochenplaene/scripts/update_weekly_plan.py:365 | inserting adds exactly the plan inserted |
| Index.SortNewestFirst | automation/wochenplaene/scripts/update_weekly_plan.py:365 | sorting keeps exactly the given plans |
| Index.InsertKeepsNewestFirst | automation/wochenplaene/scripts/update_weekly_plan.py:365 | inserting into a newest-first list keeps it newest first |
| Index.InsertMembers | automation/wochenplaene/scripts/update_weekly_plan.py:365 | an insertion holds only the plan inserted and the plans inserted into |
| Index.SortIsNewestFirst | automation/wochenplaene/scripts/update_weekly_plan.py:365 | the sorted plans are a permutation of the given ones, and none starts before a plan after it |
| Index.InsertKeepsOrder | automation/wochenplaene/scripts/update_weekly_plan.py:365 | the plan inserted comes first among the plans that start on its day |
| Index.SortIsStable | automation/wochenplaene/scripts/update_weekly_plan.py:365 | plans that start on the same day keep their order, as Python's stable `sorted` does with `reverse=True` |
| Index.EntryLines | automation/wochenplaene/scripts/update_weekly_plan.py:380-387 | the lines one plan adds are its entry: section, details, summary, body `div` with the fragments, and the closing lines |
| Index.RenderIndex | automation/wochenplaene/scripts/update_weekly_plan.py:362-389 | `render_index` is the error for no plans, and otherwise the page `IndexPage` defines |
| Index.SummaryLinesAppend | automation/wochenplaene/scripts/update_weekly_plan.py:379-388 | the summary lines of two runs of lines are those of each |
| Index.FragmentIsNoSummary | automation/wochenplaene/scripts/update_weekly_plan.py:358 | a fragment line is never a summary line |
| Index.EntrySummary | automation/wochenplaene/scripts/update_weekly_plan.py:380-387 | each entry holds exactly one summary line, its plan's week label |
| Index.FrameHasNoSummary | automation/wochenplaene/scripts/update_weekly_plan.py:380-387 | the fixed lines of an entry hold no summary line |
| Index.EntriesSummaries | automation/wochenplaene/scripts/update_weekly_plan.py:379-387 | the entries' summary lines are their plans' week labels, in order |
| Index.PageFrameHasNoSummary | automation/wochenplaene/scripts/update_weekly_plan.py:366-388 | the fixed lines of the page head, around the style block, and of its tail hold no summary line |
| Index.HeadHasNoSummary | automation/wochenplaene/scripts/update_weekly_plan.py:366-378 | the page head holds no summary line, as long as the style block does not itself start like one |
| Index.IndexListsPlansNewestFirst | automation/wochenplaene/scripts/update_weekly_plan.py:362-388 | the page's list of lines, with the style block as one element, has one summary per plan: every plan once, newest first |
| Index.EntryNoLineBreaks | automation/wochenplaene/scripts/update_weekly_plan.py:380-387 | an entry's lines hold no line break |
| Index.EntriesNoLineBreaks | automation/wochenplaene/scripts/update_weekly_plan.py:379-387 | neither do the lines of all entries |
| Index.PageTextLines | automation/wochenplaene/scripts/update_weekly_plan.py:366-389 | the page text is the joined page lines with the style block's own lines in its place |
| Index.PageLinesNoLineBreaks | automation/wochenplaene/scripts/update_weekly_plan.py:366-388 | the page lines hold no line break when the style block's lines hold none |
| Index.PageLinesSummaries | automation/wochenplaene/scripts/update_weekly_plan.py:366-388 | the summary lines of the page lines are the sorted plans' week labels |
| Index.IndexPageListsPlansNewestFirst | automation/wochenplaene/scripts/update_weekly_plan.py:362-389 | the page text, read back with `splitlines()`, has one summary line per plan: every plan once, newest first |

## Left out

- `automation/run_weekly_plan.py` is not part of this model. It only orchestrates
  other scripts and copies directories.
- File-system work is left out: `load_plans`' glob, reading and list building,
  `write_plan_files`, writing `index.html`, `main` and `parse_args`. Only the pure
  pieces are kept:
  - the file-name pattern;
  - the date parse;
  - the output file names.
- `render_plan_html` is left out. It reads the clock and formats it with
  `strftime`.
- `date.isocalendar` is a library call, so the ISO week and year are inputs to
  the conversion and fields of `Plan`. They are not derived from the start date.
- `STYLE_BLOCK` is constant CSS, so it is left out. `INDEX_STYLE_BLOCK` is a
  parameter of `IndexPage` and `RenderIndex`. `Index.IndexPageListsPlansNewestFirst`
  takes it as its lines and requires of them what the constant CSS satisfies: no
  line break inside a line, and no line that starts like a summary.
- `Plans.ParseIsoDate` accepts only the `YYYY-MM-DD` form. That is the only form
  the file-name pattern can hand it. The other forms `fromisoformat` accepts are
  left out.
- `Plans.MatchPlanName` reads `\d` as an ASCII digit. Python's `re` also accepts
  other Unicode decimal digits, which `fromisoformat` then refuses.
- Exceptions are modelled as `Result` errors: the missing title
  (`ConvertSpec`) and the empty plan list (`IndexPage`). An end date past year 9999
  (`OverflowError`) is `None` from `Plans.EndDate`.
- `Index.SortNewestFirst` is an insertion sort that stands for Python's `sorted`.
  Its specification is what the model keeps: a permutation, newest first, and
  stable.
