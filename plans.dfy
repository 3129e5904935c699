/**
 * Plans and their file names: the calendar dates of `datetime.date` (with
 * `isoformat`, `fromisoformat` on the `YYYY-MM-DD` form, adding days and comparing),
 * the pattern a plan's source file name must match, and the two names under which a
 * rendered plan is written.
 */
module Plans {
  import opened Wrappers
  import opened Text

  // ---------------------------------------------------------------------------
  // Calendar dates
  // ---------------------------------------------------------------------------

  /** A date of the proleptic Gregorian calendar, as `datetime.date` holds it. */
  datatype Date = Date(year: nat, month: nat, day: nat)

  const MinYear: nat := 1
  const MaxYear: nat := 9999

  /** The last date `datetime.date` can represent. */
  const MaxDate: Date := Date(MaxYear, 12, 31)

  predicate IsLeapYear(y: nat) {
    y % 4 == 0 && (y % 100 != 0 || y % 400 == 0)
  }

  function DaysInMonth(y: nat, m: nat): (r: nat)
    requires 1 <= m <= 12
    ensures 28 <= r <= 31
  {
    if m == 2 then (if IsLeapYear(y) then 29 else 28)
    else if m == 4 || m == 6 || m == 9 || m == 11 then 30
    else 31
  }

  function YearLength(y: nat): nat {
    if IsLeapYear(y) then 366 else 365
  }

  /** The dates `datetime.date` accepts. */
  predicate ValidDate(d: Date) {
    MinYear <= d.year <= MaxYear && 1 <= d.month <= 12 && 1 <= d.day <= DaysInMonth(d.year, d.month)
  }

  /** Days in the months of year `y` before month `m`. */
  function DaysBeforeMonth(y: nat, m: nat): nat
    requires 1 <= m <= 13
  {
    if m == 1 then 0 else DaysBeforeMonth(y, m - 1) + DaysInMonth(y, m - 1)
  }

  /** Days in the years before year `y`, counting from year 1. */
  function DaysBeforeYear(y: nat): nat
    requires y >= 1
  {
    if y == 1 then 0 else DaysBeforeYear(y - 1) + YearLength(y - 1)
  }

  /** `date.toordinal()`: 1 for 0001-01-01, one more for each following day. */
  function Ordinal(d: Date): nat
    requires ValidDate(d)
  {
    DaysBeforeYear(d.year) + DaysBeforeMonth(d.year, d.month) + d.day
  }

  /** The twelve months fill the year. */
  lemma MonthsFillYear(y: nat)
    ensures DaysBeforeMonth(y, 13) == YearLength(y)
  {
    var feb := if IsLeapYear(y) then 29 else 28;
    assert DaysBeforeMonth(y, 2) == 31;
    assert DaysBeforeMonth(y, 3) == 31 + feb;
    assert DaysBeforeMonth(y, 4) == 62 + feb;
    assert DaysBeforeMonth(y, 5) == 92 + feb;
    assert DaysBeforeMonth(y, 6) == 123 + feb;
    assert DaysBeforeMonth(y, 7) == 153 + feb;
    assert DaysBeforeMonth(y, 8) == 184 + feb;
    assert DaysBeforeMonth(y, 9) == 215 + feb;
    assert DaysBeforeMonth(y, 10) == 245 + feb;
    assert DaysBeforeMonth(y, 11) == 276 + feb;
    assert DaysBeforeMonth(y, 12) == 306 + feb;
  }

  lemma {:induction false} DaysBeforeMonthMonotone(y: nat, a: nat, b: nat)
    requires 1 <= a <= b <= 13
    ensures DaysBeforeMonth(y, a) <= DaysBeforeMonth(y, b)
  {
    if a < b {
      DaysBeforeMonthMonotone(y, a, b - 1);
    }
  }

  lemma {:induction false} DaysBeforeYearMonotone(a: nat, b: nat)
    requires 1 <= a <= b
    ensures DaysBeforeYear(a) <= DaysBeforeYear(b)
  {
    if a < b {
      DaysBeforeYearMonotone(a, b - 1);
    }
  }

  /** A date lies within its year: its ordinal is past the previous years and before the next ones. */
  lemma OrdinalInYear(d: Date)
    requires ValidDate(d)
    ensures DaysBeforeYear(d.year) < Ordinal(d) <= DaysBeforeYear(d.year + 1)
  {
    DaysBeforeMonthMonotone(d.year, d.month + 1, 13);
    MonthsFillYear(d.year);
  }

  /** `date < other`: dates compare by year, then month, then day. */
  predicate Before(a: Date, b: Date) {
    a.year < b.year || (a.year == b.year && (a.month < b.month || (a.month == b.month && a.day < b.day)))
  }

  /** Comparing dates is comparing their ordinals. */
  lemma BeforeIsOrdinalOrder(a: Date, b: Date)
    requires ValidDate(a) && ValidDate(b)
    ensures Before(a, b) <==> Ordinal(a) < Ordinal(b)
  {
    if Before(a, b) {
      OrdinalBefore(a, b);
    } else if a != b {
      OrdinalBefore(b, a);
    }
  }

  lemma OrdinalBefore(a: Date, b: Date)
    requires ValidDate(a) && ValidDate(b) && Before(a, b)
    ensures Ordinal(a) < Ordinal(b)
  {
    if a.year < b.year {
      OrdinalInYear(a);
      OrdinalInYear(b);
      DaysBeforeYearMonotone(a.year + 1, b.year);
    } else if a.month < b.month {
      DaysBeforeMonthMonotone(a.year, a.month + 1, b.month);
    }
  }

  /** The day after a date. */
  function NextDay(d: Date): Date
    requires ValidDate(d)
  {
    if d.day < DaysInMonth(d.year, d.month) then Date(d.year, d.month, d.day + 1)
    else if d.month < 12 then Date(d.year, d.month + 1, 1)
    else Date(d.year + 1, 1, 1)
  }

  /** Every date but the last has a next day, one ordinal later. */
  lemma NextDayOrdinal(d: Date)
    requires ValidDate(d) && d != MaxDate
    ensures ValidDate(NextDay(d)) && Ordinal(NextDay(d)) == Ordinal(d) + 1
  {
    if d.day == DaysInMonth(d.year, d.month) && d.month == 12 {
      MonthsFillYear(d.year);
    }
  }

  /** `date + timedelta(days=n)`, or `None` where Python raises OverflowError past year 9999. */
  function AddDays(d: Date, n: nat): Option<Date>
    requires ValidDate(d)
    decreases n
  {
    if n == 0 then Some(d)
    else if d == MaxDate then None
    else
      NextDayOrdinal(d);
      AddDays(NextDay(d), n - 1)
  }

  /** No valid date lies after the last one. */
  lemma OrdinalAtMostMax(d: Date)
    requires ValidDate(d)
    ensures Ordinal(d) <= Ordinal(MaxDate)
  {
    if d != MaxDate {
      assert Before(d, MaxDate);
      OrdinalBefore(d, MaxDate);
    }
  }

  /**
   * Adding `n` days moves the ordinal on by exactly `n`, and fails exactly when that
   * would pass the last representable date.
   */
  lemma {:induction false} AddDaysOrdinal(d: Date, n: nat)
    requires ValidDate(d)
    ensures AddDays(d, n).Some? <==> Ordinal(d) + n <= Ordinal(MaxDate)
    ensures AddDays(d, n).Some? ==> ValidDate(AddDays(d, n).value) && Ordinal(AddDays(d, n).value) == Ordinal(d) + n
    decreases n
  {
    OrdinalAtMostMax(d);
    if n > 0 && d != MaxDate {
      NextDayOrdinal(d);
      AddDaysOrdinal(NextDay(d), n - 1);
    }
  }

  /** `date.isoformat()`: `YYYY-MM-DD`. */
  function IsoFormat(d: Date): string
  {
    Pad(d.year, 4) + "-" + Pad(d.month, 2) + "-" + Pad(d.day, 2)
  }

  /** `\d{4}-\d{2}-\d{2}`, with ASCII digits. */
  predicate IsDateShape(s: string) {
    |s| == 10 && AllDigits(s[..4]) && s[4] == '-' && AllDigits(s[5..7]) && s[7] == '-' && AllDigits(s[8..])
  }

  /**
   * `date.fromisoformat(s)` on the `YYYY-MM-DD` form the file-name pattern admits, or
   * `None` where Python raises ValueError (another form, or no such calendar date).
   */
  function ParseIsoDate(s: string): (r: Option<Date>)
    ensures r.Some? ==> ValidDate(r.value)
  {
    if IsDateShape(s) then
      var d := Date(DigitsValue(s[..4]), DigitsValue(s[5..7]), DigitsValue(s[8..]));
      if ValidDate(d) then Some(d) else None
    else None
  }

  /** The pieces of an ISO date string. */
  lemma IsoFormatPieces(d: Date)
    requires ValidDate(d)
    ensures var s := IsoFormat(d);
      |s| == 10 && s[..4] == FixedDigits(d.year, 4) && s[4] == '-'
      && s[5..7] == FixedDigits(d.month, 2) && s[7] == '-' && s[8..] == FixedDigits(d.day, 2)
  {
    assert Pow10(2) == 100 && Pow10(4) == 10000;
    PadIsFixedDigits(d.year, 4);
    PadIsFixedDigits(d.month, 2);
    PadIsFixedDigits(d.day, 2);
    DatePieces(FixedDigits(d.year, 4), FixedDigits(d.month, 2), FixedDigits(d.day, 2));
  }

  /** Where the year, month and day of a `YYYY-MM-DD` string lie. */
  lemma DatePieces(y: string, m: string, d: string)
    requires |y| == 4 && |m| == 2 && |d| == 2
    ensures var s := y + "-" + m + "-" + d;
      |s| == 10 && s[..4] == y && s[4] == '-' && s[5..7] == m && s[7] == '-' && s[8..] == d
  {
    var s := y + "-" + m + "-" + d;
    assert s[..4] == y;
    assert s[5..7] == m;
    assert s[8..] == d;
  }

  /** Parsing the ISO form of a date gives the date back. */
  lemma ParseIsoFormat(d: Date)
    requires ValidDate(d)
    ensures ParseIsoDate(IsoFormat(d)) == Some(d)
  {
    IsoFormatPieces(d);
    assert Pow10(2) == 100 && Pow10(4) == 10000;
    DigitsValueFixed(d.year, 4);
    DigitsValueFixed(d.month, 2);
    DigitsValueFixed(d.day, 2);
  }

  /** A string that parses as a date is that date's ISO form. */
  lemma IsoFormatOfParsed(s: string)
    requires ParseIsoDate(s).Some?
    ensures IsoFormat(ParseIsoDate(s).value) == s
  {
    var d := ParseIsoDate(s).value;
    IsoFormatPieces(d);
    FixedDigitsValue(s[..4]);
    FixedDigitsValue(s[5..7]);
    FixedDigitsValue(s[8..]);
    var t := IsoFormat(d);
    assert t[..4] == s[..4] && t[5..7] == s[5..7] && t[8..] == s[8..];
    forall i | 0 <= i < 10 ensures t[i] == s[i] {
      if i < 4 {
        assert t[i] == t[..4][i] && s[i] == s[..4][i];
      } else if 5 <= i < 7 {
        assert t[i] == t[5..7][i - 5] && s[i] == s[5..7][i - 5];
      } else if 8 <= i {
        assert t[i] == t[8..][i - 8] && s[i] == s[8..][i - 8];
      }
    }
  }

  // ---------------------------------------------------------------------------
  // Plans and file names
  // ---------------------------------------------------------------------------

  /**
   * A plan: its source file name, its start date and that date's ISO week and ISO year
   * (as `date.isocalendar()` reports them), its title, body HTML and meal names.
   */
  datatype Plan = Plan(
    source: string,
    startDate: Date,
    isoWeek: nat,
    isoYear: nat,
    title: string,
    bodyHtml: string,
    mealNames: seq<string>)

  /** `plan.end_date`: six days after the start, or `None` past the last representable date. */
  function EndDate(plan: Plan): Option<Date>
    requires ValidDate(plan.startDate)
  {
    AddDays(plan.startDate, 6)
  }

  /** The end date is the sixth day after the start date. */
  lemma EndDateIsSixDaysLater(plan: Plan)
    requires ValidDate(plan.startDate)
    ensures EndDate(plan).Some? <==> Ordinal(plan.startDate) + 6 <= Ordinal(MaxDate)
    ensures EndDate(plan).Some? ==>
      ValidDate(EndDate(plan).value) && Ordinal(EndDate(plan).value) == Ordinal(plan.startDate) + 6
      && Before(plan.startDate, EndDate(plan).value)
  {
    AddDaysOrdinal(plan.startDate, 6);
    if EndDate(plan).Some? {
      BeforeIsOrdinalOrder(plan.startDate, EndDate(plan).value);
    }
  }

  /** `plan.canonical_filename`: `wochenplan_<ISO date>.html`. */
  function CanonicalFilename(plan: Plan): string
  {
    "wochenplan_" + IsoFormat(plan.startDate) + ".html"
  }

  /** `plan.kw_filename`: `kw<week, two digits>-<year>.html`. */
  function KwFilename(plan: Plan): string
  {
    "kw" + Pad(plan.isoWeek, 2) + "-" + NatToString(plan.isoYear) + ".html"
  }

  /** Two plans share a canonical file name only when they start on the same day. */
  lemma CanonicalFilenameInjective(p: Plan, q: Plan)
    requires ValidDate(p.startDate) && ValidDate(q.startDate)
    requires CanonicalFilename(p) == CanonicalFilename(q)
    ensures p.startDate == q.startDate
  {
    var a := IsoFormat(p.startDate);
    var b := IsoFormat(q.startDate);
    IsoFormatPieces(p.startDate);
    IsoFormatPieces(q.startDate);
    assert a == CanonicalFilename(p)[11..21];
    assert b == CanonicalFilename(q)[11..21];
    ParseIsoFormat(p.startDate);
    ParseIsoFormat(q.startDate);
  }

  /**
   * For ISO weeks below 100 (every ISO week is at most 53), two plans share a week file
   * name only when they have the same ISO week and year.
   */
  lemma KwFilenameInjective(p: Plan, q: Plan)
    requires p.isoWeek < 100 && q.isoWeek < 100
    requires KwFilename(p) == KwFilename(q)
    ensures p.isoWeek == q.isoWeek && p.isoYear == q.isoYear
  {
    assert Pow10(2) == 100;
    PadIsFixedDigits(p.isoWeek, 2);
    PadIsFixedDigits(q.isoWeek, 2);
    var n := KwFilename(p);
    assert n[2..4] == FixedDigits(p.isoWeek, 2);
    assert KwFilename(q)[2..4] == FixedDigits(q.isoWeek, 2);
    DigitsValueFixed(p.isoWeek, 2);
    DigitsValueFixed(q.isoWeek, 2);
    var ys := NatToString(p.isoYear);
    var yt := NatToString(q.isoYear);
    assert n[5..|n| - 5] == ys;
    assert KwFilename(q)[5..|n| - 5] == yt;
    NatToStringInjective(p.isoYear, q.isoYear);
  }

  /** The two names of a rendered plan never coincide, so neither file overwrites the other. */
  lemma FilenamesDiffer(p: Plan, q: Plan)
    ensures CanonicalFilename(p) != KwFilename(q)
  {
    assert CanonicalFilename(p)[0] == 'w';
    assert KwFilename(q)[0] == 'k';
  }

  // ---------------------------------------------------------------------------
  // Source file names
  // ---------------------------------------------------------------------------

  const SourcePrefix: string := "wochenplan_"
  const SourceSuffix: string := ".txt"

  /**
   * `PLAN_PATTERN.match(name)`: the date text of a source file name
   * `wochenplan_YYYY-MM-DD.txt`, or `None` when the name does not match. As in
   * Python's `re`, `$` also matches just before a final newline.
   */
  function MatchPlanName(name: string): (r: Option<string>)
    ensures r.Some? ==> IsDateShape(r.value)
  {
    var core := if |name| > 0 && name[|name| - 1] == '\n' then name[..|name| - 1] else name;
    if |core| == |SourcePrefix| + 10 + |SourceSuffix|
      && core[..|SourcePrefix|] == SourcePrefix
      && core[|core| - |SourceSuffix|..] == SourceSuffix
      && IsDateShape(core[|SourcePrefix|..|SourcePrefix| + 10])
    then Some(core[|SourcePrefix|..|SourcePrefix| + 10])
    else None
  }

  /** The names the pattern accepts are exactly the source names built from a date-shaped text. */
  lemma MatchPlanNameExactly(name: string, date: string)
    ensures MatchPlanName(name) == Some(date) <==>
      IsDateShape(date)
      && (name == SourcePrefix + date + SourceSuffix || name == SourcePrefix + date + SourceSuffix + "\n")
  {
    var plain := SourcePrefix + date + SourceSuffix;
    if IsDateShape(date) && (name == plain || name == plain + "\n") {
      MatchesSourceName(name, date);
    }
    if MatchPlanName(name) == Some(date) {
      MatchedIsSourceName(name);
    }
  }

  /** A source name built from a date-shaped text matches, with or without a final newline. */
  lemma MatchesSourceName(name: string, date: string)
    requires IsDateShape(date)
    requires name == SourcePrefix + date + SourceSuffix || name == SourcePrefix + date + SourceSuffix + "\n"
    ensures MatchPlanName(name) == Some(date)
  {
    var plain := SourcePrefix + date + SourceSuffix;
    assert plain[|plain| - 1] == 't';
    assert plain[..|SourcePrefix|] == SourcePrefix;
    assert plain[|SourcePrefix|..|SourcePrefix| + 10] == date;
    assert plain[|plain| - |SourceSuffix|..] == SourceSuffix;
    if name == plain + "\n" {
      assert name[..|name| - 1] == plain;
    }
  }

  /** A matching name is the source name of its date text, possibly followed by a newline. */
  lemma MatchedIsSourceName(name: string)
    requires MatchPlanName(name).Some?
    ensures var date := MatchPlanName(name).value;
      name == SourcePrefix + date + SourceSuffix || name == SourcePrefix + date + SourceSuffix + "\n"
  {
    var core := if |name| > 0 && name[|name| - 1] == '\n' then name[..|name| - 1] else name;
    assert core == core[..|SourcePrefix|] + core[|SourcePrefix|..|SourcePrefix| + 10] + core[|core| - |SourceSuffix|..];
    if core != name {
      assert name == core + "\n";
    }
  }

  /**
   * A plan read from a matching source file whose date text is a calendar date is
   * written as the `.html` file of the same base name.
   */
  lemma CanonicalFilenameFollowsSource(name: string, plan: Plan)
    requires MatchPlanName(name).Some?
    requires ParseIsoDate(MatchPlanName(name).value) == Some(plan.startDate)
    ensures CanonicalFilename(plan) == SourcePrefix + MatchPlanName(name).value + ".html"
  {
    IsoFormatOfParsed(MatchPlanName(name).value);
  }
}
