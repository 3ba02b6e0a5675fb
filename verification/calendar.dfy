/** The sheet-name calendar: the closed list of the 36 month sheets the
    backend accepts, the name of the current month's sheet, and the
    resolution of the optional `sheet` query parameter. */
module SheetCalendar {
  import opened Wrappers
  import opened JsText

  /** A month as `Date.prototype.getMonth` numbers it. */
  type MonthIndex = m: int | 0 <= m < 12

  const MonthNames: seq<string> := [
    "JANUARY", "FEBRUARY", "MARCH", "APRIL", "MAY", "JUNE",
    "JULY", "AUGUST", "SEPTEMBER", "OCTOBER", "NOVEMBER", "DECEMBER"
  ]

  const FirstYear: int := 2023
  const LastYear: int := 2025

  /** The sheet named `"<MONTH> <YEAR>"`. */
  function SheetName(month: MonthIndex, year: int): string {
    MonthNames[month] + " " + IntToString(year)
  }

  /** The twelve sheets of one year, in calendar order. */
  function YearSheets(year: int): seq<string> {
    seq(12, m requires 0 <= m < 12 => SheetName(m, year))
  }

  /** Every month sheet from `first` to `last`, year-major and month-minor. */
  function Calendar(first: int, last: int): seq<string>
    decreases last - first
  {
    if last < first then [] else Calendar(first, last - 1) + YearSheets(last)
  }

  /** `VALID_SHEETS`: JANUARY 2023 to DECEMBER 2025. */
  function ValidSheets(): seq<string> {
    Calendar(FirstYear, LastYear)
  }

  /** Builds `VALID_SHEETS` as the backend does at start-up: for each year,
      push the twelve month names in order. */
  method BuildValidSheets() returns (sheets: seq<string>)
    ensures sheets == ValidSheets()
  {
    sheets := [];
    var year := FirstYear;
    while year <= LastYear
      invariant FirstYear <= year <= LastYear + 1
      invariant sheets == Calendar(FirstYear, year - 1)
    {
      ghost var before := sheets;
      for m := 0 to |MonthNames|
        invariant sheets == before + YearSheets(year)[..m]
      {
        YearSheetsPrefix(year, m);
        sheets := sheets + [MonthNames[m] + " " + IntToString(year)];
      }
      assert YearSheets(year)[..12] == YearSheets(year);
      year := year + 1;
    }
  }

  lemma YearSheetsPrefix(year: int, m: MonthIndex)
    ensures YearSheets(year)[..m + 1] == YearSheets(year)[..m] + [MonthNames[m] + " " + IntToString(year)]
  {
    var ys := YearSheets(year);
    assert ys[m] == SheetName(m, year);
    assert ys[..m + 1] == ys[..m] + [ys[m]];
  }

  lemma {:induction false} CalendarLength(first: int, last: int)
    requires first <= last + 1
    ensures |Calendar(first, last)| == 12 * (last - first + 1)
    decreases last - first
  {
    if first <= last {
      CalendarLength(first, last - 1);
    }
  }

  /** Entry `12 * (year - first) + month` of the calendar is that month's
      sheet of that year. */
  lemma {:induction false} CalendarIndex(first: int, last: int, year: int, month: MonthIndex)
    requires first <= year <= last
    ensures 12 * (year - first) + month < |Calendar(first, last)|
    ensures Calendar(first, last)[12 * (year - first) + month] == SheetName(month, year)
    decreases last - first
  {
    CalendarLength(first, last - 1);
    if year < last {
      CalendarIndex(first, last - 1, year, month);
    }
  }

  /** A string is in the calendar exactly when it is some month's sheet of
      some year in range. */
  lemma {:induction false} CalendarMembers(first: int, last: int, s: string)
    ensures s in Calendar(first, last) <==>
      exists month: MonthIndex, year :: first <= year <= last && s == SheetName(month, year)
    decreases last - first
  {
    if last < first {
      return;
    }
    CalendarMembers(first, last - 1, s);
    var prev, ys := Calendar(first, last - 1), YearSheets(last);
    assert Calendar(first, last) == prev + ys;
    if s in prev + ys {
      if s !in prev {
        var m :| 0 <= m < 12 && ys[m] == s;
        assert first <= last && s == SheetName(m, last);
      }
    }
    if exists month: MonthIndex, year :: first <= year <= last && s == SheetName(month, year) {
      var m: MonthIndex, y :| first <= y <= last && s == SheetName(m, y);
      if y == last {
        assert ys[m] == s;
      } else {
        assert first <= y <= last - 1;
      }
    }
  }

  /** `VALID_SHEETS` has 36 entries, from "JANUARY 2023" to "DECEMBER 2025",
      entry `12 * (year - 2023) + month` being that month's sheet; membership
      means being some month's sheet of 2023, 2024 or 2025. */
  lemma ValidSheetsShape()
    ensures |ValidSheets()| == 36
    ensures ValidSheets()[0] == "JANUARY 2023" && ValidSheets()[35] == "DECEMBER 2025"
    ensures forall year, month: MonthIndex | FirstYear <= year <= LastYear ::
      ValidSheets()[12 * (year - FirstYear) + month] == SheetName(month, year)
    ensures forall s :: s in ValidSheets() <==>
      exists month: MonthIndex, year :: FirstYear <= year <= LastYear && s == SheetName(month, year)
  {
    CalendarLength(FirstYear, LastYear);
    forall year, month: MonthIndex | FirstYear <= year <= LastYear
      ensures ValidSheets()[12 * (year - FirstYear) + month] == SheetName(month, year)
    {
      CalendarIndex(FirstYear, LastYear, year, month);
    }
    forall s ensures s in ValidSheets() <==>
      exists month: MonthIndex, year :: FirstYear <= year <= LastYear && s == SheetName(month, year)
    {
      CalendarMembers(FirstYear, LastYear, s);
    }
    CalendarIndex(FirstYear, LastYear, 2023, 0);
    CalendarIndex(FirstYear, LastYear, 2025, 11);
    FourDigitYear(2023);
    FourDigitYear(2025);
    assert NatToString(2023) == "2023";
    assert NatToString(2025) == "2025";
  }

  predicate NoSpace(s: string) {
    forall i :: 0 <= i < |s| ==> s[i] != ' '
  }

  /** Splitting at the first space undoes `a + " " + b` when `a` has none. */
  lemma SplitAtSpace(a: string, b: string, c: string, d: string)
    requires NoSpace(a) && NoSpace(c)
    requires a + " " + b == c + " " + d
    ensures a == c && b == d
  {
    var s := a + " " + b;
    assert s[|a|] == ' ' && s[|c|] == ' ';
    assert forall i :: 0 <= i < |c| ==> s[i] == c[i];
    assert forall i :: 0 <= i < |a| ==> s[i] == a[i];
    assert |a| == |c|;
    assert a == s[..|a|] == c;
    assert b == s[|a| + 1..] == d;
  }

  /** The month names are upper-case words without spaces. */
  lemma MonthNamesShape()
    ensures forall m :: 0 <= m < 12 ==> NoSpace(MonthNames[m]) && IsUpper(MonthNames[m])
    ensures forall m :: 0 <= m < 12 ==> |MonthNames[m]| > 0 && 'A' <= MonthNames[m][0] <= 'Z'
  {
  }

  /** No two months share a name. */
  lemma MonthNamesDistinct()
    ensures forall i, j :: 0 <= i < j < 12 ==> MonthNames[i] != MonthNames[j]
  {
  }

  /** Different integers render differently in a template literal. */
  lemma IntToStringInjective(a: int, b: int)
    requires IntToString(a) == IntToString(b)
    ensures a == b
  {
    var sa, sb := IntToString(a), IntToString(b);
    assert (a < 0) == (sa[0] == '-') && (b < 0) == (sb[0] == '-');
    if a < 0 {
      assert NatToString(-a) == sa[1..] == sb[1..] == NatToString(-b);
      NatToStringInjective(-a, -b);
    } else {
      NatToStringInjective(a, b);
    }
  }

  /** Different (month, year) pairs name different sheets. */
  lemma SheetNameInjective(m1: MonthIndex, y1: int, m2: MonthIndex, y2: int)
    requires SheetName(m1, y1) == SheetName(m2, y2)
    ensures m1 == m2 && y1 == y2
  {
    MonthNamesShape();
    MonthNamesDistinct();
    SplitAtSpace(MonthNames[m1], IntToString(y1), MonthNames[m2], IntToString(y2));
    IntToStringInjective(y1, y2);
  }

  /** A sheet name is already upper case and has no whitespace at either end. */
  lemma SheetNameCanonical(month: MonthIndex, year: int)
    ensures IsUpper(SheetName(month, year)) && Trimmed(SheetName(month, year))
  {
    MonthNamesShape();
    var s := SheetName(month, year);
    var digits := NatToString(if year < 0 then -year else year);
    assert IsDigit(digits[|digits| - 1]);
    assert s[|s| - 1] == digits[|digits| - 1];
    assert s[0] == MonthNames[month][0];
  }

  /** Entry `i` of `VALID_SHEETS` is the sheet of month `i % 12` of year
      `2023 + i / 12`. */
  lemma ValidSheetAt(i: int) returns (month: MonthIndex, year: int)
    requires 0 <= i < 36
    ensures FirstYear <= year <= LastYear && i == 12 * (year - FirstYear) + month
    ensures i < |ValidSheets()| && ValidSheets()[i] == SheetName(month, year)
  {
    year, month := FirstYear + i / 12, i % 12;
    CalendarIndex(FirstYear, LastYear, year, month);
  }

  /** The 36 entries of `VALID_SHEETS` are pairwise distinct. */
  lemma ValidSheetsDistinct()
    ensures forall i, j :: 0 <= i < j < |ValidSheets()| ==> ValidSheets()[i] != ValidSheets()[j]
  {
    CalendarLength(FirstYear, LastYear);
    forall i, j | 0 <= i < j < |ValidSheets()|
      ensures ValidSheets()[i] != ValidSheets()[j]
    {
      var mi, yi := ValidSheetAt(i);
      var mj, yj := ValidSheetAt(j);
      if ValidSheets()[i] == ValidSheets()[j] {
        SheetNameInjective(mi, yi, mj, yj);
      }
    }
  }

  /** `getCurrentMonthSheet`, with the clock's month (0..11) and full year
      passed in. */
  function CurrentMonthSheet(month: MonthIndex, year: int): string {
    SheetName(month, year)
  }

  /** The current month's sheet is a valid sheet exactly when the clock's
      year is 2023, 2024 or 2025. */
  lemma CurrentMonthInRange(month: MonthIndex, year: int)
    ensures CurrentMonthSheet(month, year) in ValidSheets() <==> FirstYear <= year <= LastYear
  {
    ValidSheetsShape();
    var c := CurrentMonthSheet(month, year);
    if c in ValidSheets() {
      var m: MonthIndex, y :| FirstYear <= y <= LastYear && c == SheetName(m, y);
      SheetNameInjective(month, year, m, y);
    }
    if FirstYear <= year <= LastYear {
      assert c == ValidSheets()[12 * (year - FirstYear) + month];
    }
  }

  /** `resolveSheetName(sheet)`: a missing or blank parameter selects the
      current month's sheet, unchecked; anything else is trimmed and upper
      cased and must then be one of `VALID_SHEETS`. */
  function ResolveSheetName(sheet: Option<string>, month: MonthIndex, year: int): (r: Result<string, Error>)
    ensures Trim(sheet.GetOr("")) == "" ==> r == Success(CurrentMonthSheet(month, year))
    ensures Trim(sheet.GetOr("")) != "" ==>
      && (r.Success? <==> ToUpper(Trim(sheet.GetOr(""))) in ValidSheets())
      && (r.Success? ==> r.value == ToUpper(Trim(sheet.GetOr(""))))
      && (r.Failure? ==> r.error == InvalidSheetName(sheet.GetOr("")))
    ensures r.Success? ==> r.value in ValidSheets() || r.value == CurrentMonthSheet(month, year)
  {
    var sheetName := ToUpper(Trim(sheet.GetOr("")));
    if sheetName == "" then
      Success(CurrentMonthSheet(month, year))
    else if sheetName !in ValidSheets() then
      Failure(InvalidSheetName(sheet.GetOr("")))
    else
      Success(sheetName)
  }

  /** Every valid sheet name is non-empty, upper case and trimmed. */
  lemma ValidSheetCanonical(s: string)
    requires s in ValidSheets()
    ensures s != [] && IsUpper(s) && Trimmed(s)
  {
    CalendarMembers(FirstYear, LastYear, s);
    var m: MonthIndex, y :| FirstYear <= y <= LastYear && s == SheetName(m, y);
    SheetNameCanonical(m, y);
  }

  /** Any spelling of a valid sheet name, in any letter case and with any
      surrounding whitespace, resolves to the canonical name. */
  lemma ResolveAnySpelling(canonical: string, spelled: string, before: string, after: string,
                           month: MonthIndex, year: int)
    requires canonical in ValidSheets()
    requires ToUpper(spelled) == canonical
    requires AllWhitespace(before) && AllWhitespace(after)
    ensures ResolveSheetName(Some(before + spelled + after), month, year) == Success(canonical)
  {
    ValidSheetCanonical(canonical);
    TrimmedOfUpper(spelled);
    TrimPadded(before, spelled, after);
  }

  /** Once the clock is past December 2025, the unparameterised request
      resolves to a sheet name that is refused when submitted explicitly. */
  lemma CurrentMonthNotResubmittable(month: MonthIndex, year: int, month': MonthIndex, year': int)
    requires year > LastYear
    ensures ResolveSheetName(None, month, year) == Success(CurrentMonthSheet(month, year))
    ensures ResolveSheetName(Some(CurrentMonthSheet(month, year)), month', year').Failure?
  {
    var c := CurrentMonthSheet(month, year);
    SheetNameCanonical(month, year);
    CanonicalUnchanged(c);
    CurrentMonthInRange(month, year);
  }
}
