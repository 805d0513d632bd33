/** Stay-date formatting (`setDate`, app.js lines 8-19) and the one-day step
    `date.setDate(date.getDate() + 1)` that turns today into tomorrow. The
    clock is not read: today is a parameter. */
module Dates {
  import opened Wrappers
  import opened Text

  /** A local calendar date as `getFullYear()`, `getMonth() + 1` and
      `getDate()` report it (the month here is already 1-based). */
  datatype Date = Date(year: nat, month: nat, day: nat)

  predicate IsLeapYear(y: nat) {
    y % 4 == 0 && (y % 100 != 0 || y % 400 == 0)
  }

  function DaysInMonth(y: nat, m: nat): (n: nat)
    requires 1 <= m <= 12
    ensures 28 <= n <= 31
  {
    if m == 2 then (if IsLeapYear(y) then 29 else 28)
    else if m == 4 || m == 6 || m == 9 || m == 11 then 30
    else 31
  }

  function DaysInYear(y: nat): nat {
    if IsLeapYear(y) then 366 else 365
  }

  /** A date that exists in the proleptic Gregorian calendar. */
  predicate Valid(t: Date) {
    1 <= t.month <= 12 && 1 <= t.day <= DaysInMonth(t.year, t.month)
  }

  /** The calendar successor: the day after, rolling over the month at its
      last day and the year after 31 December. */
  function NextDay(t: Date): (r: Date)
    requires Valid(t)
    ensures Valid(r)
  {
    if t.day < DaysInMonth(t.year, t.month) then Date(t.year, t.month, t.day + 1)
    else if t.month < 12 then Date(t.year, t.month + 1, 1)
    else Date(t.year + 1, 1, 1)
  }

  // ---------------------------------------------------------------------
  // An independent reference: the number of days since 1 January of year 0

  function DaysBeforeYear(y: nat): nat {
    if y == 0 then 0 else DaysBeforeYear(y - 1) + DaysInYear(y - 1)
  }

  function DaysBeforeMonth(y: nat, m: nat): nat
    requires 1 <= m <= 13
  {
    if m == 1 then 0 else DaysBeforeMonth(y, m - 1) + DaysInMonth(y, m - 1)
  }

  function DayNumber(t: Date): nat
    requires Valid(t)
  {
    DaysBeforeYear(t.year) + DaysBeforeMonth(t.year, t.month) + t.day - 1
  }

  /** The twelve months add up to the length of the year. */
  lemma YearLength(y: nat)
    ensures DaysBeforeMonth(y, 13) == DaysInYear(y)
  {
    var feb := DaysInMonth(y, 2);
    assert DaysBeforeMonth(y, 2) == 31;
    assert DaysBeforeMonth(y, 3) == 31 + feb;
    assert DaysBeforeMonth(y, 4) == 62 + feb;
    assert DaysBeforeMonth(y, 5) == 92 + feb;
    assert DaysBeforeMonth(y, 6) == 123 + feb;
    assert DaysBeforeMonth(y, 7) == 153 + feb;
    assert DaysBeforeMonth(y, 8) == 184 + feb;
    assert DaysBeforeMonth(y, 9) == 215 + feb;
    assert DaysBeforeMonth(y, 10) == 245 + feb;
    assert DaysBeforeMonth(y, 11) == 276 + feb;
    assert DaysBeforeMonth(y, 12) == 306 + feb;
  }

  /** Tomorrow is exactly one day after today. */
  lemma NextDayIsSuccessor(t: Date)
    requires Valid(t)
    ensures DayNumber(NextDay(t)) == DayNumber(t) + 1
  {
    if t.day == DaysInMonth(t.year, t.month) && t.month == 12 {
      YearLength(t.year);
    }
  }

  lemma {:induction false} LaterYearsStartLater(a: nat, b: nat)
    requires a < b
    ensures DaysBeforeYear(a + 1) <= DaysBeforeYear(b)
    decreases b - a
  {
    if a + 1 < b {
      LaterYearsStartLater(a, b - 1);
    }
  }

  lemma {:induction false} LaterMonthsStartLater(y: nat, a: nat, b: nat)
    requires 1 <= a < b <= 13
    ensures DaysBeforeMonth(y, a + 1) <= DaysBeforeMonth(y, b)
    decreases b - a
  {
    if a + 1 < b {
      LaterMonthsStartLater(y, a, b - 1);
    }
  }

  /** Every date's day number lies inside its own year. */
  lemma DayNumberWithinYear(t: Date)
    requires Valid(t)
    ensures DaysBeforeYear(t.year) <= DayNumber(t) < DaysBeforeYear(t.year + 1)
  {
    YearLength(t.year);
    if t.month < 12 {
      LaterMonthsStartLater(t.year, t.month, 13);
    }
  }

  /** Different dates have different day numbers. */
  lemma DayNumberInjective(a: Date, b: Date)
    requires Valid(a) && Valid(b)
    ensures DayNumber(a) == DayNumber(b) <==> a == b
  {
    if a.year != b.year {
      DayNumberWithinYear(a);
      DayNumberWithinYear(b);
      if a.year < b.year {
        LaterYearsStartLater(a.year, b.year);
      } else {
        LaterYearsStartLater(b.year, a.year);
      }
    } else if a.month < b.month {
      LaterMonthsStartLater(a.year, a.month, b.month);
    } else if b.month < a.month {
      LaterMonthsStartLater(a.year, b.month, a.month);
    }
  }

  /** Tomorrow is the one and only date one day after today. */
  lemma NextDayUnique(t: Date, u: Date)
    requires Valid(t) && Valid(u)
    ensures u == NextDay(t) <==> DayNumber(u) == DayNumber(t) + 1
  {
    NextDayIsSuccessor(t);
    DayNumberInjective(u, NextDay(t));
  }

  // ---------------------------------------------------------------------
  // setDate

  /** `setDate(today, type)`: `"yyyy-m-d"` when `type == "gracebay"`, and
      `"d-m-yyyy"` for any other type, including the default `null`; no
      zero padding in either. `None` is the omitted (null) type. */
  function SetDate(today: Date, kind: Option<string>): string {
    var yyyy, mm, dd := Numeral(today.year), Numeral(today.month), Numeral(today.day);
    if kind == Some("gracebay") then yyyy + "-" + mm + "-" + dd
    else dd + "-" + mm + "-" + yyyy
  }

  /** Reads a date back from text in the layout `kind` selects. */
  function ParseDate(s: string, kind: Option<string>): Option<Date> {
    var parts := Split(s, '-');
    if |parts| != 3 then None
    else
      var fields := if kind == Some("gracebay") then parts else [parts[2], parts[1], parts[0]];
      match (ParseNumeral(fields[0]), ParseNumeral(fields[1]), ParseNumeral(fields[2]))
      case (Some(y), Some(m), Some(d)) =>
        if Valid(Date(y, m, d)) then Some(Date(y, m, d)) else None
      case _ => None
  }

  lemma NumeralHasNoDash(n: nat)
    ensures '-' !in Numeral(n)
  {
  }

  /** Both layouts hold the same three numerals separated by exactly two
      dashes, in opposite orders. */
  lemma SetDateFields(t: Date, kind: Option<string>)
    ensures kind != Some("gracebay") ==>
      Split(SetDate(t, kind), '-') == [Numeral(t.day), Numeral(t.month), Numeral(t.year)]
    ensures kind == Some("gracebay") ==>
      Split(SetDate(t, kind), '-') == [Numeral(t.year), Numeral(t.month), Numeral(t.day)]
    ensures Count(SetDate(t, kind), '-') == 2
  {
    var yyyy, mm, dd := Numeral(t.year), Numeral(t.month), Numeral(t.day);
    NumeralHasNoDash(t.year);
    NumeralHasNoDash(t.month);
    NumeralHasNoDash(t.day);
    if kind == Some("gracebay") {
      SplitThree(yyyy, mm, dd, '-');
    } else {
      SplitThree(dd, mm, yyyy, '-');
    }
    SplitCount(SetDate(t, kind), '-');
  }

  /** The formatted date reads back as the date it was made from. */
  lemma SetDateReadsBack(t: Date, kind: Option<string>)
    requires Valid(t)
    ensures ParseDate(SetDate(t, kind), kind) == Some(t)
  {
    SetDateFields(t, kind);
    NumeralRoundTrip(t.year, "");
    NumeralRoundTrip(t.month, "");
    NumeralRoundTrip(t.day, "");
  }

  /** Any text that reads back as a date is exactly that date's rendering:
      the layout has one spelling per date. */
  lemma ParsedDateIsCanonical(s: string, kind: Option<string>, t: Date)
    requires ParseDate(s, kind) == Some(t)
    ensures SetDate(t, kind) == s
  {
    var parts := Split(s, '-');
    var fields := if kind == Some("gracebay") then parts else [parts[2], parts[1], parts[0]];
    NumeralRoundTrip(t.year, fields[0]);
    NumeralRoundTrip(t.month, fields[1]);
    NumeralRoundTrip(t.day, fields[2]);
    SplitThenJoin(s, '-');
    assert Join(parts, '-') == parts[0] + "-" + parts[1] + "-" + parts[2] by {
      assert Join(parts[2..], '-') == parts[2];
    }
  }

  /** The stay window of one run: today and tomorrow, both in the layout
      the site's `type` selects (app.js lines 25-28 and their copies). */
  function StayDates(today: Date, kind: Option<string>): (window: (string, string))
    requires Valid(today)
    ensures ParseDate(window.0, kind) == Some(today)
    ensures ParseDate(window.1, kind) == Some(NextDay(today))
  {
    SetDateReadsBack(today, kind);
    SetDateReadsBack(NextDay(today), kind);
    (SetDate(today, kind), SetDate(NextDay(today), kind))
  }

  /** The worked example: 5 March 2024 in both layouts. */
  lemma SetDateExample()
    ensures SetDate(Date(2024, 3, 5), None) == "5-3-2024"
    ensures SetDate(Date(2024, 3, 5), Some("gracebay")) == "2024-3-5"
  {
    assert Numeral(2024) == "2024";
  }

  /** Month and year rollover: the run that starts on 31 December 2024
      departs on "1-1-2025". */
  lemma StayDatesRollover()
    ensures SetDate(NextDay(Date(2024, 12, 31)), None) == "1-1-2025"
  {
    assert NextDay(Date(2024, 12, 31)) == Date(2025, 1, 1);
    assert Numeral(2025) == "2025";
  }

  /** A leap year has a 29 February. */
  lemma StayDatesLeapDay()
    ensures SetDate(NextDay(Date(2024, 2, 28)), Some("gracebay")) == "2024-2-29"
  {
    assert NextDay(Date(2024, 2, 28)) == Date(2024, 2, 29);
    assert Numeral(2024) == "2024";
    assert Numeral(29) == "29";
  }
}
