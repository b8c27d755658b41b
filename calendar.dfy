/** Gregorian calendar arithmetic behind Python's `datetime.date`, `calendar.monthrange` and the
    ISO `YYYY-MM-DD` strings the ledger stores and compares. */
module Calendar {
  import opened Text

  predicate IsLeap(y: int)
  {
    y % 4 == 0 && (y % 100 != 0 || y % 400 == 0)
  }

  /** `calendar.monthrange(y, m)[1]`. */
  function DaysInMonth(y: int, m: int): (n: int)
    requires 1 <= m <= 12
    ensures 28 <= n <= 31
    ensures n == 29 <==> m == 2 && IsLeap(y)
  {
    if m == 2 then (if IsLeap(y) then 29 else 28)
    else if m == 4 || m == 6 || m == 9 || m == 11 then 30
    else 31
  }

  function YearLength(y: int): int
  {
    if IsLeap(y) then 366 else 365
  }

  datatype Date = Date(year: int, month: int, day: int)

  /** The dates Python's `datetime.date` can represent. */
  predicate Valid(d: Date)
  {
    1 <= d.year <= 9999 && 1 <= d.month <= 12 && 1 <= d.day <= DaysInMonth(d.year, d.month)
  }

  /** Chronological order, field by field. */
  predicate Before(a: Date, b: Date)
  {
    a.year < b.year
    || (a.year == b.year && a.month < b.month)
    || (a.year == b.year && a.month == b.month && a.day < b.day)
  }

  function DaysBeforeYear(y: int): nat
    requires y >= 1
  {
    if y == 1 then 0 else DaysBeforeYear(y - 1) + YearLength(y - 1)
  }

  function DaysBeforeMonth(y: int, m: int): nat
    requires 1 <= m <= 12
  {
    if m == 1 then 0 else DaysBeforeMonth(y, m - 1) + DaysInMonth(y, m - 1)
  }

  /** `date.toordinal()`: 1 January of year 1 is day 1. */
  function DayNumber(d: Date): int
    requires Valid(d)
  {
    DaysBeforeYear(d.year) + DaysBeforeMonth(d.year, d.month) + d.day
  }

  lemma MonthsFillYear(y: int)
    ensures DaysBeforeMonth(y, 12) + DaysInMonth(y, 12) == YearLength(y)
  {
    var feb := DaysInMonth(y, 2);
    assert DaysBeforeMonth(y, 2) == 31;
    assert DaysBeforeMonth(y, 3) == 31 + feb;
    assert DaysBeforeMonth(y, 4) == 62 + feb;
    assert DaysBeforeMonth(y, 5) == 92 + feb;
    assert DaysBeforeMonth(y, 6) == 123 + feb;
    assert DaysBeforeMonth(y, 7) == 153 + feb;
    assert DaysBeforeMonth(y, 8) == 184 + feb;
    assert DaysBeforeMonth(y, 9) == 215 + feb;
    assert DaysBeforeMonth(y, 10) == 245 + feb;
    assert DaysBeforeMonth(y, 11) == 276 + feb;
    assert DaysBeforeMonth(y, 12) == 306 + feb;
  }

  lemma {:induction false} DaysBeforeMonthGrows(y: int, m1: int, m2: int)
    requires 1 <= m1 < m2 <= 12
    ensures DaysBeforeMonth(y, m1) + DaysInMonth(y, m1) <= DaysBeforeMonth(y, m2)
  {
    if m1 < m2 - 1 { DaysBeforeMonthGrows(y, m1, m2 - 1); }
  }

  lemma {:induction false} DaysBeforeYearGrows(y1: int, y2: int)
    requires 1 <= y1 < y2
    ensures DaysBeforeYear(y1) + YearLength(y1) <= DaysBeforeYear(y2)
  {
    if y1 < y2 - 1 { DaysBeforeYearGrows(y1, y2 - 1); }
  }

  lemma DayInsideYear(d: Date)
    requires Valid(d)
    ensures DaysBeforeYear(d.year) < DayNumber(d) <= DaysBeforeYear(d.year) + YearLength(d.year)
  {
    if d.month < 12 { DaysBeforeMonthGrows(d.year, d.month, 12); }
    MonthsFillYear(d.year);
  }

  /** Chronological order is the order of day numbers. */
  lemma DayNumberOrder(a: Date, b: Date)
    requires Valid(a) && Valid(b)
    ensures Before(a, b) <==> DayNumber(a) < DayNumber(b)
  {
    DayInsideYear(a);
    DayInsideYear(b);
    if a.year < b.year {
      DaysBeforeYearGrows(a.year, b.year);
    } else if b.year < a.year {
      DaysBeforeYearGrows(b.year, a.year);
    } else if a.month < b.month {
      DaysBeforeMonthGrows(a.year, a.month, b.month);
    } else if b.month < a.month {
      DaysBeforeMonthGrows(a.year, b.month, a.month);
    }
  }

  lemma DayNumberInjective(a: Date, b: Date)
    requires Valid(a) && Valid(b)
    ensures DayNumber(a) == DayNumber(b) <==> a == b
  {
    DayNumberOrder(a, b);
    DayNumberOrder(b, a);
  }

  /** `date.strftime("%Y-%m-%d")`, with the year always written with four digits. */
  function Iso(d: Date): (s: string)
    requires Valid(d)
    ensures |s| == 10 && s[4] == '-' && s[7] == '-'
  {
    Pad(d.year, 4) + "-" + Pad(d.month, 2) + "-" + Pad(d.day, 2)
  }

  /** `strftime("%Y-%m")`: the month key the accountant-export gate queries. */
  function IsoMonth(y: int, m: int): (s: string)
    requires 1 <= y <= 9999 && 1 <= m <= 12
    ensures |s| == 7 && s[4] == '-'
  {
    Pad(y, 4) + "-" + Pad(m, 2)
  }

  /** `strftime("%m/%Y")`: the month monthLabel offered by the manual export form. */
  function SlashMonth(y: int, m: int): (s: string)
    requires 1 <= y <= 9999 && 1 <= m <= 12
    ensures |s| == 7 && s[2] == '/'
  {
    Pad(m, 2) + "/" + Pad(y, 4)
  }

  /** ISO date strings compare, as strings, exactly as the dates compare in time. */
  lemma IsoOrder(a: Date, b: Date)
    requires Valid(a) && Valid(b)
    ensures LexLess(Iso(a), Iso(b)) <==> Before(a, b)
    ensures Iso(a) == Iso(b) <==> a == b
  {
    assert Pow10(4) == 10000 && Pow10(2) == 100;
    PadOrder(a.year, b.year, 4);
    PadOrder(a.month, b.month, 2);
    PadOrder(a.day, b.day, 2);
    PadInjective(a.year, b.year, 4);
    PadInjective(a.month, b.month, 2);
    PadInjective(a.day, b.day, 2);
    DashedOrder(Pad(a.year, 4), Pad(a.month, 2), Pad(a.day, 2), Pad(b.year, 4), Pad(b.month, 2), Pad(b.day, 2));
  }

  /** For ISO strings `<=` is chronological order: the comparisons the rental queries make are correct. */
  lemma IsoLeIsChronological(a: Date, b: Date)
    requires Valid(a) && Valid(b)
    ensures LexLe(Iso(a), Iso(b)) <==> DayNumber(a) <= DayNumber(b)
  {
    IsoOrder(a, b);
    DayNumberOrder(a, b);
    DayNumberInjective(a, b);
  }

  /** The month before (y, m). */
  function PreviousMonth(y: int, m: int): (r: (int, int))
    requires 1 <= y <= 9999 && 1 <= m <= 12 && !(y == 1 && m == 1)
    ensures 1 <= r.0 <= 9999 && 1 <= r.1 <= 12
  {
    if m == 1 then (y - 1, 12) else (y, m - 1)
  }

  /** `today.replace(day=1) - timedelta(days=1)` is the last day of the previous month. */
  lemma DayBeforeFirstOfMonth(y: int, m: int)
    requires 1 <= y <= 9999 && 1 <= m <= 12 && !(y == 1 && m == 1)
    ensures var (py, pm) := PreviousMonth(y, m);
      Valid(Date(py, pm, DaysInMonth(py, pm))) && Valid(Date(y, m, 1)) &&
      DayNumber(Date(py, pm, DaysInMonth(py, pm))) == DayNumber(Date(y, m, 1)) - 1
  {
    if m == 1 {
      MonthsFillYear(y - 1);
    }
  }

  /** Value of a string of decimal digits (Python's `int(s)`). */
  function DigitsValue(s: string): nat
    requires forall i :: 0 <= i < |s| ==> IsDigit(s[i])
  {
    if |s| == 0 then 0
    else
      assert IsDigit(s[|s| - 1]);
      10 * DigitsValue(s[..|s| - 1]) + (s[|s| - 1] as int - '0' as int)
  }

  lemma {:induction false} DigitsValuePad(n: nat, w: nat)
    requires n < Pow10(w)
    ensures DigitsValue(Pad(n, w)) == n
  {
    if w > 0 {
      var p := Pad(n, w);
      assert p[..|p| - 1] == Pad(n / 10, w - 1);
      assert n / 10 < Pow10(w - 1);
      DigitsValuePad(n / 10, w - 1);
    }
  }

  /** The range `(first day, last day)` of a month, as the export code builds it from a
      `YYYY-MM` key: `f"{mes}-01"` and `f"{mes}-{last_day:02d}"`. */
  function RangeFromIsoMonth(key: string): (r: (string, string))
    requires |key| == 7 && key[4] == '-'
    requires forall i :: 0 <= i < 7 && i != 4 ==> IsDigit(key[i])
    requires 1 <= DigitsValue(key[5..]) <= 12
    ensures |r.0| == 10 && |r.1| == 10
    ensures r.0[..7] == key && r.0[7..] == "-01"
    ensures r.1[..7] == key && r.1[7] == '-' && IsDigit(r.1[8]) && IsDigit(r.1[9])
    ensures DigitsValue(r.1[8..]) == DaysInMonth(DigitsValue(key[..4]), DigitsValue(key[5..]))
  {
    var month := DigitsValue(key[5..]);
    var last := DaysInMonth(DigitsValue(key[..4]), month);
    assert Pow10(2) == 100;
    DigitsValuePad(last, 2);
    var r := (key + "-01", key + "-" + Pad(last, 2));
    assert r.1[8..] == Pad(last, 2);
    r
  }

  /** The same range built from a `MM/YYYY` monthLabel: `f"{year}-{month}-01"` after `split('/')`. */
  function RangeFromSlashMonth(monthLabel: string): (r: (string, string))
    requires |monthLabel| == 7 && monthLabel[2] == '/'
    requires forall i :: 0 <= i < 7 && i != 2 ==> IsDigit(monthLabel[i])
    requires 1 <= DigitsValue(monthLabel[..2]) <= 12
    ensures |r.0| == 10 && |r.1| == 10
    ensures r.0[..4] == r.1[..4] == monthLabel[3..] && r.0[5..7] == r.1[5..7] == monthLabel[..2]
    ensures r.0[4] == r.1[4] == '-' && r.0[7..] == "-01"
    ensures r.1[7] == '-' && IsDigit(r.1[8]) && IsDigit(r.1[9])
    ensures DigitsValue(r.1[8..]) == DaysInMonth(DigitsValue(monthLabel[3..]), DigitsValue(monthLabel[..2]))
  {
    var monthStr, yearStr := monthLabel[..2], monthLabel[3..];
    var last := DaysInMonth(DigitsValue(yearStr), DigitsValue(monthStr));
    assert Pow10(2) == 100;
    DigitsValuePad(last, 2);
    var r := (yearStr + "-" + monthStr + "-01", yearStr + "-" + monthStr + "-" + Pad(last, 2));
    assert r.1[8..] == Pad(last, 2);
    r
  }

  /** Both ways of building a month range give the ISO first and last day of that month. */
  lemma MonthRanges(y: int, m: int)
    requires 1 <= y <= 9999 && 1 <= m <= 12
    ensures Valid(Date(y, m, 1)) && Valid(Date(y, m, DaysInMonth(y, m)))
    ensures var key := IsoMonth(y, m);
      (forall i :: 0 <= i < 7 && i != 4 ==> IsDigit(key[i])) && DigitsValue(key[5..]) == m &&
      RangeFromIsoMonth(key) == (Iso(Date(y, m, 1)), Iso(Date(y, m, DaysInMonth(y, m))))
    ensures var monthLabel := SlashMonth(y, m);
      (forall i :: 0 <= i < 7 && i != 2 ==> IsDigit(monthLabel[i])) && DigitsValue(monthLabel[..2]) == m &&
      RangeFromSlashMonth(monthLabel) == (Iso(Date(y, m, 1)), Iso(Date(y, m, DaysInMonth(y, m))))
  {
    assert Pow10(4) == 10000 && Pow10(2) == 100;
    var key, monthLabel := IsoMonth(y, m), SlashMonth(y, m);
    assert key[..4] == Pad(y, 4) && key[5..] == Pad(m, 2);
    assert monthLabel[..2] == Pad(m, 2) && monthLabel[3..] == Pad(y, 4);
    DigitsValuePad(y, 4);
    DigitsValuePad(m, 2);
    assert Pad(1, 2) == "01";
    var last := Pad(DaysInMonth(y, m), 2);
    assert Iso(Date(y, m, 1)) == key + "-01";
    assert Iso(Date(y, m, DaysInMonth(y, m))) == key + "-" + last;
    assert RangeFromSlashMonth(monthLabel).0 == key + "-01";
  }
}
