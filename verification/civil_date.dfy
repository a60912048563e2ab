/** Civil dates and their `YYYY-MM-DD` text form (the full-date of section 5.6
    of RFC 3339). The application keeps every date column as such a string and
    compares them with JavaScript's `<=` on strings; section 5.1 of RFC 3339
    promises that this text order is the chronological order, which is proved
    here as `FormatOrder`. */
module CivilDate {
  import opened Text

  /** Lengths of time in the integer milliseconds that stand for instants. */
  const MinuteMs: nat := 1000 * 60
  const HourMs: nat := 60 * MinuteMs
  const DayMs: nat := 24 * HourMs

  datatype Date = Date(year: int, month: int, day: int)

  predicate IsLeapYear(y: int) { (y % 4 == 0 && y % 100 != 0) || y % 400 == 0 }

  function DaysInMonth(y: int, m: int): int
  {
    if m == 2 then (if IsLeapYear(y) then 29 else 28)
    else if m == 4 || m == 6 || m == 9 || m == 11 then 30
    else 31
  }

  /** A date that has a four-digit full-date representation. */
  predicate Valid(d: Date)
  {
    0 <= d.year <= 9999 && 1 <= d.month <= 12 && 1 <= d.day <= DaysInMonth(d.year, d.month)
  }

  /** Chronological order: year, then month, then day. */
  predicate Before(a: Date, b: Date)
  {
    a.year < b.year || (a.year == b.year && (a.month < b.month || (a.month == b.month && a.day < b.day)))
  }

  predicate NotAfter(a: Date, b: Date) { a == b || Before(a, b) }

  /** `toISOString().split('T')[0]`. */
  function FormatDate(d: Date): (s: string)
    requires Valid(d)
    ensures |s| == 10 && s[4] == '-' && s[7] == '-'
  {
    PadDigits(d.year, 4) + ("-" + (PadDigits(d.month, 2) + ("-" + PadDigits(d.day, 2))))
  }

  /** Reading a `YYYY-MM-DD` string back; anything else is not a date. */
  function ParseDate(s: string): (r: Option<Date>)
    ensures r.Some? ==> Valid(r.value)
  {
    if |s| == 10 && s[4] == '-' && s[7] == '-'
       && AllDigits(s[..4]) && AllDigits(s[5..7]) && AllDigits(s[8..])
    then
      var d := Date(DigitsValue(s[..4]), DigitsValue(s[5..7]), DigitsValue(s[8..]));
      if Valid(d) then Some(d) else None
    else None
  }

  /** Formatting then parsing gives the date back. */
  lemma ParseFormat(d: Date)
    requires Valid(d)
    ensures ParseDate(FormatDate(d)) == Some(d)
  {
    var s := FormatDate(d);
    assert s[..4] == PadDigits(d.year, 4);
    assert s[5..7] == PadDigits(d.month, 2);
    assert s[8..] == PadDigits(d.day, 2);
    PadDigitsValue(d.year, 4);
    PadDigitsValue(d.month, 2);
    PadDigitsValue(d.day, 2);
  }

  /** A string that parses is the formatting of what it parses to: the text
      form of a date is unique. */
  lemma FormatParse(s: string)
    requires ParseDate(s).Some?
    ensures FormatDate(ParseDate(s).value) == s
  {
    DigitsValuePad(s[..4]);
    DigitsValuePad(s[5..7]);
    DigitsValuePad(s[8..]);
    assert s == s[..4] + ("-" + (s[5..7] + ("-" + s[8..])));
  }

  /** The month-and-day tail `MM-DD` sorts as the pair (month, day). */
  lemma {:induction false} MonthDayOrder(a: Date, b: Date)
    requires Valid(a) && Valid(b)
    ensures LexLe(PadDigits(a.month, 2) + ("-" + PadDigits(a.day, 2)), PadDigits(b.month, 2) + ("-" + PadDigits(b.day, 2)))
        <==> (a.month < b.month || (a.month == b.month && a.day <= b.day))
  {
    var ma, mb := PadDigits(a.month, 2), PadDigits(b.month, 2);
    var da, db := PadDigits(a.day, 2), PadDigits(b.day, 2);
    assert Pow10(2) == 100;
    PadDigitsOrder(a.month, b.month, 2);
    PadDigitsOrder(a.day, b.day, 2);
    LexLeConcat(ma, "-" + da, mb, "-" + db);
    LexLeConcat("-", da, "-", db);
    if ma == mb {
      PadDigitsValue(a.month, 2);
      PadDigitsValue(b.month, 2);
    } else {
      assert a.month != b.month;
    }
  }

  /** Section 5.1 of RFC 3339: full-dates sort as text exactly as they sort in time. */
  lemma {:induction false} FormatOrder(a: Date, b: Date)
    requires Valid(a) && Valid(b)
    ensures LexLe(FormatDate(a), FormatDate(b)) <==> NotAfter(a, b)
  {
    var ya, yb := PadDigits(a.year, 4), PadDigits(b.year, 4);
    var ta := PadDigits(a.month, 2) + ("-" + PadDigits(a.day, 2));
    var tb := PadDigits(b.month, 2) + ("-" + PadDigits(b.day, 2));
    assert FormatDate(a) == ya + ("-" + ta);
    assert FormatDate(b) == yb + ("-" + tb);
    assert Pow10(4) == 10000;
    PadDigitsOrder(a.year, b.year, 4);
    LexLeConcat(ya, "-" + ta, yb, "-" + tb);
    LexLeConcat("-", ta, "-", tb);
    MonthDayOrder(a, b);
    if ya == yb {
      PadDigitsValue(a.year, 4);
      PadDigitsValue(b.year, 4);
    } else {
      assert a.year != b.year;
    }
  }

  /** Two valid dates with the same text are the same date. */
  lemma FormatInjective(a: Date, b: Date)
    requires Valid(a) && Valid(b) && FormatDate(a) == FormatDate(b)
    ensures a == b
  {
    ParseFormat(a);
    ParseFormat(b);
  }

  /** The calendar day after `d` (the year may step past 9999). */
  function NextDay(d: Date): (r: Date)
    requires Valid(d)
    ensures Before(d, r)
    ensures r.year <= d.year + 1
    ensures d.year < 9999 ==> Valid(r)
  {
    if d.day < DaysInMonth(d.year, d.month) then Date(d.year, d.month, d.day + 1)
    else if d.month < 12 then Date(d.year, d.month + 1, 1)
    else Date(d.year + 1, 1, 1)
  }

  /** `d` advanced by `n` calendar days (`setDate(getDate() + n)`). */
  function AddDays(d: Date, n: nat): (r: Date)
    requires Valid(d) && d.year + n <= 9999
    ensures Valid(r) && r.year <= d.year + n
    ensures n > 0 ==> Before(d, r)
    decreases n
  {
    if n == 0 then d
    else
      var e := NextDay(d);
      var r := AddDays(e, n - 1);
      assert n - 1 > 0 ==> Before(e, r);
      r
  }

  /** Adding more days gives a strictly later date. */
  lemma {:induction false} AddDaysMonotone(d: Date, m: nat, n: nat)
    requires Valid(d) && m < n && d.year + n <= 9999
    ensures Before(AddDays(d, m), AddDays(d, n))
    decreases m
  {
    if m > 0 {
      AddDaysMonotone(NextDay(d), m - 1, n - 1);
    }
  }
}
