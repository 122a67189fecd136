/** The sessions list's date filter: the text of the browser's date input
    ("YYYY-MM-DD"), the local date the page builds from it with JavaScript's
    `Date` setters, and the "YYYY-MM-DD" text it sends as the `date` filter,
    taken from the UTC form of that date. */
module DateFilter {
  import opened Strings

  datatype CalendarDate = CalendarDate(year: int, month: int, day: int)

  predicate IsLeap(y: int)
  {
    (y % 4 == 0 && y % 100 != 0) || y % 400 == 0
  }

  function DaysInMonth(y: int, m: int): (n: int)
    requires 1 <= m <= 12
    ensures 28 <= n <= 31
  {
    if m == 2 then (if IsLeap(y) then 29 else 28)
    else if m == 4 || m == 6 || m == 9 || m == 11 then 30
    else 31
  }

  /** A calendar date the date input can hold (years 0 to 9999). */
  predicate Valid(d: CalendarDate)
  {
    0 <= d.year <= 9999 && 1 <= d.month <= 12 && 1 <= d.day <= DaysInMonth(d.year, d.month)
  }

  /** JavaScript's `Date` setters accept a day past the end of the month and
      carry the excess into the next month. */
  function Normalize(y: int, m: int, d: int): (r: CalendarDate)
    requires 1 <= m <= 12 && 1 <= d <= 31
    ensures 1 <= r.month <= 12 && 1 <= r.day <= DaysInMonth(r.year, r.month)
    ensures d <= DaysInMonth(y, m) <==> r == CalendarDate(y, m, d)
  {
    if d <= DaysInMonth(y, m) then CalendarDate(y, m, d)
    else if m == 12 then CalendarDate(y + 1, 1, d - DaysInMonth(y, m))
    else CalendarDate(y, m + 1, d - DaysInMonth(y, m))
  }

  /** The date `handleDateChange` builds: starting from today, it sets the
      year, then the month, then the day, each step normalised on its own. */
  function JsSelectedDate(today: CalendarDate, input: CalendarDate): (r: CalendarDate)
    requires Valid(today) && Valid(input)
    ensures 1 <= r.month <= 12 && 1 <= r.day <= DaysInMonth(r.year, r.month)
  {
    var afterYear := Normalize(input.year, today.month, today.day);
    var afterMonth := Normalize(afterYear.year, input.month, afterYear.day);
    Normalize(afterMonth.year, afterMonth.month, input.day)
  }

  /** Whenever today's day of the month is at most 28 the setters land on
      the date that was picked. */
  lemma JsSelectedDateEarlyInMonth(today: CalendarDate, input: CalendarDate)
    requires Valid(today) && Valid(input) && today.day <= 28
    ensures JsSelectedDate(today, input) == input
  {
  }

  /** On the 31st of January, picking 15 February 2025 selects 15 March:
      setting the month first makes "31 February", which rolls over. */
  lemma JsSelectedDateRollsOver()
    ensures JsSelectedDate(CalendarDate(2025, 1, 31), CalendarDate(2025, 2, 15))
         == CalendarDate(2025, 3, 15)
  {
  }

  function PrevDay(d: CalendarDate): (r: CalendarDate)
    requires 1 <= d.month <= 12 && 1 <= d.day <= DaysInMonth(d.year, d.month)
    ensures 1 <= r.month <= 12 && 1 <= r.day <= DaysInMonth(r.year, r.month)
  {
    if d.day > 1 then CalendarDate(d.year, d.month, d.day - 1)
    else if d.month > 1 then CalendarDate(d.year, d.month - 1, DaysInMonth(d.year, d.month - 1))
    else CalendarDate(d.year - 1, 12, 31)
  }

  /** The UTC calendar date of local midnight on `d`, where the local zone
      is `offsetMinutes` ahead of UTC (less than a day either way). */
  function UtcDateOfLocalMidnight(d: CalendarDate, offsetMinutes: int): (r: CalendarDate)
    requires 1 <= d.month <= 12 && 1 <= d.day <= DaysInMonth(d.year, d.month)
    requires -1440 < offsetMinutes < 1440
    ensures offsetMinutes <= 0 ==> r == d
    ensures offsetMinutes > 0 ==> r == PrevDay(d)
  {
    if offsetMinutes > 0 then PrevDay(d) else d
  }

  // ---------------------------------------------------------------------
  // "YYYY-MM-DD" text

  /** `n` written with exactly `w` decimal digits (the low `w` digits). */
  function FixedDigits(n: nat, w: nat): (r: string)
    ensures |r| == w && AllDigits(r)
  {
    if w == 0 then "" else FixedDigits(n / 10, w - 1) + [DigitChar(n % 10)]
  }

  lemma {:induction false} FixedDigitsOfValue(x: string)
    requires AllDigits(x)
    ensures FixedDigits(DigitsValue(x), |x|) == x
  {
    if |x| > 0 {
      var p := x[..|x| - 1];
      FixedDigitsOfValue(p);
      assert DigitsValue(x) / 10 == DigitsValue(p);
      assert DigitsValue(x) % 10 == DigitValue(x[|x| - 1]);
      assert x == p + [x[|x| - 1]];
    }
  }

  lemma {:induction false} ValueOfFixedDigits(n: nat, w: nat, bound: nat)
    requires n < bound && bound == Pow10(w)
    ensures DigitsValue(FixedDigits(n, w)) == n
  {
    if w > 0 {
      var r := FixedDigits(n, w);
      assert r[..|r| - 1] == FixedDigits(n / 10, w - 1);
      ValueOfFixedDigits(n / 10, w - 1, Pow10(w - 1));
    }
  }

  function Pow10(w: nat): nat
  {
    if w == 0 then 1 else 10 * Pow10(w - 1)
  }

  /** A number with exactly `w` digits is written by `String(n)` as its
      `w` low digits. */
  lemma {:induction false} NatToStringFixed(n: nat, w: nat)
    requires 1 <= w && Pow10(w - 1) <= n < Pow10(w)
    ensures NatToString(n) == FixedDigits(n, w)
  {
    if w > 1 {
      assert Pow10(w - 2) <= n / 10 < Pow10(w - 1);
      NatToStringFixed(n / 10, w - 1);
    }
  }

  function IsoText(d: CalendarDate): (r: string)
    requires Valid(d)
    ensures |r| == 10
  {
    FixedDigits(d.year, 4) + "-" + FixedDigits(d.month, 2) + "-" + FixedDigits(d.day, 2)
  }

  /** The shape the browser guarantees for a non-empty date input value. */
  predicate IsIsoDateText(v: string)
  {
    |v| == 10 && v[4] == '-' && v[7] == '-' &&
    AllDigits(v[..4]) && AllDigits(v[5..7]) && AllDigits(v[8..]) &&
    Valid(CalendarDate(DigitsValue(v[..4]), DigitsValue(v[5..7]), DigitsValue(v[8..])))
  }

  /** `value.split("-").map(Number)` on a date input value. */
  function ParseIso(v: string): (d: CalendarDate)
    requires IsIsoDateText(v)
    ensures Valid(d)
  {
    CalendarDate(DigitsValue(v[..4]), DigitsValue(v[5..7]), DigitsValue(v[8..]))
  }

  /** Parsing a date input value and writing it back gives the same text. */
  lemma IsoTextOfParse(v: string)
    requires IsIsoDateText(v)
    ensures IsoText(ParseIso(v)) == v
  {
    var y, m, d := v[..4], v[5..7], v[8..];
    FixedDigitsOfValue(y);
    FixedDigitsOfValue(m);
    FixedDigitsOfValue(d);
    assert IsoText(ParseIso(v)) == y + "-" + m + "-" + d;
    IsoPieces(v);
  }

  /** A ten-character text with dashes at 4 and 7 is its three fields joined by dashes. */
  lemma IsoPieces(v: string)
    requires |v| == 10 && v[4] == '-' && v[7] == '-'
    ensures v == v[..4] + "-" + v[5..7] + "-" + v[8..]
  {
    var w := v[..4] + "-" + v[5..7] + "-" + v[8..];
    assert |w| == 10;
    forall i | 0 <= i < 10 ensures w[i] == v[i] {
      if i < 4 {
      } else if i == 4 {
      } else if i < 7 {
        assert w[i] == v[5..7][i - 5];
      } else if i == 7 {
      } else {
        assert w[i] == v[8..][i - 8];
      }
    }
  }

  /** Writing a date and parsing the text gives the same date. */
  lemma ParseOfIsoText(d: CalendarDate)
    requires Valid(d)
    ensures IsIsoDateText(IsoText(d)) && ParseIso(IsoText(d)) == d
  {
    var t := IsoText(d);
    assert t[..4] == FixedDigits(d.year, 4);
    assert t[5..7] == FixedDigits(d.month, 2);
    assert t[8..] == FixedDigits(d.day, 2);
    ValueOfFixedDigits(d.year, 4, 10000);
    ValueOfFixedDigits(d.month, 2, 100);
    ValueOfFixedDigits(d.day, 2, 100);
  }

  // ---------------------------------------------------------------------
  // The `date` filter value

  /** As written: the `date` filter is the UTC date of local midnight on the
      date the setters built. A UTC year outside 0-9999, which `toISOString`
      writes in its expanded six-digit form, gives the empty text here; the
      date input never yields such a year. */
  function FilterDateAsWritten(value: string, today: CalendarDate, offsetMinutes: int): string
    requires IsIsoDateText(value) && Valid(today)
    requires -1440 < offsetMinutes < 1440
  {
    var local := JsSelectedDate(today, ParseIso(value));
    var utc := UtcDateOfLocalMidnight(local, offsetMinutes);
    if 0 <= utc.year <= 9999 then IsoText(utc) else ""
  }

  /** East of UTC the filter names the day before the one picked, even when
      today's date does not disturb the setters. */
  lemma FilterDateAsWrittenShiftsEast()
    ensures IsIsoDateText("2025-03-10")
    ensures FilterDateAsWritten("2025-03-10", CalendarDate(2025, 3, 1), 120) == "2025-03-09"
  {
    assert IsoText(CalendarDate(2025, 3, 10)) == "2025-03-10";
    ParseOfIsoText(CalendarDate(2025, 3, 10));
    assert IsoText(CalendarDate(2025, 3, 9)) == "2025-03-09";
  }

  /** Corrected: the `date` filter is the picked date itself, which is the
      input's own text. */
  function FilterDate(value: string): (r: string)
    requires IsIsoDateText(value)
    ensures r == value
  {
    IsoTextOfParse(value);
    IsoText(ParseIso(value))
  }
}
