/**
 * Calendar dates of the proleptic Gregorian calendar, stepping by whole
 * days, and their `YYYY-MM-DD` rendering: the calendar date in the
 * extended format of ISO 8601:2004, section 4.1.2.2.
 *
 * The query builder takes "now minus N days" and reads back
 * `getFullYear()`, `getMonth() + 1` and `getDate()`; here that is
 * `DaysBefore(today, N)` on a date record.
 */
module Calendar {
  import opened Text

  datatype Date = Date(year: int, month: int, day: int)

  predicate IsLeapYear(y: int) {
    (y % 4 == 0 && y % 100 != 0) || y % 400 == 0
  }

  function DaysInMonth(y: int, m: int): (n: int)
    requires 1 <= m <= 12
    ensures 28 <= n <= 31
  {
    if m == 2 then (if IsLeapYear(y) then 29 else 28)
    else if m == 4 || m == 6 || m == 9 || m == 11 then 30
    else 31
  }

  /** A date that exists in the calendar. */
  predicate Valid(d: Date) {
    1 <= d.month <= 12 && 1 <= d.day <= DaysInMonth(d.year, d.month)
  }

  function NextDay(d: Date): (r: Date)
    requires Valid(d)
    ensures Valid(r)
  {
    if d.day < DaysInMonth(d.year, d.month) then Date(d.year, d.month, d.day + 1)
    else if d.month < 12 then Date(d.year, d.month + 1, 1)
    else Date(d.year + 1, 1, 1)
  }

  function PrevDay(d: Date): (r: Date)
    requires Valid(d)
    ensures Valid(r)
    ensures NextDay(r) == d
  {
    if d.day > 1 then Date(d.year, d.month, d.day - 1)
    else if d.month > 1 then Date(d.year, d.month - 1, DaysInMonth(d.year, d.month - 1))
    else Date(d.year - 1, 12, 31)
  }

  /** The date `n` days before `d`. */
  function DaysBefore(d: Date, n: nat): (r: Date)
    requires Valid(d)
    ensures Valid(r)
    decreases n
  {
    if n == 0 then d else DaysBefore(PrevDay(d), n - 1)
  }

  /** The date `n` days after `d`. */
  function DaysAfter(d: Date, n: nat): (r: Date)
    requires Valid(d)
    ensures Valid(r)
    decreases n
  {
    if n == 0 then d else NextDay(DaysAfter(d, n - 1))
  }

  /** Going back `n` days and then forward `n` days returns to the same date. */
  lemma {:induction false} DaysBeforeThenAfter(d: Date, n: nat)
    requires Valid(d)
    ensures DaysAfter(DaysBefore(d, n), n) == d
    decreases n
  {
    if n > 0 {
      DaysBeforeThenAfter(PrevDay(d), n - 1);
    }
  }

  /** `${year}-${pad2(month)}-${pad2(day)}` */
  function Format(d: Date): string
    requires Valid(d)
  {
    IntToString(d.year) + "-" + Pad2(d.month) + "-" + Pad2(d.day)
  }

  /** A `YYYY-MM-DD` string: ten characters, digits except for the two hyphens. */
  predicate IsIsoDate(s: string) {
    |s| == 10 && s[4] == '-' && s[7] == '-'
    && forall i :: 0 <= i < 10 && i != 4 && i != 7 ==> IsDigit(s[i])
  }

  function ParseIsoDate(s: string): Date
    requires IsIsoDate(s)
  {
    Date(DigitsValue(s[..4]), DigitsValue(s[5..7]), DigitsValue(s[8..]))
  }

  /** For four-digit years, the rendering is an ISO 8601 calendar date that reads back as the same date. */
  lemma FormatRoundTrip(d: Date)
    requires Valid(d) && 1000 <= d.year <= 9999
    ensures IsIsoDate(Format(d))
    ensures ParseIsoDate(Format(d)) == d
  {
    var y := NatToString(d.year);
    assert Pow10(3) == 1000;
    NatToStringLength(d.year, 3);
    NatToStringRoundTrip(d.year);
    var s := Format(d);
    assert s == y + "-" + Pad2(d.month) + "-" + Pad2(d.day);
    assert s[..4] == y;
    assert s[5..7] == Pad2(d.month);
    assert s[8..] == Pad2(d.day);
  }
}
