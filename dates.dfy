/**
 * Calendar date-times as Python's `datetime` holds them (year 1..9999, no time zone),
 * their chronological order, and the three ways the program renders one as text:
 * `str(d)`, `d.strftime('%Y-%m-%d %H:%M:%S')` and `d.strftime('%b%Y')`.
 */
module Dates {
  import opened Text
  import opened Wrappers

  type Year = y: int | 1 <= y <= 9999 witness 1
  type MonthNumber = m: int | 1 <= m <= 12 witness 1
  /** Day of the month; the model does not tie the upper bound to the month's length. */
  type DayNumber = d: int | 1 <= d <= 31 witness 1
  type Hour = h: int | 0 <= h < 24
  type Sixty = m: int | 0 <= m < 60
  type Microsecond = u: int | 0 <= u < 1000000

  datatype DateTime = DateTime(
    year: Year, month: MonthNumber, day: DayNumber,
    hour: Hour, minute: Sixty, second: Sixty, micro: Microsecond)

  /** `datetime.min`. */
  const MinDate: DateTime := DateTime(1, 1, 1, 0, 0, 0, 0)

  /** `a < b` on `datetime`: field by field, most significant first. */
  predicate Earlier(a: DateTime, b: DateTime) {
    if a.year != b.year then a.year < b.year
    else if a.month != b.month then a.month < b.month
    else if a.day != b.day then a.day < b.day
    else if a.hour != b.hour then a.hour < b.hour
    else if a.minute != b.minute then a.minute < b.minute
    else if a.second != b.second then a.second < b.second
    else a.micro < b.micro
  }

  /** `Earlier` is a strict total order, as comparison of `datetime` values is. */
  lemma EarlierIsStrictTotalOrder(a: DateTime, b: DateTime, c: DateTime)
    ensures !Earlier(a, a)
    ensures Earlier(a, b) ==> !Earlier(b, a)
    ensures Earlier(a, b) && Earlier(b, c) ==> Earlier(a, c)
    ensures a == b || Earlier(a, b) || Earlier(b, a)
  {
  }

  lemma MinDateIsEarliest(d: DateTime)
    ensures !Earlier(d, MinDate)
  {
  }

  /** English abbreviations, as `%b` gives them in the C locale. */
  function MonthAbbrev(m: MonthNumber): string {
    ["Jan", "Feb", "Mar", "Apr", "May", "Jun", "Jul", "Aug", "Sep", "Oct", "Nov", "Dec"][m - 1]
  }

  /** `d.strftime('%b%Y')`, with `%Y` printed as glibc prints it (no zero padding). */
  function MonthTag(d: DateTime): string {
    MonthAbbrev(d.month) + NatToString(d.year)
  }

  function Pad2(n: nat): (s: string)
    requires n < 100
  {
    [DigitChar(n / 10), DigitChar(n % 10)]
  }

  function Pad4(n: nat): (s: string)
    requires n < 10000
  {
    [DigitChar(n / 1000), DigitChar(n / 100 % 10), DigitChar(n / 10 % 10), DigitChar(n % 10)]
  }

  function Pad6(n: nat): (s: string)
    requires n < 1000000
  {
    Pad2(n / 10000) + Pad4(n % 10000)
  }

  /** `d.strftime('%Y-%m-%d %H:%M:%S')`. */
  function StampText(d: DateTime): string {
    Pad4(d.year) + "-" + Pad2(d.month) + "-" + Pad2(d.day) + " "
    + Pad2(d.hour) + ":" + Pad2(d.minute) + ":" + Pad2(d.second)
  }

  /** `str(d)`: the stamp, followed by `.ffffff` when there are microseconds. */
  function DateText(d: DateTime): string {
    StampText(d) + if d.micro == 0 then "" else "." + Pad6(d.micro)
  }

  /** Reads back the fixed 19-character layout `StampText` writes. */
  function ParseStamp(s: string): Option<DateTime> {
    if |s| == 19 && s[4] == '-' && s[7] == '-' && s[10] == ' ' && s[13] == ':' && s[16] == ':'
       && DigitsOnly(s[0..4]) && DigitsOnly(s[5..7]) && DigitsOnly(s[8..10])
       && DigitsOnly(s[11..13]) && DigitsOnly(s[14..16]) && DigitsOnly(s[17..19])
    then
      var y, mo, d := ParseNat(s[0..4]), ParseNat(s[5..7]), ParseNat(s[8..10]);
      var h, mi, se := ParseNat(s[11..13]), ParseNat(s[14..16]), ParseNat(s[17..19]);
      if 1 <= y <= 9999 && 1 <= mo <= 12 && 1 <= d <= 31 && h < 24 && mi < 60 && se < 60
      then Some(DateTime(y, mo, d, h, mi, se, 0))
      else None
    else None
  }

  /** The value of a two-digit string. */
  lemma ParseNat2(s: string)
    requires |s| == 2 && DigitsOnly(s)
    ensures ParseNat(s) == DigitValue(s[0]) * 10 + DigitValue(s[1])
  {
    var p := s[..1];
    assert p[..0] == [] && p[0] == s[0];
    assert ParseNat(p) == DigitValue(s[0]);
  }

  /** The value of a four-digit string. */
  lemma ParseNat4(s: string)
    requires |s| == 4 && DigitsOnly(s)
    ensures ParseNat(s) == ((DigitValue(s[0]) * 10 + DigitValue(s[1])) * 10 + DigitValue(s[2])) * 10 + DigitValue(s[3])
  {
    var p := s[..3];
    assert DigitsOnly(p);
    assert p[..2] == s[..2];
    ParseNat2(s[..2]);
  }

  lemma Digits2(n: nat)
    requires n < 100
    ensures n / 10 * 10 + n % 10 == n
  {
  }

  lemma Digits4(n: nat)
    requires n < 10000
    ensures ((n / 1000 * 10 + n / 100 % 10) * 10 + n / 10 % 10) * 10 + n % 10 == n
  {
    var q1 := n / 10;
    var q2 := q1 / 10;
    assert n == q1 * 10 + n % 10;
    assert q1 == q2 * 10 + q1 % 10;
    assert n / 100 == q2;
    assert q2 == q2 / 10 * 10 + q2 % 10;
    assert n / 1000 == q2 / 10;
  }

  lemma Pad2Parses(n: nat)
    requires n < 100
    ensures DigitsOnly(Pad2(n)) && ParseNat(Pad2(n)) == n
  {
    ParseNat2(Pad2(n));
    Digits2(n);
  }

  lemma Pad4Parses(n: nat)
    requires n < 10000
    ensures DigitsOnly(Pad4(n)) && ParseNat(Pad4(n)) == n
  {
    ParseNat4(Pad4(n));
    Digits4(n);
  }

  /** Where each field sits in the stamp text. */
  lemma StampLayout(d: DateTime)
    ensures var s := StampText(d);
      && |s| == 19 && s[4] == '-' && s[7] == '-' && s[10] == ' ' && s[13] == ':' && s[16] == ':'
      && s[0..4] == Pad4(d.year) && s[5..7] == Pad2(d.month) && s[8..10] == Pad2(d.day)
      && s[11..13] == Pad2(d.hour) && s[14..16] == Pad2(d.minute) && s[17..19] == Pad2(d.second)
  {
  }

  /**
   * The stamp text determines the date-time down to the second: reading it back gives
   * the same value with the microseconds dropped.
   */
  lemma StampRoundTrip(d: DateTime)
    ensures ParseStamp(StampText(d)) == Some(d.(micro := 0))
  {
    StampLayout(d);
    Pad4Parses(d.year);
    Pad2Parses(d.month);
    Pad2Parses(d.day);
    Pad2Parses(d.hour);
    Pad2Parses(d.minute);
    Pad2Parses(d.second);
  }
}
