/**
 * The wall clock as the app reads it. A sale or expense is stamped with
 * `strftime("%Y-%m-%d %H:%M")`; the dashboard's month is
 * `strftime("%Y-%m")`. The clock itself is not modelled: a moment is a
 * parameter, and these functions give the two strings it formats to.
 */
module Clock {
  import opened Text

  datatype Moment = Moment(year: int, month: int, day: int, hour: int, minute: int)

  /** A moment whose year has four digits (below 1000 `%Y` does not pad). */
  predicate ValidMoment(t: Moment) {
    1000 <= t.year <= 9999 && 1 <= t.month <= 12 && 1 <= t.day <= 31 &&
    0 <= t.hour <= 23 && 0 <= t.minute <= 59
  }

  predicate IsDigit(c: char) {
    '0' <= c <= '9'
  }

  /** The value of a decimal digit character. */
  function DigitValue(c: char): int {
    c as int - '0' as int
  }

  function Digit(d: int): (c: char)
    requires 0 <= d <= 9
    ensures IsDigit(c) && DigitValue(c) == d
  {
    ('0' as int + d) as char
  }

  /** Two-digit zero-padded decimal, as `%m`, `%d`, `%H`, `%M` print. */
  function Pad2(n: int): (r: string)
    requires 0 <= n <= 99
    ensures |r| == 2 && IsDigit(r[0]) && IsDigit(r[1])
    ensures DigitValue(r[0]) * 10 + DigitValue(r[1]) == n
  {
    [Digit(n / 10), Digit(n % 10)]
  }

  /** Four-digit decimal, as `%Y` prints a year from 1000 to 9999. */
  function Pad4(n: int): (r: string)
    requires 0 <= n <= 9999
    ensures |r| == 4 && forall i :: 0 <= i < 4 ==> IsDigit(r[i])
    ensures DigitValue(r[0]) * 1000 + DigitValue(r[1]) * 100 + DigitValue(r[2]) * 10 + DigitValue(r[3]) == n
  {
    var hi, lo := Pad2(n / 100), Pad2(n % 100);
    assert (n / 100) * 100 + n % 100 == n;
    hi + lo
  }

  /** The character a `%Y-%m-%d %H:%M` stamp has (or the class it belongs to) at index `i`. */
  predicate StampShape(c: char, i: int) {
    if i == 4 || i == 7 then c == '-'
    else if i == 10 then c == ' '
    else if i == 13 then c == ':'
    else IsDigit(c)
  }

  /** Strings of the shape "YYYY-MM-DD HH:MM". */
  predicate WellFormedStamp(s: string) {
    |s| == 16 && forall i :: 0 <= i < 16 ==> StampShape(s[i], i)
  }

  /** Strings of the shape "YYYY-MM". */
  predicate WellFormedKey(k: string) {
    |k| == 7 && forall i :: 0 <= i < 7 ==> StampShape(k[i], i)
  }

  /** `strftime("%Y-%m")`: the dashboard's month key. */
  function MonthKey(t: Moment): (k: string)
    requires ValidMoment(t)
    ensures WellFormedKey(k)
    ensures k[..4] == Pad4(t.year) && k[5..] == Pad2(t.month)
  {
    Pad4(t.year) + "-" + Pad2(t.month)
  }

  /** `strftime("%Y-%m-%d %H:%M")`: the date written into every row. */
  function Stamp(t: Moment): (s: string)
    requires ValidMoment(t)
    ensures WellFormedStamp(s)
    ensures StartsWith(s, MonthKey(t))
    ensures s[8..10] == Pad2(t.day) && s[11..13] == Pad2(t.hour) && s[14..] == Pad2(t.minute)
  {
    MonthKey(t) + "-" + Pad2(t.day) + " " + Pad2(t.hour) + ":" + Pad2(t.minute)
  }

  lemma Pad2Injective(a: int, b: int)
    requires 0 <= a <= 99 && 0 <= b <= 99
    requires Pad2(a) == Pad2(b)
    ensures a == b
  {
    assert Pad2(a)[0] == Pad2(b)[0] && Pad2(a)[1] == Pad2(b)[1];
  }

  lemma Pad4Injective(a: int, b: int)
    requires 0 <= a <= 9999 && 0 <= b <= 9999
    requires Pad4(a) == Pad4(b)
    ensures a == b
  {
    assert Pad4(a)[..2] == Pad2(a / 100) && Pad4(b)[..2] == Pad2(b / 100);
    assert Pad4(a)[2..] == Pad2(a % 100) && Pad4(b)[2..] == Pad2(b % 100);
    Pad2Injective(a / 100, b / 100);
    Pad2Injective(a % 100, b % 100);
  }

  /**
   * Within a well-formed stamp a well-formed month key can only occur at
   * the start, so on such strings the dashboard's substring test and a
   * prefix test agree.
   */
  lemma KeyOnlyAtStart(s: string, k: string)
    requires WellFormedStamp(s) && WellFormedKey(k)
    ensures Contains(s, k) <==> StartsWith(s, k)
  {
    if Contains(s, k) {
      var i :| 0 <= i <= |s| - |k| && OccursAt(s, k, i);
      assert s[i + 4] == s[i..i + 7][4] == k[4] == '-';
      assert StampShape(s[i + 4], i + 4);
      assert s[i + 1] == s[i..i + 7][1] == k[1];
      assert StampShape(k[1], 1) && StampShape(s[i + 1], i + 1);
      assert i == 0;
    }
    if StartsWith(s, k) {
      PrefixIsContained(s, k);
    }
  }

  /**
   * A row stamped at moment `t` passes the dashboard filter for the month
   * key taken at moment `u` exactly when both fall in the same calendar
   * month of the same year.
   */
  lemma StampInMonthIff(t: Moment, u: Moment)
    requires ValidMoment(t) && ValidMoment(u)
    ensures Contains(Stamp(t), MonthKey(u)) <==> t.year == u.year && t.month == u.month
  {
    var s, k := Stamp(t), MonthKey(u);
    KeyOnlyAtStart(s, k);
    assert s[..7] == MonthKey(t);
    if StartsWith(s, k) {
      assert MonthKey(t) == k;
      assert MonthKey(t)[..4] == k[..4];
      Pad4Injective(t.year, u.year);
      assert MonthKey(t)[5..] == k[5..];
      Pad2Injective(t.month, u.month);
    }
  }
}
