/** The `Date` arithmetic the services perform, on integer milliseconds
    since the epoch. The local time zone is a fixed offset `zone` in
    milliseconds east of UTC (UTC+1, as in Cameroon, is 3600000); daylight
    saving time is not modelled. Days are counted from 1970-01-01 in the
    proleptic Gregorian calendar. */
module Calendar {
  import opened JsMath
  import opened Strings

  /* ---------------- civil dates and day numbers ---------------- */

  datatype Date = Date(year: int, month: int, day: int)

  /** The number of the day `y-m-d` counted from 1970-01-01 (day 0). */
  function DaysFromCivil(y: int, m: int, d: int): int {
    var y' := if m <= 2 then y - 1 else y;
    var era := y' / 400;
    var yoe := y' - era * 400;
    var mp := if m > 2 then m - 3 else m + 9;
    var doy := (153 * mp + 2) / 5 + d - 1;
    var doe := yoe * 365 + yoe / 4 - yoe / 100 + doy;
    era * 146097 + doe - 719468
  }

  /** The civil date of day number `z`, the inverse of `DaysFromCivil`. */
  function CivilFromDays(z: int): Date {
    var z' := z + 719468;
    var era := z' / 146097;
    var doe := z' - era * 146097;
    var yoe := (doe - doe / 1460 + doe / 36524 - doe / 146096) / 365;
    var doy := doe - (365 * yoe + yoe / 4 - yoe / 100);
    var mp := (5 * doy + 2) / 153;
    var d := doy - (153 * mp + 2) / 5 + 1;
    var m := if mp < 10 then mp + 3 else mp - 9;
    Date(if m <= 2 then yoe + era * 400 + 1 else yoe + era * 400, m, d)
  }

  /** `new Date(y, m - 1, d, h, min)`: the instant of a local wall-clock time. */
  function LocalInstant(y: int, m: int, d: int, h: int, min: int, zone: int): int {
    DaysFromCivil(y, m, d) * MS_PER_DAY + h * MS_PER_HOUR + min * MS_PER_MINUTE - zone
  }

  /** The UTC calendar date of an instant, as `toISOString` writes it. */
  function UtcDate(t: int): Date {
    CivilFromDays(FloorDiv(t, MS_PER_DAY))
  }

  /* ---------------- year and month ---------------- */

  /** A calendar month; `month` runs from 1 to 12. */
  datatype YearMonth = YearMonth(year: int, month: int)

  predicate ValidYearMonth(ym: YearMonth) {
    1 <= ym.month <= 12
  }

  /** Months counted from January of year 0. */
  function MonthIndex(ym: YearMonth): int {
    ym.year * 12 + (ym.month - 1)
  }

  function FromMonthIndex(n: int): (ym: YearMonth)
    ensures ValidYearMonth(ym) && MonthIndex(ym) == n
  {
    YearMonth(n / 12, n % 12 + 1)
  }

  lemma MonthIndexRoundTrip(ym: YearMonth)
    requires ValidYearMonth(ym)
    ensures FromMonthIndex(MonthIndex(ym)) == ym
  {
    var n := MonthIndex(ym);
    assert n == ym.year * 12 + (ym.month - 1) && 0 <= ym.month - 1 < 12;
    assert n / 12 == ym.year;
  }

  /** The year and month of `new Date(year, monthIndex - i, 1)`: the `Date`
      constructor carries a month outside 0..11 into the year. */
  function MonthsBefore(ym: YearMonth, i: int): (r: YearMonth)
    ensures ValidYearMonth(r) && MonthIndex(r) == MonthIndex(ym) - i
  {
    FromMonthIndex(MonthIndex(ym) - i)
  }

  /* ---------------- "YYYY-MM" labels ---------------- */

  /** The "YYYY-MM" text of a month of a four-digit year. */
  function MonthLabel(ym: YearMonth): (s: string)
    requires ValidYearMonth(ym) && 0 <= ym.year <= 9999
    ensures |s| == 7 && s[4] == '-'
  {
    ZeroPad(ym.year, 4) + "-" + ZeroPad(ym.month, 2)
  }

  /** Reads a "YYYY-MM" label back. */
  function ParseMonthLabel(s: string): YearMonth
    requires |s| == 7
    requires forall i :: 0 <= i < 7 && i != 4 ==> IsDigit(s[i])
  {
    YearMonth(DigitsValue(s[..4]), DigitsValue(s[5..]))
  }

  /** A month label is read back as the month it names, so two months
      with the same label are the same month. */
  lemma MonthLabelRoundTrip(ym: YearMonth)
    requires ValidYearMonth(ym) && 0 <= ym.year <= 9999
    ensures var s := MonthLabel(ym);
      (forall i :: 0 <= i < 7 && i != 4 ==> IsDigit(s[i])) && ParseMonthLabel(s) == ym
  {
    var s := MonthLabel(ym);
    assert s[..4] == ZeroPad(ym.year, 4);
    assert s[5..] == ZeroPad(ym.month, 2);
    ZeroPadValue(ym.year, 4);
    ZeroPadValue(ym.month, 2);
  }

  lemma ZeroPadValue(n: nat, width: nat)
    ensures DigitsValue(ZeroPad(n, width)) == n
  {
    var d := Decimal(n);
    DecimalRoundTrip(n);
    if |d| < width {
      LeadingZeros(width - |d|, d);
    }
  }

  /** Leading zeros do not change the number a string of digits denotes. */
  lemma {:induction false} LeadingZeros(k: nat, d: string)
    requires forall i :: 0 <= i < |d| ==> IsDigit(d[i])
    ensures var z := seq(k, i => '0') + d;
      (forall i :: 0 <= i < |z| ==> IsDigit(z[i])) && DigitsValue(z) == DigitsValue(d)
    decreases |d|
  {
    var z := seq(k, i => '0') + d;
    if d == [] {
      assert z == seq(k, i => '0');
      AllZeros(k);
    } else {
      var d' := d[..|d| - 1];
      LeadingZeros(k, d');
      assert z[..|z| - 1] == seq(k, i => '0') + d';
    }
  }

  lemma {:induction false} AllZeros(k: nat)
    ensures DigitsValue(seq(k, i => '0')) == 0
  {
    if k > 0 {
      var z := seq(k, i => '0');
      assert z[..k - 1] == seq(k - 1, i => '0');
      AllZeros(k - 1);
    }
  }
}
