/**
 * Instants as JavaScript holds them (milliseconds since 1970-01-01T00:00:00Z) and
 * `Date.prototype.toISOString`, which the booking lock key embeds.
 */
module Dates {
  import opened Text

  const MsPerDay := 86400000

  /** Zero-padded decimal rendering of `n` in at least `width` digits. */
  function Pad(n: nat, width: nat): (r: string)
    ensures |r| >= width
  {
    var digits := NatToString(n);
    if |digits| >= width then digits else Zeros(width - |digits|) + digits
  }

  function Zeros(k: nat): (r: string)
    ensures |r| == k
  {
    if k == 0 then "" else "0" + Zeros(k - 1)
  }

  predicate IsLeap(y: int) {
    y % 4 == 0 && (y % 100 != 0 || y % 400 == 0)
  }

  function YearLength(y: int): (n: nat)
    ensures n == 365 || n == 366
  {
    if IsLeap(y) then 366 else 365
  }

  /** Days in month `m` (1..12) of year `y`. */
  function MonthLength(y: int, m: int): (n: nat)
    ensures 28 <= n <= 31
  {
    if m == 2 then (if IsLeap(y) then 29 else 28)
    else if m == 4 || m == 6 || m == 9 || m == 11 then 30
    else 31
  }

  /** Proleptic Gregorian (year, month, day) of a day count since 1970-01-01. */
  function CivilFromDays(days: int): (int, int, int) {
    YearFrom(1970, days)
  }

  /** The date `days` days after January 1st of year `y` (before it, when negative). */
  function YearFrom(y: int, days: int): (int, int, int)
    decreases days < 0, if days < 0 then -days else days
  {
    if days < 0 then YearFrom(y - 1, days + YearLength(y - 1))
    else if days >= YearLength(y) then YearFrom(y + 1, days - YearLength(y))
    else (y, MonthFrom(y, 1, days), DayFrom(y, 1, days))
  }

  /** The month of day `doy` (0-based) counted from the first of month `m` of year `y`. */
  function MonthFrom(y: int, m: int, doy: nat): int
    decreases doy
  {
    if m >= 12 || doy < MonthLength(y, m) then m else MonthFrom(y, m + 1, doy - MonthLength(y, m))
  }

  /** The day of the month of day `doy` (0-based) counted from the first of month `m` of year `y`. */
  function DayFrom(y: int, m: int, doy: nat): int
    decreases doy
  {
    if m >= 12 || doy < MonthLength(y, m) then doy + 1 else DayFrom(y, m + 1, doy - MonthLength(y, m))
  }

  /** Four digits for years 0..9999, otherwise a sign and six digits. */
  function YearString(y: int): string {
    if 0 <= y <= 9999 then Pad(y, 4)
    else if y < 0 then "-" + Pad(-y, 6)
    else "+" + Pad(y, 6)
  }

  function Field(n: int, width: nat): string {
    if n < 0 then "-" + Pad(-n, width) else Pad(n, width)
  }

  // ---------------------------------------------------------------- the inverse: a date back to a day count

  function Pow10(w: nat): (p: nat)
    ensures p >= 1
  {
    if w == 0 then 1 else 10 * Pow10(w - 1)
  }

  /** A number below 10^w has at most w digits, so `Pad(n, w)` is exactly w characters. */
  lemma {:induction false} PadWidth(n: nat, w: nat)
    requires w >= 1 && n < Pow10(w)
    ensures |Pad(n, w)| == w
  {
    DigitCount(n, w);
  }

  lemma {:induction false} DigitCount(n: nat, w: nat)
    requires w >= 1 && n < Pow10(w)
    ensures |NatToString(n)| <= w
  {
    if n >= 10 {
      assert Pow10(1) == 10;
      assert w != 1;
      DigitCount(n / 10, w - 1);
    }
  }

  /** Days from 1970-01-01 to January 1st of year `y` (negative before 1970). */
  function YearStart(y: int): int
    decreases if y >= 1970 then y - 1970 else 1970 - y
  {
    if y == 1970 then 0
    else if y > 1970 then YearStart(y - 1) + YearLength(y - 1)
    else YearStart(y + 1) - YearLength(y)
  }

  /** Days from January 1st to the first of month `m` (1..12) of year `y`. */
  function MonthStart(y: int, m: int): (n: nat)
    requires 1 <= m <= 12
  {
    [0, 31, 59, 90, 120, 151, 181, 212, 243, 273, 304, 334][m - 1] + (if m > 2 && IsLeap(y) then 1 else 0)
  }

  /** The day count since 1970-01-01 of the date `y`-`m`-`d`: the reference `CivilFromDays` is proved against. */
  function DaysFromCivil(y: int, m: int, d: int): int
    requires 1 <= m <= 12
  {
    YearStart(y) + MonthStart(y, m) + d - 1
  }

  predicate ValidDate(y: int, m: int, d: int) {
    1 <= m <= 12 && 1 <= d <= MonthLength(y, m)
  }

  lemma YearStartStep(y: int)
    ensures YearStart(y + 1) == YearStart(y) + YearLength(y)
  {
  }

  lemma MonthStartStep(y: int, m: int)
    requires 1 <= m <= 12
    ensures m < 12 ==> MonthStart(y, m + 1) == MonthStart(y, m) + MonthLength(y, m)
    ensures m == 12 ==> MonthStart(y, m) + MonthLength(y, m) == YearLength(y)
  {
  }

  /** Counting `doy` days on from the first of month `m0` lands on a valid day of the same year. */
  lemma {:induction false} MonthDay(y: int, m0: int, doy: nat)
    requires 1 <= m0 <= 12 && MonthStart(y, m0) + doy < YearLength(y)
    ensures var m, d := MonthFrom(y, m0, doy), DayFrom(y, m0, doy);
            m0 <= m <= 12 && ValidDate(y, m, d) && MonthStart(y, m) + d - 1 == MonthStart(y, m0) + doy
    decreases doy
  {
    MonthStartStep(y, m0);
    if m0 < 12 && doy >= MonthLength(y, m0) {
      MonthDay(y, m0 + 1, doy - MonthLength(y, m0));
    }
  }

  lemma {:induction false} YearFromInverse(y0: int, days: int)
    ensures var (y, m, d) := YearFrom(y0, days);
            ValidDate(y, m, d) && DaysFromCivil(y, m, d) == YearStart(y0) + days
    decreases days < 0, if days < 0 then -days else days
  {
    if days < 0 {
      YearStartStep(y0 - 1);
      YearFromInverse(y0 - 1, days + YearLength(y0 - 1));
    } else if days >= YearLength(y0) {
      YearStartStep(y0);
      YearFromInverse(y0 + 1, days - YearLength(y0));
    } else {
      MonthDay(y0, 1, days);
    }
  }

  /** Every day count names a valid calendar date, and counting back from that date gives the same day. */
  lemma CivilRoundTrip(days: int)
    ensures var (y, m, d) := CivilFromDays(days);
            ValidDate(y, m, d) && DaysFromCivil(y, m, d) == days
  {
    YearFromInverse(1970, days);
  }

  /** The time of day splits into hours, minutes, seconds and milliseconds that rebuild it. */
  lemma TimeOfDay(inDay: int)
    requires 0 <= inDay < MsPerDay
    ensures var hh, mm, ss, sss := inDay / 3600000, inDay / 60000 % 60, inDay / 1000 % 60, inDay % 1000;
            && 0 <= hh < 24 && 0 <= mm < 60 && 0 <= ss < 60 && 0 <= sss < 1000
            && inDay == ((hh * 60 + mm) * 60 + ss) * 1000 + sss
  {
    var secs := inDay / 1000;
    var mins := secs / 60;
    assert inDay == secs * 1000 + inDay % 1000;
    assert secs == mins * 60 + secs % 60;
    assert mins == (mins / 60) * 60 + mins % 60;
    assert inDay / 60000 == mins;
    assert inDay / 3600000 == mins / 60;
    assert inDay / 1000 % 60 == secs % 60;
  }

  /** With a valid month and day the rendering is made of fixed-width fields. */
  lemma IsoWidths(y: int, m: int, d: int, hh: nat, mm: nat, ss: nat, sss: nat)
    requires ValidDate(y, m, d) && hh < 24 && mm < 60 && ss < 60 && sss < 1000
    ensures Field(m, 2) == Pad(m, 2) && Field(d, 2) == Pad(d, 2)
    ensures |Pad(m, 2)| == |Pad(d, 2)| == |Pad(hh, 2)| == |Pad(mm, 2)| == |Pad(ss, 2)| == 2 && |Pad(sss, 3)| == 3
    ensures 0 <= y <= 9999 ==> |YearString(y)| == 4
  {
    assert Pow10(2) == 100 && Pow10(3) == 1000 && Pow10(4) == 10000;
    PadWidth(m, 2);
    PadWidth(d, 2);
    PadWidth(hh, 2);
    PadWidth(mm, 2);
    PadWidth(ss, 2);
    PadWidth(sss, 3);
    if 0 <= y <= 9999 {
      PadWidth(y, 4);
    }
  }

  /**
   * The fields `toISOString` prints are the instant's: a valid date whose day count, with the
   * time of day, gives back `ms`; each field has its fixed width, so a year in 0..9999 gives the
   * 24-character form.
   */
  lemma IsoStringFields(ms: int)
    ensures var (y, m, d) := CivilFromDays(ms / MsPerDay);
            var inDay := ms % MsPerDay;
            var hh, mm, ss, sss := inDay / 3600000, inDay / 60000 % 60, inDay / 1000 % 60, inDay % 1000;
            && ValidDate(y, m, d)
            && ms == DaysFromCivil(y, m, d) * MsPerDay + ((hh * 60 + mm) * 60 + ss) * 1000 + sss
            && hh < 24 && mm < 60 && ss < 60 && sss < 1000
            && ToIsoString(ms) == YearString(y) + "-" + Pad(m, 2) + "-" + Pad(d, 2) + "T"
                                  + Pad(hh, 2) + ":" + Pad(mm, 2) + ":" + Pad(ss, 2) + "." + Pad(sss, 3) + "Z"
            && |Pad(m, 2)| == |Pad(d, 2)| == |Pad(hh, 2)| == |Pad(mm, 2)| == |Pad(ss, 2)| == 2 && |Pad(sss, 3)| == 3
            && (0 <= y <= 9999 ==> |ToIsoString(ms)| == 24)
  {
    var days, inDay := ms / MsPerDay, ms % MsPerDay;
    CivilRoundTrip(days);
    TimeOfDay(inDay);
    var (y, m, d) := CivilFromDays(days);
    IsoWidths(y, m, d, inDay / 3600000, inDay / 60000 % 60, inDay / 1000 % 60, inDay % 1000);
  }

  /** `new Date(ms).toISOString()`: YYYY-MM-DDTHH:mm:ss.sssZ in UTC. */
  function ToIsoString(ms: int): (r: string)
    ensures |r| >= 24 && r[|r| - 1] == 'Z'
  {
    var days := ms / MsPerDay;
    var inDay := ms % MsPerDay;
    var (y, m, d) := CivilFromDays(days);
    YearString(y) + "-" + Field(m, 2) + "-" + Field(d, 2) + "T"
      + Pad(inDay / 3600000, 2) + ":" + Pad(inDay / 60000 % 60, 2) + ":" + Pad(inDay / 1000 % 60, 2)
      + "." + Pad(inDay % 1000, 3) + "Z"
  }
}
