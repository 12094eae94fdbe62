/** Calendar dates and date-times as Python's `date`/`datetime` treat them:
    proleptic Gregorian, years 1..9999, day ordinals as `date.toordinal()`
    numbers them (0001-01-01 is day 1) and weekdays as `date.weekday()`
    (Monday 0 .. Sunday 6). Also the fixed textual forms the services read
    and write: ISO `YYYY-MM-DD[THH:MM[:SS]]` and Brazilian `DD/MM/YYYY HH:MM`. */
module Dates {

  import opened Wrappers
  import opened Text

  datatype Date = Date(year: int, month: int, day: int)

  datatype DateTime = DateTime(date: Date, hour: int, minute: int, second: int)

  predicate IsLeap(y: int) {
    y % 4 == 0 && (y % 100 != 0 || y % 400 == 0)
  }

  function DaysInMonth(y: int, m: int): int
    requires 1 <= m <= 12
  {
    if m == 2 then (if IsLeap(y) then 29 else 28)
    else if m == 4 || m == 6 || m == 9 || m == 11 then 30
    else 31
  }

  /** What `date(y, m, d)` accepts without raising `ValueError`. */
  predicate ValidDate(d: Date) {
    1 <= d.year <= 9999 && 1 <= d.month <= 12 && 1 <= d.day <= DaysInMonth(d.year, d.month)
  }

  /** What `datetime(y, m, d, h, mi, s)` accepts without raising. */
  predicate ValidDateTime(t: DateTime) {
    ValidDate(t.date) && 0 <= t.hour <= 23 && 0 <= t.minute <= 59 && 0 <= t.second <= 59
  }

  function DaysBeforeMonth(y: int, m: int): int
    requires 1 <= m <= 12
  {
    var table := [0, 31, 59, 90, 120, 151, 181, 212, 243, 273, 304, 334];
    table[m - 1] + (if m > 2 && IsLeap(y) then 1 else 0)
  }

  /** `date.toordinal()`. */
  function Ordinal(d: Date): int
    requires ValidDate(d)
  {
    var y := d.year - 1;
    y * 365 + y / 4 - y / 100 + y / 400 + DaysBeforeMonth(d.year, d.month) + d.day
  }

  /** `date.max.toordinal()`, the ordinal of 9999-12-31: adding a
      `timedelta` past it raises `OverflowError`. */
  const MaxOrdinal: int := 3652059

  /** `date.weekday()`: Monday is 0 and Sunday is 6. */
  function Weekday(d: Date): (w: int)
    requires ValidDate(d)
    ensures 0 <= w < 7
  {
    (Ordinal(d) + 6) % 7
  }

  function SecondOfDay(t: DateTime): int {
    t.hour * 3600 + t.minute * 60 + t.second
  }

  /** `a < b` on naive datetimes: day first, then time of day. */
  predicate Before(a: DateTime, b: DateTime)
    requires ValidDate(a.date) && ValidDate(b.date)
  {
    Ordinal(a.date) < Ordinal(b.date)
    || (Ordinal(a.date) == Ordinal(b.date) && SecondOfDay(a) < SecondOfDay(b))
  }

  /* ---------------------------------------------------------------------- */
  /* ISO text                                                                */
  /* ---------------------------------------------------------------------- */

  /** Digits at `s[i..i+n]`. */
  predicate DigitsAt(s: string, i: nat, n: nat) {
    i + n <= |s| && AllDigits(s[i..i + n])
  }

  /** `date.fromisoformat(s)` on the `YYYY-MM-DD` form; `None` where Python
      raises `ValueError`. */
  function ParseIsoDate(s: string): (r: Option<Date>)
    ensures r.Some? ==> ValidDate(r.value)
  {
    if |s| >= 10 && DigitsAt(s, 0, 4) && s[4] == '-' && DigitsAt(s, 5, 2) && s[7] == '-' && DigitsAt(s, 8, 2) then
      var d := Date(NatValue(s[..4]), NatValue(s[5..7]), NatValue(s[8..10]));
      if |s| == 10 && ValidDate(d) then Some(d) else None
    else None
  }

  /** `datetime.fromisoformat(s)` on the forms `YYYY-MM-DD`,
      `YYYY-MM-DD?HH:MM` and `YYYY-MM-DD?HH:MM:SS`, where `?` is any single
      separator character; `None` where Python raises. */
  function ParseIsoDateTime(s: string): (r: Option<DateTime>)
    ensures r.Some? ==> ValidDateTime(r.value)
  {
    if |s| < 10 then None
    else
      var d :- ParseIsoDate(s[..10]);
      if |s| == 10 then Some(DateTime(d, 0, 0, 0))
      else if (|s| == 16 || |s| == 19) && DigitsAt(s, 11, 2) && s[13] == ':' && DigitsAt(s, 14, 2) then
        var sec :=
          if |s| == 16 then Some(0)
          else if s[16] == ':' && DigitsAt(s, 17, 2) then Some(NatValue(s[17..19]))
          else None;
        if sec.None? then None
        else
          var t := DateTime(d, NatValue(s[11..13]), NatValue(s[14..16]), sec.value);
          if ValidDateTime(t) then Some(t) else None
      else None
  }

  /** `d.isoformat()`. */
  function IsoDate(d: Date): (s: string)
    requires ValidDate(d)
    ensures |s| == 10
  {
    Pad(d.year, 4) + "-" + Pad(d.month, 2) + "-" + Pad(d.day, 2)
  }

  /** `strftime("%Y-%m-%dT%H:%M")`. */
  function IsoMinute(t: DateTime): (s: string)
    requires ValidDateTime(t)
    ensures |s| == 16
  {
    IsoDate(t.date) + "T" + Pad(t.hour, 2) + ":" + Pad(t.minute, 2)
  }

  /** `strftime("%d/%m/%Y")`. */
  function BrDate(d: Date): (s: string)
    requires ValidDate(d)
    ensures |s| == 10 && IsDigit(s[0])
  {
    Pad(d.day, 2) + "/" + Pad(d.month, 2) + "/" + Pad(d.year, 4)
  }

  /** `strftime("%d/%m/%Y %H:%M")`. */
  function BrDateTime(t: DateTime): (s: string)
    requires ValidDateTime(t)
    ensures |s| == 16
  {
    BrDate(t.date) + " " + Pad(t.hour, 2) + ":" + Pad(t.minute, 2)
  }

  /** An ISO date reads back as the date it was written from. */
  lemma IsoDateRoundTrip(d: Date)
    requires ValidDate(d)
    ensures ParseIsoDate(IsoDate(d)) == Some(d)
  {
    var s := IsoDate(d);
    assert s[..4] == Pad(d.year, 4);
    assert s[5..7] == Pad(d.month, 2);
    assert s[8..10] == Pad(d.day, 2);
    PadValue(d.year, 4);
    PadValue(d.month, 2);
    PadValue(d.day, 2);
  }

  /** The minute-precision text the Anexo I importer writes is read by
      `datetime.fromisoformat` as the same instant, with zero seconds. */
  lemma IsoMinuteRoundTrip(t: DateTime)
    requires ValidDateTime(t)
    ensures ParseIsoDateTime(IsoMinute(t)) == Some(t.(second := 0))
  {
    IsoDateRoundTrip(t.date);
    PadValue(t.hour, 2);
    PadValue(t.minute, 2);
    ParseMinuteText(IsoDate(t.date), 'T', Pad(t.hour, 2), Pad(t.minute, 2), t.date);
    assert IsoMinute(t) == IsoDate(t.date) + ['T'] + Pad(t.hour, 2) + ":" + Pad(t.minute, 2);
  }

  /** Appending `":00"` to minute-precision ISO text, as the browser's
      `normalizeDT` does, denotes the same instant. */
  lemma IsoSecondsSuffix(t: DateTime)
    requires ValidDateTime(t)
    ensures ParseIsoDateTime(IsoMinute(t) + ":00") == Some(t.(second := 0))
  {
    IsoDateRoundTrip(t.date);
    PadValue(t.hour, 2);
    PadValue(t.minute, 2);
    var zero := Pad(0, 2);
    PadValue(0, 2);
    assert zero == "00";
    ParseSecondText(IsoDate(t.date), 'T', Pad(t.hour, 2), Pad(t.minute, 2), zero, t.date);
    assert IsoMinute(t) + ":00" == IsoDate(t.date) + ['T'] + Pad(t.hour, 2) + ":" + Pad(t.minute, 2) + ":" + zero;
  }

  /** `YYYY-MM-DD?HH:MM` reads as that date and time. */
  lemma ParseMinuteText(ds: string, sep: char, hh: string, mm: string, d: Date)
    requires |ds| == 10 && ParseIsoDate(ds) == Some(d)
    requires |hh| == 2 && AllDigits(hh) && |mm| == 2 && AllDigits(mm)
    requires ValidDateTime(DateTime(d, NatValue(hh), NatValue(mm), 0))
    ensures ParseIsoDateTime(ds + [sep] + hh + ":" + mm) == Some(DateTime(d, NatValue(hh), NatValue(mm), 0))
  {
    MinuteTextParts(ds, sep, hh, mm);
  }

  /** `YYYY-MM-DD?HH:MM:SS` reads as that date and time. */
  lemma ParseSecondText(ds: string, sep: char, hh: string, mm: string, ss: string, d: Date)
    requires |ds| == 10 && ParseIsoDate(ds) == Some(d)
    requires |hh| == 2 && AllDigits(hh) && |mm| == 2 && AllDigits(mm) && |ss| == 2 && AllDigits(ss)
    requires ValidDateTime(DateTime(d, NatValue(hh), NatValue(mm), NatValue(ss)))
    ensures ParseIsoDateTime(ds + [sep] + hh + ":" + mm + ":" + ss)
      == Some(DateTime(d, NatValue(hh), NatValue(mm), NatValue(ss)))
  {
    var p := ds + [sep] + hh + ":" + mm;
    MinuteTextParts(ds, sep, hh, mm);
    var s := p + ":" + ss;
    assert s[..10] == p[..10] && s[11..13] == p[11..13] && s[13] == p[13] && s[14..16] == p[14..16];
    assert s[16] == ':' && s[17..19] == ss;
    ParseSecondFields(s, d);
  }

  /** A 19-character text with the date, time and seconds fields in place
      reads as the date-time those fields spell. */
  lemma ParseSecondFields(s: string, d: Date)
    requires |s| == 19 && ParseIsoDate(s[..10]) == Some(d)
    requires DigitsAt(s, 11, 2) && s[13] == ':' && DigitsAt(s, 14, 2) && s[16] == ':' && DigitsAt(s, 17, 2)
    requires ValidDateTime(DateTime(d, NatValue(s[11..13]), NatValue(s[14..16]), NatValue(s[17..19])))
    ensures ParseIsoDateTime(s) == Some(DateTime(d, NatValue(s[11..13]), NatValue(s[14..16]), NatValue(s[17..19])))
  {
  }

  /** Where the parts of `YYYY-MM-DD?HH:MM` sit. */
  lemma MinuteTextParts(ds: string, sep: char, hh: string, mm: string)
    requires |ds| == 10 && |hh| == 2 && |mm| == 2
    ensures var p := ds + [sep] + hh + ":" + mm;
      && |p| == 16 && p[..10] == ds && p[11..13] == hh && p[13] == ':' && p[14..16] == mm
  {
    var p := ds + [sep] + hh + ":" + mm;
    assert p[..10] == ds;
    assert p[11..13] == hh;
    assert p[14..16] == mm;
  }
}
