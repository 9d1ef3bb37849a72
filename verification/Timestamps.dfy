/**
 The annotation stamps: `time.Now().Format(time.RFC3339)`, compared as strings by the operator
 and parsed back when it asks how old a stamp is. Section 5.1 of RFC 3339 promises that such
 texts order like the moments they name, provided the offsets are the same.
 */
module Timestamps {
  import opened Wrappers
  import opened Text

  /** A civil date and time to the second, with the zone's offset from UTC in minutes. */
  datatype DateTime = DateTime(year: nat, month: nat, day: nat, hour: nat, minute: nat, second: nat, offset: int)

  // ---------- the calendar ----------

  predicate LeapYear(y: nat) { (y % 4 == 0 && y % 100 != 0) || y % 400 == 0 }

  function YearLength(y: nat): nat { if LeapYear(y) then 366 else 365 }

  function MonthLength(y: nat, m: nat): nat
    requires 1 <= m <= 12
  {
    if m == 2 then (if LeapYear(y) then 29 else 28)
    else if m == 4 || m == 6 || m == 9 || m == 11 then 30
    else 31
  }

  /** Days from 1 January of year 0 to 1 January of year `y`. */
  function DaysToYear(y: nat): nat {
    if y == 0 then 0 else DaysToYear(y - 1) + YearLength(y - 1)
  }

  /** Days from 1 January to the first of month `m`; month 13 is the next year. */
  function DaysToMonth(y: nat, m: nat): nat
    requires 1 <= m <= 13
  {
    if m == 1 then 0 else DaysToMonth(y, m - 1) + MonthLength(y, m - 1)
  }

  predicate Valid(t: DateTime) {
    && t.year <= 9999
    && 1 <= t.month <= 12
    && 1 <= t.day <= MonthLength(t.year, t.month)
    && t.hour < 24 && t.minute < 60 && t.second < 60
    && -24 * 60 < t.offset < 24 * 60
  }

  function Days(t: DateTime): nat
    requires Valid(t)
  {
    DaysToYear(t.year) + DaysToMonth(t.year, t.month) + t.day - 1
  }

  /** Seconds on the UTC time line: the moment the stamp names. */
  function Instant(t: DateTime): int
    requires Valid(t)
  {
    ((Days(t) * 24 + t.hour) * 60 + t.minute - t.offset) * 60 + t.second
  }

  // ---------- the printed form ----------

  function ZoneText(offset: int): string {
    var minutes: nat := if offset < 0 then -offset else offset;
    if offset == 0 then "Z"
    else (if offset < 0 then "-" else "+") + Pad(minutes / 60, 2) + ":" + Pad(minutes % 60, 2)
  }

  function DateText(t: DateTime): string {
    Pad(t.year, 4) + ("-" + (Pad(t.month, 2) + ("-" + (Pad(t.day, 2) + ("T" + (
      Pad(t.hour, 2) + (":" + (Pad(t.minute, 2) + (":" + Pad(t.second, 2))))))))))
  }

  /** Go's layout `2006-01-02T15:04:05Z07:00`. */
  function Format(t: DateTime): (s: string) {
    DateText(t) + ZoneText(t.offset)
  }

  /** Go's `time.Parse(time.RFC3339, s)` on whole seconds. */
  function Parse(s: string): (r: Option<DateTime>)
    ensures r.Some? ==> Valid(r.value)
  {
    if |s| < 20 then None
    else if !(AllDigits(s[0..4]) && s[4] == '-' && AllDigits(s[5..7]) && s[7] == '-' && AllDigits(s[8..10])
              && s[10] == 'T' && AllDigits(s[11..13]) && s[13] == ':' && AllDigits(s[14..16]) && s[16] == ':'
              && AllDigits(s[17..19])) then None
    else if ParseZone(s[19..]).None? then None
    else
      var t := DateTime(Value(s[0..4]), Value(s[5..7]), Value(s[8..10]), Value(s[11..13]), Value(s[14..16]),
                        Value(s[17..19]), ParseZone(s[19..]).value);
      if Valid(t) then Some(t) else None
  }

  function ParseZone(z: string): Option<int> {
    if z == "Z" then Some(0)
    else if |z| == 6 && (z[0] == '+' || z[0] == '-') && AllDigits(z[1..3]) && z[3] == ':' && AllDigits(z[4..6]) then
      var minutes := Value(z[1..3]) * 60 + Value(z[4..6]);
      Some(if z[0] == '-' then -minutes else minutes)
    else None
  }

  // ---------- order of days ----------

  lemma {:induction false} DaysToYearMonotone(y: nat, z: nat)
    requires y < z
    ensures DaysToYear(y) + YearLength(y) <= DaysToYear(z)
  {
    if y < z - 1 { DaysToYearMonotone(y, z - 1); }
  }

  lemma {:induction false} DaysToMonthMonotone(y: nat, m: nat, n: nat)
    requires 1 <= m < n <= 13
    ensures DaysToMonth(y, m) + MonthLength(y, m) <= DaysToMonth(y, n)
  {
    if m < n - 1 { DaysToMonthMonotone(y, m, n - 1); }
  }

  lemma MonthsFillTheYear(y: nat)
    ensures DaysToMonth(y, 13) == YearLength(y)
  {
    assert DaysToMonth(y, 2) == 31;
    assert DaysToMonth(y, 4) == DaysToMonth(y, 2) + MonthLength(y, 2) + 31;
    assert DaysToMonth(y, 6) == DaysToMonth(y, 4) + 30 + 31;
    assert DaysToMonth(y, 8) == DaysToMonth(y, 6) + 30 + 31;
    assert DaysToMonth(y, 10) == DaysToMonth(y, 8) + 31 + 30;
    assert DaysToMonth(y, 12) == DaysToMonth(y, 10) + 31 + 30;
  }

  lemma DayInYear(t: DateTime)
    requires Valid(t)
    ensures DaysToYear(t.year) <= Days(t) < DaysToYear(t.year) + YearLength(t.year)
  {
    MonthsFillTheYear(t.year);
    DaysToMonthMonotone(t.year, t.month, 13);
  }

  predicate EarlierDate(a: DateTime, b: DateTime) {
    a.year < b.year || (a.year == b.year && (a.month < b.month || (a.month == b.month && a.day < b.day)))
  }

  lemma DateOrder(a: DateTime, b: DateTime)
    requires Valid(a) && Valid(b) && EarlierDate(a, b)
    ensures Days(a) < Days(b)
  {
    DayInYear(a);
    DayInYear(b);
    if a.year < b.year {
      DaysToYearMonotone(a.year, b.year);
    } else if a.month < b.month {
      DaysToMonthMonotone(a.year, a.month, b.month);
    }
  }

  predicate EarlierFields(a: DateTime, b: DateTime) {
    EarlierDate(a, b) ||
    (a.year == b.year && a.month == b.month && a.day == b.day &&
     (a.hour < b.hour || (a.hour == b.hour && (a.minute < b.minute || (a.minute == b.minute && a.second < b.second)))))
  }

  lemma FieldOrder(a: DateTime, b: DateTime)
    requires Valid(a) && Valid(b) && a.offset == b.offset
    ensures EarlierFields(a, b) <==> Instant(a) < Instant(b)
  {
    if EarlierDate(a, b) { DateOrder(a, b); }
    if EarlierDate(b, a) { DateOrder(b, a); }
  }

  // ---------- order of texts ----------

  lemma SameHead(c: string, x: string, y: string)
    ensures Less(c + x, c + y) <==> Less(x, y)
  {
    LessConcat(c, c, x, y);
    LessTotal(c, c);
  }

  lemma NumberFirst(m: nat, n: nat, width: nat, sep: string, x: string, y: string)
    requires m < Pow10(width) && n < Pow10(width)
    ensures Less(Pad(m, width) + (sep + x), Pad(n, width) + (sep + y)) <==> m < n || (m == n && Less(x, y))
  {
    PadOrder(m, n, width);
    LessConcat(Pad(m, width), Pad(n, width), sep + x, sep + y);
    SameHead(sep, x, y);
  }

  lemma DateTextOrder(a: DateTime, b: DateTime)
    requires Valid(a) && Valid(b)
    ensures Less(DateText(a), DateText(b)) <==> EarlierFields(a, b)
  {
    assert Pow10(2) == 100 && Pow10(4) == 10000;
    var a6, b6 := Pad(a.second, 2), Pad(b.second, 2);
    var a5, b5 := Pad(a.minute, 2) + (":" + a6), Pad(b.minute, 2) + (":" + b6);
    var a4, b4 := Pad(a.hour, 2) + (":" + a5), Pad(b.hour, 2) + (":" + b5);
    var a3, b3 := Pad(a.day, 2) + ("T" + a4), Pad(b.day, 2) + ("T" + b4);
    var a2, b2 := Pad(a.month, 2) + ("-" + a3), Pad(b.month, 2) + ("-" + b3);
    PadOrder(a.second, b.second, 2);
    NumberFirst(a.minute, b.minute, 2, ":", a6, b6);
    NumberFirst(a.hour, b.hour, 2, ":", a5, b5);
    NumberFirst(a.day, b.day, 2, "T", a4, b4);
    NumberFirst(a.month, b.month, 2, "-", a3, b3);
    NumberFirst(a.year, b.year, 4, "-", a2, b2);
  }

  /** With one offset, string order of the stamps is the order of the moments (section 5.1 of RFC 3339). */
  lemma StampOrderIsTimeOrder(a: DateTime, b: DateTime)
    requires Valid(a) && Valid(b) && a.offset == b.offset
    ensures Less(Format(a), Format(b)) <==> Instant(a) < Instant(b)
  {
    DateTextOrder(a, b);
    FieldOrder(a, b);
    LessConcat(DateText(a), DateText(b), ZoneText(a.offset), ZoneText(b.offset));
    LessTotal(ZoneText(a.offset), ZoneText(a.offset));
  }

  lemma LaterClockLaterStamp(a: DateTime, b: DateTime)
    requires Valid(a) && Valid(b) && a.offset == b.offset && Instant(a) <= Instant(b)
    ensures AtMost(Format(a), Format(b))
  {
    StampOrderIsTimeOrder(b, a);
  }

  lemma EarlierFieldsSmallerText(a: DateTime, b: DateTime)
    requires Valid(a) && Valid(b) && EarlierFields(a, b)
    ensures Less(Format(a), Format(b))
  {
    DateTextOrder(a, b);
    LessConcat(DateText(a), DateText(b), ZoneText(a.offset), ZoneText(b.offset));
  }

  /** The same-offset condition is needed: a later moment can carry the smaller text. */
  lemma MixedOffsetsBreakStampOrder()
    ensures exists a, b :: Valid(a) && Valid(b) && a.offset != b.offset
                           && Instant(a) < Instant(b) && Less(Format(b), Format(a))
  {
    var a := DateTime(2024, 1, 1, 12, 0, 0, 120);
    var b := DateTime(2024, 1, 1, 11, 0, 0, 0);
    assert Valid(a) && Valid(b) && a.offset != b.offset;
    EarlierFieldsSmallerText(b, a);
    assert Days(a) == Days(b);
  }

  // ---------- printing and parsing ----------

  lemma ParseZoneText(offset: int)
    requires -24 * 60 < offset < 24 * 60
    ensures ParseZone(ZoneText(offset)) == Some(offset)
  {
    var minutes: nat := if offset < 0 then -offset else offset;
    if offset != 0 {
      ParseSignedZone(if offset < 0 then "-" else "+", minutes / 60, minutes % 60);
    }
  }

  lemma ParseSignedZone(sign: string, hours: nat, minutes: nat)
    requires (sign == "-" || sign == "+") && hours < 100 && minutes < 100
    ensures ParseZone(sign + Pad(hours, 2) + ":" + Pad(minutes, 2))
         == Some(if sign == "-" then -(hours * 60 + minutes) else hours * 60 + minutes)
  {
    var z := sign + Pad(hours, 2) + ":" + Pad(minutes, 2);
    assert Pow10(2) == 100;
    ValueOfPad(hours, 2);
    ValueOfPad(minutes, 2);
    assert z[1..3] == Pad(hours, 2) && z[4..6] == Pad(minutes, 2);
  }

  lemma DateTextSlices(t: DateTime, z: string)
    ensures
      var s := DateText(t) + z;
      |DateText(t)| == 19
      && s[0..4] == Pad(t.year, 4) && s[5..7] == Pad(t.month, 2) && s[8..10] == Pad(t.day, 2)
      && s[11..13] == Pad(t.hour, 2) && s[14..16] == Pad(t.minute, 2) && s[17..19] == Pad(t.second, 2)
      && s[4] == '-' && s[7] == '-' && s[10] == 'T' && s[13] == ':' && s[16] == ':' && s[19..] == z
  {
  }

  /** Every stamp the operator prints parses back to the moment it was printed from. */
  lemma ParseOfFormat(t: DateTime)
    requires Valid(t)
    ensures Parse(Format(t)) == Some(t)
  {
    assert Pow10(2) == 100 && Pow10(4) == 10000;
    ValueOfPad(t.year, 4);
    ValueOfPad(t.month, 2);
    ValueOfPad(t.day, 2);
    ValueOfPad(t.hour, 2);
    ValueOfPad(t.minute, 2);
    ValueOfPad(t.second, 2);
    ParseZoneText(t.offset);
    DateTextSlices(t, ZoneText(t.offset));
    ghost var y, mo, d, h, mi, se :=
      Pad(t.year, 4), Pad(t.month, 2), Pad(t.day, 2), Pad(t.hour, 2), Pad(t.minute, 2), Pad(t.second, 2);
    assert AllDigits(y) && AllDigits(mo) && AllDigits(d) && AllDigits(h) && AllDigits(mi) && AllDigits(se);
  }
}
