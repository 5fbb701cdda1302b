/** Instants in microseconds, counted from the start of year 0 (UTC), and their text on the wire. */
module Timestamps {
  import opened Decimals

  // ---------------------------------------------------------------- calendar

  predicate Leap(y: int) { y % 4 == 0 && (y % 100 != 0 || y % 400 == 0) }

  function YearLength(y: int): nat { if Leap(y) then 366 else 365 }

  function MonthLength(y: int, m: int): nat {
    if m == 2 then (if Leap(y) then 29 else 28)
    else if m == 4 || m == 6 || m == 9 || m == 11 then 30
    else 31
  }

  /** Days from the start of year 0 to the start of year y. */
  function DaysToYear(y: nat): nat {
    if y == 0 then 0 else DaysToYear(y - 1) + YearLength(y - 1)
  }

  function DaysToMonth(y: int, m: int): nat {
    if m <= 1 then 0 else DaysToMonth(y, m - 1) + MonthLength(y, m - 1)
  }

  datatype Date = Date(year: int, month: nat, day: nat)

  /** The year that holds a day, and the days before it in that year. */
  function YearOf(y: int, days: int): (int, nat)
    decreases if days < 0 then 1 else 0, if days < 0 then -days else days
  {
    if days < 0 then YearOf(y - 1, days + YearLength(y - 1))
    else if days < YearLength(y) then (y, days)
    else YearOf(y + 1, days - YearLength(y))
  }

  function MonthOf(y: int, m: nat, days: nat): (nat, nat)
    decreases 12 - m
  {
    if m >= 12 || days < MonthLength(y, m) then (m, days) else MonthOf(y, m + 1, days - MonthLength(y, m))
  }

  function DateOf(days: int): Date {
    var (y, inYear) := YearOf(0, days);
    var (m, inMonth) := MonthOf(y, 1, inYear);
    Date(y, m, inMonth + 1)
  }

  predicate OnCalendar(d: Date) { d.year >= 0 && 1 <= d.month <= 12 && 1 <= d.day <= MonthLength(d.year, d.month) }

  function DaysTo(d: Date): int
    requires d.year >= 0
  {
    DaysToYear(d.year) + DaysToMonth(d.year, d.month) + d.day - 1
  }

  lemma {:induction false} YearFound(y: int, days: int)
    requires y >= 0 && days >= 0
    ensures var (y', rest) := YearOf(y, days);
            y' >= y && 0 <= rest < YearLength(y') && DaysToYear(y') + rest == DaysToYear(y) + days
    decreases days
  {
    if days >= YearLength(y) { YearFound(y + 1, days - YearLength(y)); }
  }

  lemma {:induction false} MonthFound(y: int, m: nat, days: nat)
    requires 1 <= m <= 12 && DaysToMonth(y, m) + days < YearLength(y)
    ensures var (m', rest) := MonthOf(y, m, days);
            && m <= m' <= 12 && 0 <= rest < MonthLength(y, m')
            && DaysToMonth(y, m') + rest == DaysToMonth(y, m) + days
    decreases 12 - m
  {
    if m == 12 {
      TwelveMonths(y);
    } else if days >= MonthLength(y, m) {
      MonthFound(y, m + 1, days - MonthLength(y, m));
    }
  }

  lemma TwelveMonths(y: int)
    ensures DaysToMonth(y, 12) + MonthLength(y, 12) == YearLength(y)
  {
    assert DaysToMonth(y, 2) == 31;
    assert DaysToMonth(y, 3) == 31 + MonthLength(y, 2);
    assert DaysToMonth(y, 5) == DaysToMonth(y, 4) + 30 == DaysToMonth(y, 3) + 61;
    assert DaysToMonth(y, 7) == DaysToMonth(y, 6) + 30 == DaysToMonth(y, 5) + 61;
    assert DaysToMonth(y, 9) == DaysToMonth(y, 8) + 31 == DaysToMonth(y, 7) + 62;
    assert DaysToMonth(y, 11) == DaysToMonth(y, 10) + 31 == DaysToMonth(y, 9) + 61;
  }

  /** Counting days back from the date of a day gives that day. */
  lemma DateRoundTrip(days: int)
    requires days >= 0
    ensures OnCalendar(DateOf(days)) && DaysTo(DateOf(days)) == days
  {
    YearFound(0, days);
    var (y, inYear) := YearOf(0, days);
    MonthFound(y, 1, inYear);
  }

  /** Days before a year lie in earlier years. */
  lemma {:induction false} EarlierYear(y: int, days: int)
    requires days < 0
    ensures YearOf(y, days).0 < y
    decreases -days
  {
    if days + YearLength(y - 1) < 0 { EarlierYear(y - 1, days + YearLength(y - 1)); }
  }

  // ---------------------------------------------------------------- text

  /** At least `width` digits, padded with zeros on the left. */
  function Pad(n: nat, width: nat): string {
    var s := Digits(n);
    if |s| < width then Zeros(width - |s|) + s else s
  }

  function YearText(y: int): string { if y < 0 then "-" + Pad(-y, 4) else Pad(y, 4) }

  const MICROS_PER_DAY := 86_400_000_000

  function DayOf(t: int): int { t / MICROS_PER_DAY }

  function Year(t: int): int { DateOf(DayOf(t)).year }

  function DateText(t: int): string {
    var d := DateOf(DayOf(t));
    YearText(d.year) + "-" + Pad(d.month, 2) + "-" + Pad(d.day, 2)
  }

  function ClockText(micros: nat): string {
    Pad(micros / 3_600_000_000, 2) + ":" + Pad(micros / 60_000_000 % 60, 2) + ":" + Pad(micros / 1_000_000 % 60, 2)
    + "." + Pad(micros % 1_000_000, 6)
  }

  /** The canonical form: UTC, six fraction digits. */
  function Format(t: int): string { DateText(t) + "T" + ClockText(t % MICROS_PER_DAY) + "Z" }

  datatype Stamp = Malformed | NotCalendar | Instant(t: int)

  predicate DigitsAt(s: string, i: nat, n: nat) {
    i + n <= |s| && forall k :: i <= k < i + n ==> IsDigit(s[k])
  }

  function Field(s: string, i: nat, n: nat): nat
    requires DigitsAt(s, i, n)
  {
    assert AllDigits(s[i..i + n]);
    NatOf(s[i..i + n])
  }

  /** Positions of the digits and separators of the date and the clock down to seconds. */
  predicate Shape(s: string) {
    && |s| >= 20
    && DigitsAt(s, 0, 4) && s[4] == '-' && DigitsAt(s, 5, 2) && s[7] == '-' && DigitsAt(s, 8, 2)
    && s[10] == 'T'
    && DigitsAt(s, 11, 2) && s[13] == ':' && DigitsAt(s, 14, 2) && s[16] == ':' && DigitsAt(s, 17, 2)
  }

  function DigitRun(s: string): (n: nat)
    ensures n <= |s| && DigitsAt(s, 0, n)
  {
    if s == "" || !IsDigit(s[0]) then 0
    else
      assert forall k :: 1 <= k < 1 + DigitRun(s[1..]) ==> s[k] == s[1..][k - 1];
      1 + DigitRun(s[1..])
  }

  /** The fraction's digits, when there is a fraction. */
  function FractionLength(s: string): nat
    requires Shape(s)
  {
    if s[19] == '.' then DigitRun(s[20..]) else 0
  }

  function Zone(s: string): string
    requires Shape(s)
  {
    if s[19] == '.' then s[20..][FractionLength(s)..] else s[19..]
  }

  predicate ZoneShape(z: string) {
    z == "Z" || (|z| == 6 && (z[0] == '+' || z[0] == '-') && DigitsAt(z, 1, 2) && z[3] == ':' && DigitsAt(z, 4, 2))
  }

  predicate Pattern(s: string) {
    && Shape(s)
    && (s[19] == '.' ==> 1 <= FractionLength(s) <= 6)
    && ZoneShape(Zone(s))
  }

  function ZoneMinutes(z: string): int
    requires ZoneShape(z)
  {
    if z == "Z" then 0
    else
      var m := Field(z, 1, 2) * 60 + Field(z, 4, 2);
      if z[0] == '-' then -m else m
  }

  predicate ZoneInRange(z: string)
    requires ZoneShape(z)
  {
    z == "Z" || (Field(z, 1, 2) <= 24 && Field(z, 4, 2) <= 60)
  }

  function FractionMicros(s: string): nat
    requires Pattern(s)
  {
    if s[19] != '.' then 0
    else
      var n := FractionLength(s);
      ShiftKeeps(Field(s[20..], 0, n), 6 - n);
      Shift(Field(s[20..], 0, n), 6 - n)
  }

  lemma {:induction false} ShiftKeeps(a: int, n: nat)
    requires a >= 0
    ensures Shift(a, n) >= 0
  {
    if n > 0 { ShiftKeeps(a, n - 1); }
  }

  /** How a text is read: the pattern first, then the calendar. */
  function Parse(s: string): Stamp {
    if !Pattern(s) then Malformed
    else
      var d := Date(Field(s, 0, 4), Field(s, 5, 2), Field(s, 8, 2));
      var h, m, sec := Field(s, 11, 2), Field(s, 14, 2), Field(s, 17, 2);
      if !OnCalendar(d) || h >= 24 || m >= 60 || sec >= 60 || !ZoneInRange(Zone(s)) then NotCalendar
      else
        Instant(DaysTo(d) * MICROS_PER_DAY
                + (h * 3600 + m * 60 + sec - ZoneMinutes(Zone(s)) * 60) * 1_000_000 + FractionMicros(s))
  }

  // ---------------------------------------------------------------- round trip

  lemma PadReads(n: nat, width: nat)
    requires width > 0
    ensures AllDigits(Pad(n, width)) && NatOf(Pad(n, width)) == n
    ensures |Pad(n, width)| >= width && (|Pad(n, width)| == width <==> n < Pow10(width))
  {
    DigitsShape(n);
    DigitsLength(n, width);
    var s := Digits(n);
    if |s| < width {
      ZerosValue(width - |s|);
      ShiftZero(|s|);
      NatOfConcat(Zeros(width - |s|), s);
    }
  }

  lemma TwoDigits(n: nat)
    requires n < 100
    ensures |Pad(n, 2)| == 2 && AllDigits(Pad(n, 2)) && NatOf(Pad(n, 2)) == n
  {
    PadReads(n, 2);
    assert Pow10(2) == 10 * Pow10(1) == 100;
  }

  lemma SixDigits(n: nat)
    requires n < 1_000_000
    ensures |Pad(n, 6)| == 6 && AllDigits(Pad(n, 6)) && NatOf(Pad(n, 6)) == n
  {
    PadReads(n, 6);
    assert Pow10(2) == 100 && Pow10(4) == 10 * Pow10(3) == 100 * Pow10(2) && Pow10(6) == 10 * Pow10(5) == 100 * Pow10(4);
  }

  lemma FourDigits(y: int)
    ensures 0 <= y <= 9999 ==> |YearText(y)| == 4 && AllDigits(YearText(y)) && NatOf(YearText(y)) == y
    ensures y > 9999 ==> |YearText(y)| > 4 && AllDigits(YearText(y))
  {
    if y >= 0 {
      PadReads(y, 4);
      assert Pow10(2) == 100 && Pow10(4) == 10 * Pow10(3) == 100 * Pow10(2);
    }
  }

  /** A text cut into fixed pieces. */
  lemma DatePieces(a: string, b: string, c: string)
    requires |a| == 4 && AllDigits(a) && |b| == 2 && AllDigits(b) && |c| == 2 && AllDigits(c)
    ensures var s := a + "-" + b + "-" + c;
            && |s| == 10 && DigitsAt(s, 0, 4) && s[4] == '-' && DigitsAt(s, 5, 2) && s[7] == '-' && DigitsAt(s, 8, 2)
            && s[0..4] == a && s[5..7] == b && s[8..10] == c
  {
  }

  lemma ClockPieces(h: string, m: string, sec: string)
    requires |h| == 2 && AllDigits(h) && |m| == 2 && AllDigits(m) && |sec| == 2 && AllDigits(sec)
    ensures var s := h + ":" + m + ":" + sec;
            && |s| == 8 && DigitsAt(s, 0, 2) && s[2] == ':' && DigitsAt(s, 3, 2) && s[5] == ':' && DigitsAt(s, 6, 2)
            && s[0..2] == h && s[3..5] == m && s[6..8] == sec
  {
  }

  lemma {:induction false} DigitRunOf(digits: string, rest: string)
    requires AllDigits(digits) && (rest == "" || !IsDigit(rest[0]))
    ensures DigitRun(digits + rest) == |digits|
  {
    if digits == "" {
      assert digits + rest == rest;
    } else {
      assert (digits + rest)[1..] == digits[1..] + rest;
      DigitRunOf(digits[1..], rest);
    }
  }

  /** Reading a text assembled from a date, a clock and a six digit fraction. */
  lemma AssembledReads(date: string, clock: string, frac: string)
    requires |date| == 10 && DigitsAt(date, 0, 4) && date[4] == '-' && DigitsAt(date, 5, 2) && date[7] == '-' && DigitsAt(date, 8, 2)
    requires |clock| == 8 && DigitsAt(clock, 0, 2) && clock[2] == ':' && DigitsAt(clock, 3, 2) && clock[5] == ':' && DigitsAt(clock, 6, 2)
    requires |frac| == 6 && AllDigits(frac)
    ensures var s := date + "T" + (clock + "." + frac) + "Z";
            && Pattern(s) && Zone(s) == "Z" && FractionMicros(s) == NatOf(frac)
            && Field(s, 0, 4) == Field(date, 0, 4) && Field(s, 5, 2) == Field(date, 5, 2) && Field(s, 8, 2) == Field(date, 8, 2)
            && Field(s, 11, 2) == Field(clock, 0, 2) && Field(s, 14, 2) == Field(clock, 3, 2)
            && Field(s, 17, 2) == Field(clock, 6, 2)
  {
    var s := date + "T" + (clock + "." + frac) + "Z";
    assert s[..10] == date && s[10] == 'T' && s[11..19] == clock && s[19] == '.' && s[20..] == frac + "Z";
    assert forall i :: 0 <= i < 8 ==> s[11 + i] == clock[i];
    assert s[0..4] == date[0..4] && s[5..7] == date[5..7] && s[8..10] == date[8..10];
    assert s[11..13] == clock[0..2] && s[14..16] == clock[3..5] && s[17..19] == clock[6..8];
    AssembledShape(s, date, clock);
    DigitRunOf(frac, "Z");
    assert (frac + "Z")[6..] == "Z" && (frac + "Z")[0..6] == frac;
  }

  lemma AssembledShape(s: string, date: string, clock: string)
    requires |s| >= 20 && s[..10] == date && s[10] == 'T' && s[11..19] == clock
    requires |date| == 10 && DigitsAt(date, 0, 4) && date[4] == '-' && DigitsAt(date, 5, 2) && date[7] == '-' && DigitsAt(date, 8, 2)
    requires |clock| == 8 && DigitsAt(clock, 0, 2) && clock[2] == ':' && DigitsAt(clock, 3, 2) && clock[5] == ':' && DigitsAt(clock, 6, 2)
    ensures Shape(s)
  {
    assert forall i :: 0 <= i < 10 ==> s[i] == date[i];
    assert forall i :: 11 <= i < 19 ==> s[i] == clock[i - 11];
  }

  lemma ClockReads(micros: nat)
    requires micros < MICROS_PER_DAY
    ensures var h, m, sec := micros / 3_600_000_000, micros / 60_000_000 % 60, micros / 1_000_000 % 60;
            h < 24 && (h * 3600 + m * 60 + sec) * 1_000_000 + micros % 1_000_000 == micros
  {
  }

  lemma NoShape(year: string, rest: string)
    requires year != "" && (!IsDigit(year[0]) || (|year| > 4 && IsDigit(year[4])))
    ensures !Shape(year + rest)
  {
    var s := year + rest;
    assert s[0] == year[0] && (|year| > 4 ==> s[4] == year[4]);
  }

  /** Years outside 0..9999 do not fit the pattern. */
  lemma WideYear(t: int)
    requires !(0 <= Year(t) <= 9999)
    ensures !Shape(Format(t))
  {
    var d := DateOf(DayOf(t));
    FourDigits(d.year);
    YearFirst(YearText(d.year), Pad(d.month, 2), Pad(d.day, 2), ClockText(t % MICROS_PER_DAY));
  }

  lemma YearFirst(year: string, month: string, day: string, clock: string)
    requires year != "" && (!IsDigit(year[0]) || (|year| > 4 && IsDigit(year[4])))
    ensures !Shape((year + "-" + month + "-" + day) + "T" + clock + "Z")
  {
    var rest := "-" + month + "-" + day + "T" + clock + "Z";
    NoShape(year, rest);
    assert (year + "-" + month + "-" + day) + "T" + clock + "Z" == year + rest;
  }

  lemma ReadsAs(s: string, d: Date, h: nat, m: nat, sec: nat, micros: nat)
    requires Pattern(s) && Zone(s) == "Z" && FractionMicros(s) == micros
    requires Field(s, 0, 4) == d.year && Field(s, 5, 2) == d.month && Field(s, 8, 2) == d.day
    requires Field(s, 11, 2) == h && Field(s, 14, 2) == m && Field(s, 17, 2) == sec
    requires OnCalendar(d) && h < 24 && m < 60 && sec < 60
    ensures Parse(s) == Instant(DaysTo(d) * MICROS_PER_DAY + (h * 3600 + m * 60 + sec) * 1_000_000 + micros)
  {
  }

  lemma PiecesRead(d: Date, h: nat, m: nat, sec: nat, micros: nat)
    requires OnCalendar(d) && d.year <= 9999 && h < 24 && m < 60 && sec < 60 && micros < 1_000_000
    ensures var date := YearText(d.year) + "-" + Pad(d.month, 2) + "-" + Pad(d.day, 2);
            var clock := Pad(h, 2) + ":" + Pad(m, 2) + ":" + Pad(sec, 2);
            Parse(date + "T" + (clock + "." + Pad(micros, 6)) + "Z")
              == Instant(DaysTo(d) * MICROS_PER_DAY + (h * 3600 + m * 60 + sec) * 1_000_000 + micros)
  {
    FourDigits(d.year); TwoDigits(d.month); TwoDigits(d.day);
    TwoDigits(h); TwoDigits(m); TwoDigits(sec); SixDigits(micros);
    DatePieces(YearText(d.year), Pad(d.month, 2), Pad(d.day, 2));
    ClockPieces(Pad(h, 2), Pad(m, 2), Pad(sec, 2));
    var date := YearText(d.year) + "-" + Pad(d.month, 2) + "-" + Pad(d.day, 2);
    var clock := Pad(h, 2) + ":" + Pad(m, 2) + ":" + Pad(sec, 2);
    AssembledReads(date, clock, Pad(micros, 6));
    ReadsAs(date + "T" + (clock + "." + Pad(micros, 6)) + "Z", d, h, m, sec, micros);
  }

  /** The canonical text of an instant is accepted exactly in years 0 to 9999, and reads back. */
  lemma FormatReads(t: int)
    ensures if 0 <= Year(t) <= 9999 then Parse(Format(t)) == Instant(t) else Parse(Format(t)) == Malformed
  {
    if 0 <= Year(t) <= 9999 {
      if DayOf(t) < 0 { EarlierYear(0, DayOf(t)); }
      DateRoundTrip(DayOf(t));
      var d, micros := DateOf(DayOf(t)), t % MICROS_PER_DAY;
      ClockReads(micros);
      PiecesRead(d, micros / 3_600_000_000, micros / 60_000_000 % 60, micros / 1_000_000 % 60, micros % 1_000_000);
    } else {
      WideYear(t);
    }
  }
}
