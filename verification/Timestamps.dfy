/** The canonical text form of instants, and why the store may compare it as text. */
module Timestamps {
  import opened Orders

  /** A UTC instant as `datetime` holds it. */
  datatype Stamp = Stamp(year: nat, month: nat, day: nat, hour: nat, minute: nat, second: nat, micro: nat)

  predicate Leap(y: nat) {
    y % 4 == 0 && (y % 100 != 0 || y % 400 == 0)
  }

  function DaysIn(y: nat, m: nat): nat {
    if m == 2 then (if Leap(y) then 29 else 28) else if m in {4, 6, 9, 11} then 30 else 31
  }

  predicate IsStamp(s: Stamp) {
    && 1 <= s.year <= 9999 && 1 <= s.month <= 12 && 1 <= s.day <= DaysIn(s.year, s.month)
    && s.hour < 24 && s.minute < 60 && s.second < 60 && s.micro < 1_000_000
  }

  /** The days from 1 January of year 1 to the first of the month. */
  function DaysBefore(y: nat, m: nat): nat
    requires 1 <= m
    decreases y, m
  {
    if m > 1 then DaysBefore(y, m - 1) + DaysIn(y, m - 1)
    else if y <= 1 then 0
    else DaysBefore(y - 1, 12) + DaysIn(y - 1, 12)
  }

  /** Whole microseconds from the beginning of year 1: the `Time` of the tables. */
  function Instant(s: Stamp): nat
    requires IsStamp(s)
  {
    (((((DaysBefore(s.year, s.month) + s.day - 1) * 24 + s.hour) * 60 + s.minute) * 60 + s.second) * 1_000_000) + s.micro
  }

  /** A number in a fixed width, with leading zeros. */
  function Pad(n: nat, width: nat): (s: string)
    ensures |s| == width
  {
    if width == 0 then "" else Pad(n / 10, width - 1) + ['0' + (n % 10) as char]
  }

  function Power(width: nat): nat {
    if width == 0 then 1 else 10 * Power(width - 1)
  }

  /** `isoformat(timespec="microseconds")` with `Z`. */
  function Canonical(s: Stamp): string {
    Pad(s.year, 4) + ("-" + (Pad(s.month, 2) + ("-" + (Pad(s.day, 2) + ("T" + (Pad(s.hour, 2) + (":" + (Pad(s.minute, 2)
      + (":" + (Pad(s.second, 2) + ("." + (Pad(s.micro, 6) + "Z"))))))))))))
  }

  lemma {:induction false} PadsCompare(a: nat, b: nat, width: nat)
    requires a < Power(width) && b < Power(width)
    ensures LexLess(CharLess, Pad(a, width), Pad(b, width)) <==> a < b
    ensures Pad(a, width) == Pad(b, width) <==> a == b
  {
    if width > 0 {
      PadsCompare(a / 10, b / 10, width - 1);
      var p, q := Pad(a / 10, width - 1), Pad(b / 10, width - 1);
      var x, y := ['0' + (a % 10) as char], ['0' + (b % 10) as char];
      FirstPartsDecide(p, x, q, y);
      assert LexLess(CharLess, x, y) <==> a % 10 < b % 10;
      if p + x == q + y { assert (p + x)[..width - 1] == p && (q + y)[..width - 1] == q && x == y; }
    }
  }

  /** One padded field, a separator, and what follows. */
  lemma FieldsCompare(a: nat, b: nat, width: nat, sep: string, s: string, t: string)
    requires a < Power(width) && b < Power(width)
    ensures LexLess(CharLess, Pad(a, width) + (sep + s), Pad(b, width) + (sep + t)) <==>
              a < b || (a == b && LexLess(CharLess, s, t))
  {
    PadsCompare(a, b, width);
    FirstPartsDecide(Pad(a, width), sep + s, Pad(b, width), sep + t);
    FirstPartsDecide(sep, s, sep, t);
    LexIrreflexive(sep);
  }

  predicate Before(a: Stamp, b: Stamp) {
    a.year < b.year || (a.year == b.year && (a.month < b.month || (a.month == b.month && (a.day < b.day || (a.day == b.day
      && (a.hour < b.hour || (a.hour == b.hour && (a.minute < b.minute || (a.minute == b.minute
      && (a.second < b.second || (a.second == b.second && a.micro < b.micro)))))))))))
  }

  lemma Powers()
    ensures Power(2) == 100 && Power(4) == 10_000 && Power(6) == 1_000_000
  {
    assert Power(3) == 1000 && Power(5) == 100_000;
  }

  lemma TextIsFields(a: Stamp, b: Stamp)
    requires IsStamp(a) && IsStamp(b)
    ensures LexLess(CharLess, Canonical(a), Canonical(b)) <==> Before(a, b)
  {
    hide LexLess, Pad;
    Powers();
    var a6, b6 := Pad(a.micro, 6) + ("Z" + ""), Pad(b.micro, 6) + ("Z" + "");
    assert "Z" + "" == "Z";
    FieldsCompare(a.micro, b.micro, 6, "Z", "", "");
    LexIrreflexive("");
    var a5, b5 := Pad(a.second, 2) + ("." + a6), Pad(b.second, 2) + ("." + b6);
    FieldsCompare(a.second, b.second, 2, ".", a6, b6);
    var a4, b4 := Pad(a.minute, 2) + (":" + a5), Pad(b.minute, 2) + (":" + b5);
    FieldsCompare(a.minute, b.minute, 2, ":", a5, b5);
    var a3, b3 := Pad(a.hour, 2) + (":" + a4), Pad(b.hour, 2) + (":" + b4);
    FieldsCompare(a.hour, b.hour, 2, ":", a4, b4);
    var a2, b2 := Pad(a.day, 2) + ("T" + a3), Pad(b.day, 2) + ("T" + b3);
    FieldsCompare(a.day, b.day, 2, "T", a3, b3);
    var a1, b1 := Pad(a.month, 2) + ("-" + a2), Pad(b.month, 2) + ("-" + b2);
    FieldsCompare(a.month, b.month, 2, "-", a2, b2);
    FieldsCompare(a.year, b.year, 4, "-", a1, b1);
  }

  lemma {:induction false} MonthsGrow(y: nat, m: nat, z: nat, n: nat)
    requires 1 <= m <= 12 && 1 <= n <= 12 && 1 <= y && (y < z || (y == z && m < n))
    ensures DaysBefore(y, m) + DaysIn(y, m) <= DaysBefore(z, n)
    decreases z, n
  {
    if n > 1 {
      if y < z || m < n - 1 { MonthsGrow(y, m, z, n - 1); }
    } else {
      if y < z - 1 || m < 12 { MonthsGrow(y, m, z - 1, 12); }
    }
  }

  lemma EarlierIsLess(a: Stamp, b: Stamp)
    requires IsStamp(a) && IsStamp(b) && Before(a, b)
    ensures Instant(a) < Instant(b)
  {
    if a.year < b.year || a.month < b.month { MonthsGrow(a.year, a.month, b.year, b.month); }
    var p, q := DaysBefore(a.year, a.month) + a.day - 1, DaysBefore(b.year, b.month) + b.day - 1;
    assert p < q || (p == q && a.day == b.day);
    hide DaysBefore, DaysIn;
  }

  /** Comparing two canonical texts compares the instants they stand for, so that every comparison the queries make
      on text columns is a comparison of times. */
  lemma TextOrderIsTimeOrder(a: Stamp, b: Stamp)
    requires IsStamp(a) && IsStamp(b)
    ensures LexLess(CharLess, Canonical(a), Canonical(b)) <==> Instant(a) < Instant(b)
    ensures Canonical(a) == Canonical(b) <==> Instant(a) == Instant(b)
    ensures |Canonical(a)| == 27
  {
    hide LexLess, Canonical, Instant;
    TextIsFields(a, b);
    TextIsFields(b, a);
    LexIrreflexive(Canonical(a));
    if Before(a, b) { EarlierIsLess(a, b); }
    if Before(b, a) { EarlierIsLess(b, a); }
    if !Before(a, b) && !Before(b, a) { assert a == b; }
    Width(a);
  }

  /** The years are those of the Gregorian calendar: 365 days, and one more in every fourth year, but for full centuries
      that 400 does not divide. */
  lemma {:induction false} YearsAreGregorian(y: nat)
    requires y >= 1
    ensures DaysBefore(y, 1) == 365 * (y - 1) + (y - 1) / 4 - (y - 1) / 100 + (y - 1) / 400
  {
    if y > 1 {
      YearsAreGregorian(y - 1);
      MonthsOfAYear(y - 1, 12);
      LeapYearsCount(y - 1);
      hide DaysBefore, Leap;
    }
  }

  /** An instant is its day, of 86 400 seconds, and its time of day. */
  lemma InstantIsDayAndTime(s: Stamp)
    requires IsStamp(s)
    ensures Instant(s) == (DaysBefore(s.year, s.month) + s.day - 1) * 86_400_000_000
                          + (s.hour * 3600 + s.minute * 60 + s.second) * 1_000_000 + s.micro
  {
    hide DaysBefore, DaysIn;
  }

  lemma LeapYearsCount(y: nat)
    requires y >= 1
    ensures var before, now := (y - 1) / 4 - (y - 1) / 100 + (y - 1) / 400, y / 4 - y / 100 + y / 400;
            now == before + if Leap(y) then 1 else 0
  {
    Quarters(y);
    Centuries(y);
    FourCenturies(y);
  }

  lemma Quarters(y: nat)
    requires y >= 1
    ensures y / 4 == (y - 1) / 4 + if y % 4 == 0 then 1 else 0
  {
  }

  lemma Centuries(y: nat)
    requires y >= 1
    ensures y / 100 == (y - 1) / 100 + if y % 100 == 0 then 1 else 0
    ensures y % 100 == 0 ==> y % 4 == 0
  {
    var q, r := (y - 1) / 100, (y - 1) % 100;
    if r == 99 { ByHundred(y, q + 1, 0); } else { ByHundred(y, q, r + 1); }
    if y % 100 == 0 { ByFour(y, 25 * (y / 100)); }
  }

  lemma FourCenturies(y: nat)
    requires y >= 1
    ensures y / 400 == (y - 1) / 400 + if y % 400 == 0 then 1 else 0
    ensures y % 400 == 0 ==> y % 100 == 0
  {
    var q, r := (y - 1) / 400, (y - 1) % 400;
    if r == 399 { ByFourHundred(y, q + 1, 0); } else { ByFourHundred(y, q, r + 1); }
    if y % 400 == 0 { ByHundred(y, 4 * (y / 400), 0); }
  }

  lemma ByFour(y: int, q: int)
    requires y == 4 * q
    ensures y % 4 == 0
  {
  }

  lemma ByHundred(y: int, q: int, r: int)
    requires y == 100 * q + r && 0 <= r < 100
    ensures y / 100 == q && y % 100 == r
  {
  }

  lemma ByFourHundred(y: int, q: int, r: int)
    requires y == 400 * q + r && 0 <= r < 400
    ensures y / 400 == q && y % 400 == r
  {
  }

  /** Where each month begins, and with December the whole year. */
  lemma {:induction false} MonthsOfAYear(y: nat, m: nat)
    requires y >= 1 && 1 <= m <= 12
    ensures DaysBefore(y, m) == DaysBefore(y, 1) + DaysToMonth(m) + (if Leap(y) && m > 2 then 1 else 0)
    ensures m == 12 ==> DaysBefore(y + 1, 1) == DaysBefore(y, 1) + if Leap(y) then 366 else 365
  {
    hide Leap;
    if m > 1 { MonthsOfAYear(y, m - 1); }
    assert DaysBefore(y + 1, 1) == DaysBefore(y, 12) + DaysIn(y, 12);
  }

  /** Days of a common year before each month. */
  function DaysToMonth(m: nat): nat {
    if m == 2 then 31 else if m == 3 then 59 else if m == 4 then 90 else if m == 5 then 120 else if m == 6 then 151
    else if m == 7 then 181 else if m == 8 then 212 else if m == 9 then 243 else if m == 10 then 273
    else if m == 11 then 304 else if m == 12 then 334 else 0
  }

  /** The value of a text of decimal digits. */
  function ValueOf(s: string): int {
    if s == "" then 0 else 10 * ValueOf(s[..|s| - 1]) + (s[|s| - 1] as int - '0' as int)
  }

  predicate Digits(s: string) {
    forall i :: 0 <= i < |s| ==> '0' <= s[i] <= '9'
  }

  lemma {:induction false} PadReads(n: nat, width: nat)
    requires n < Power(width)
    ensures Digits(Pad(n, width)) && ValueOf(Pad(n, width)) == n
  {
    if width > 0 {
      PadReads(n / 10, width - 1);
      assert Pad(n, width)[..width - 1] == Pad(n / 10, width - 1);
    }
  }

  /** Field `s[i..j]` is the number `n`, in digits. */
  predicate Reads(s: string, i: nat, j: nat, n: nat)
    requires i <= j <= |s|
  {
    Digits(s[i..j]) && ValueOf(s[i..j]) == n
  }

  /** The text is `YYYY-MM-DDThh:mm:ss.ffffffZ`, and reads back as the fields of the instant. */
  lemma TextReadsBack(s: Stamp)
    requires IsStamp(s)
    ensures var t := Canonical(s);
            && |t| == 27 && t[4] == t[7] == '-' && t[10] == 'T' && t[13] == t[16] == ':' && t[19] == '.' && t[26] == 'Z'
            && Reads(t, 0, 4, s.year) && Reads(t, 5, 7, s.month) && Reads(t, 8, 10, s.day) && Reads(t, 11, 13, s.hour)
            && Reads(t, 14, 16, s.minute) && Reads(t, 17, 19, s.second) && Reads(t, 20, 26, s.micro)
  {
    hide Pad, ValueOf, Digits, Leap, DaysIn;
    Powers();
    MonthsAreShort(s);
    PadReads(s.year, 4);
    PadReads(s.month, 2);
    PadReads(s.day, 2);
    PadReads(s.hour, 2);
    PadReads(s.minute, 2);
    PadReads(s.second, 2);
    PadReads(s.micro, 6);
    var t := Canonical(s);
    assert t[0..] == t;
    var t6 := Pad(s.micro, 6) + "Z";
    var t5 := Pad(s.second, 2) + ("." + t6);
    var t4 := Pad(s.minute, 2) + (":" + t5);
    var t3 := Pad(s.hour, 2) + (":" + t4);
    var t2 := Pad(s.day, 2) + ("T" + t3);
    var t1 := Pad(s.month, 2) + ("-" + t2);
    Field(t, 0, Pad(s.year, 4), "-", t1);
    Field(t, 5, Pad(s.month, 2), "-", t2);
    Field(t, 8, Pad(s.day, 2), "T", t3);
    Field(t, 11, Pad(s.hour, 2), ":", t4);
    Field(t, 14, Pad(s.minute, 2), ":", t5);
    Field(t, 17, Pad(s.second, 2), ".", t6);
    assert t6 == Pad(s.micro, 6) + ("Z" + "");
    Field(t, 20, Pad(s.micro, 6), "Z", "");
  }

  /** A field, its separator and the rest stand where their lengths put them. */
  lemma Field(t: string, i: nat, p: string, sep: string, rest: string)
    requires i <= |t| && t[i..] == p + (sep + rest) && |sep| == 1
    ensures i + |p| < |t| && t[i..i + |p|] == p && t[i + |p|] == sep[0] && t[i + |p| + 1..] == rest
  {
    var tail := t[i..];
    assert tail[..|p|] == p && tail[|p|] == sep[0] && tail[|p| + 1..] == rest;
  }

  lemma MonthsAreShort(s: Stamp)
    requires IsStamp(s)
    ensures s.day < 100
  {
  }

  lemma Width(a: Stamp)
    ensures |Canonical(a)| == 27
  {
  }
}
