/** Timestamps as the controller stores them, and the order SQLite sees.
  *
  * A time is a number of nanoseconds since the start of year 0; `At` is its
  * calendar form and `Stamp` its RFC 3339 text, with the trailing zeros of the
  * fraction removed.
  */
module Stamps {
  import opened Strings

  const NANOS: nat := 1_000_000_000
  const DAY: nat := 86_400

  // ---- Calendar ----

  predicate Leap(y: nat) {
    y % 4 == 0 && (y % 100 != 0 || y % 400 == 0)
  }

  function DaysInYear(y: nat): nat {
    if Leap(y) then 366 else 365
  }

  function DaysInMonth(y: nat, m: nat): nat {
    if m == 2 then (if Leap(y) then 29 else 28)
    else if m == 4 || m == 6 || m == 9 || m == 11 then 30
    else 31
  }

  function DaysBeforeYear(y: nat): nat {
    if y == 0 then 0 else DaysBeforeYear(y - 1) + DaysInYear(y - 1)
  }

  function DaysBeforeMonth(y: nat, m: nat): nat {
    if m <= 1 then 0 else DaysBeforeMonth(y, m - 1) + DaysInMonth(y, m - 1)
  }

  lemma WholeYear(y: nat)
    ensures DaysBeforeMonth(y, 13) == DaysInYear(y)
  {
    assert DaysBeforeMonth(y, 1) == 0;
    assert DaysBeforeMonth(y, 2) == 31;
    assert DaysBeforeMonth(y, 3) == 31 + DaysInMonth(y, 2);
    var afterFebruary := DaysBeforeMonth(y, 3);
    assert DaysBeforeMonth(y, 4) == afterFebruary + 31;
    assert DaysBeforeMonth(y, 5) == afterFebruary + 61;
    assert DaysBeforeMonth(y, 6) == afterFebruary + 92;
    assert DaysBeforeMonth(y, 7) == afterFebruary + 122;
    assert DaysBeforeMonth(y, 8) == afterFebruary + 153;
    assert DaysBeforeMonth(y, 9) == afterFebruary + 184;
    assert DaysBeforeMonth(y, 10) == afterFebruary + 214;
    assert DaysBeforeMonth(y, 11) == afterFebruary + 245;
    assert DaysBeforeMonth(y, 12) == afterFebruary + 275;
    assert DaysBeforeMonth(y, 13) == afterFebruary + 306;
  }

  datatype Calendar = Calendar(year: nat, month: nat, day: nat, hour: nat, minute: nat, second: nat, nanos: nat)

  predicate Valid(c: Calendar) {
    && c.year < 10_000 && 1 <= c.month <= 12 && 1 <= c.day <= DaysInMonth(c.year, c.month)
    && c.hour < 24 && c.minute < 60 && c.second < 60 && c.nanos < NANOS
  }

  function Days(c: Calendar): int {
    DaysBeforeYear(c.year) + DaysBeforeMonth(c.year, c.month) + c.day - 1
  }

  function Seconds(c: Calendar): int {
    ((Days(c) * 24 + c.hour) * 60 + c.minute) * 60 + c.second
  }

  function Time(c: Calendar): int {
    Seconds(c) * NANOS + c.nanos
  }

  // ---- From time to calendar and back ----

  function YearFrom(days: nat, y: nat): (r: nat)
    requires DaysBeforeYear(y) <= days
    ensures DaysBeforeYear(r) <= days < DaysBeforeYear(r + 1)
    decreases days - DaysBeforeYear(y)
  {
    if days < DaysBeforeYear(y + 1) then y else YearFrom(days, y + 1)
  }

  function MonthFrom(y: nat, days: nat, m: nat): (r: nat)
    requires 1 <= m <= 12 && DaysBeforeMonth(y, m) <= days < DaysBeforeMonth(y, 13)
    ensures m <= r <= 12 && DaysBeforeMonth(y, r) <= days < DaysBeforeMonth(y, r + 1)
    decreases 12 - m
  {
    if days < DaysBeforeMonth(y, m + 1) then m else MonthFrom(y, days, m + 1)
  }

  // The first instant the format has no text for, the start of year 10000.
  const LIMIT: nat := 3_652_425 * DAY * NANOS

  predicate InRange(t: int) {
    0 <= t < LIMIT
  }

  // Counting multiples up to and including `y` instead of up to `y`.
  lemma OneMore(y: nat)
    ensures (y + 4) / 4 == (y + 3) / 4 + (if y % 4 == 0 then 1 else 0)
    ensures (y + 100) / 100 == (y + 99) / 100 + (if y % 100 == 0 then 1 else 0)
    ensures (y + 400) / 400 == (y + 399) / 400 + (if y % 400 == 0 then 1 else 0)
  {
    OneMoreFour(y);
    OneMoreHundred(y);
    OneMoreFourHundred(y);
  }

  lemma OneMoreFour(y: nat)
    ensures (y + 4) / 4 == (y + 3) / 4 + (if y % 4 == 0 then 1 else 0)
  {
    var q, r := y / 4, y % 4;
    assert y + 4 == 4 * (q + 1) + r;
  }

  lemma OneMoreHundred(y: nat)
    ensures (y + 100) / 100 == (y + 99) / 100 + (if y % 100 == 0 then 1 else 0)
  {
    var q, r := y / 100, y % 100;
    assert y + 100 == 100 * (q + 1) + r;
  }

  lemma OneMoreFourHundred(y: nat)
    ensures (y + 400) / 400 == (y + 399) / 400 + (if y % 400 == 0 then 1 else 0)
  {
    var q, r := y / 400, y % 400;
    assert y + 400 == 400 * (q + 1) + r;
  }

  lemma LeapCount(y: nat)
    ensures DaysInYear(y) == 365 + (if y % 4 == 0 then 1 else 0) - (if y % 100 == 0 then 1 else 0)
                                 + (if y % 400 == 0 then 1 else 0)
  {
    if y % 100 == 0 {
      Multiple(25 * (y / 100));
      assert y == 4 * (25 * (y / 100));
    }
    if y % 400 == 0 {
      Multiple(4 * (y / 400));
      assert y == 100 * (4 * (y / 400));
    }
  }

  lemma Multiple(q: nat)
    ensures (4 * q) % 4 == 0 && (100 * q) % 100 == 0
  {
  }

  lemma {:induction false} DaysClosedForm(y: nat)
    ensures DaysBeforeYear(y) == 365 * y + (y + 3) / 4 - (y + 99) / 100 + (y + 399) / 400
  {
    if y > 0 {
      DaysClosedForm(y - 1);
      OneMore(y - 1);
      hide DaysInYear;
      LeapCount(y - 1);
    }
  }

  lemma {:induction false} YearsGrow(y: nat, z: nat)
    requires y <= z
    ensures DaysBeforeYear(y) <= DaysBeforeYear(z)
  {
    if y < z { YearsGrow(y, z - 1); }
  }

  lemma RangeOfDays(t: int)
    requires InRange(t)
    ensures 0 <= t / NANOS / DAY < DaysBeforeYear(10_000)
  {
    DaysClosedForm(10_000);
  }

  // The calendar form of a time, as time.Time computes it.
  function At(t: int): (c: Calendar)
    requires InRange(t)
    ensures Valid(c) && Time(c) == t
    ensures Seconds(c) == t / NANOS && c.nanos == t % NANOS
  {
    var seconds := t / NANOS;
    var days := seconds / DAY;
    var rest := seconds % DAY;
    var y := YearFrom(days, 0);
    RangeOfDays(t);
    assert y < 10_000 by { if y >= 10_000 { YearsGrow(10_000, y); } }
    WholeYear(y);
    var m := MonthFrom(y, days - DaysBeforeYear(y), 1);
    var d := days - DaysBeforeYear(y) - DaysBeforeMonth(y, m);
    Calendar(y, m, d + 1, rest / 3600, rest / 60 % 60, rest % 60, t % NANOS)
  }

  // ---- Order of calendars ----

  // Field by field, most significant first.
  predicate Before(a: Calendar, b: Calendar) {
    a.year < b.year || (a.year == b.year && (
    a.month < b.month || (a.month == b.month && (
    a.day < b.day || (a.day == b.day && (
    a.hour < b.hour || (a.hour == b.hour && (
    a.minute < b.minute || (a.minute == b.minute && a.second < b.second)))))))))
  }

  lemma {:induction false} MonthsGrow(y: nat, m: nat, n: nat)
    requires 1 <= m < n <= 13
    ensures DaysBeforeMonth(y, m) + DaysInMonth(y, m) <= DaysBeforeMonth(y, n)
  {
    if m < n - 1 { MonthsGrow(y, m, n - 1); }
  }

  lemma DaysBefore(a: Calendar, b: Calendar)
    requires Valid(a) && Valid(b)
    requires a.year < b.year || (a.year == b.year && (a.month < b.month || (a.month == b.month && a.day < b.day)))
    ensures Days(a) < Days(b)
  {
    if a.year < b.year {
      MonthsGrow(a.year, a.month, 13);
      WholeYear(a.year);
      YearsGrow(a.year + 1, b.year);
    } else if a.month < b.month {
      MonthsGrow(a.year, a.month, b.month);
    }
  }

  lemma BeforeIsSooner(a: Calendar, b: Calendar)
    requires Valid(a) && Valid(b) && Before(a, b)
    ensures Seconds(a) < Seconds(b)
  {
    if a.year != b.year || a.month != b.month || a.day != b.day {
      DaysBefore(a, b);
    }
  }

  // ---- Text ----

  function StripZeros(s: string): (r: string)
    ensures r <= s
    ensures r == [] || r[|r| - 1] != '0'
    ensures forall i :: |r| <= i < |s| ==> s[i] == '0'
  {
    if s != [] && s[|s| - 1] == '0' then StripZeros(s[..|s| - 1]) else s
  }

  // The digits of the fraction that are kept.
  function FractionDigits(nanos: nat): string {
    StripZeros(Pad(nanos, 9))
  }

  function Fraction(nanos: nat): string {
    if nanos == 0 then "" else "." + FractionDigits(nanos)
  }

  // The part of the text up to whole seconds, always 19 characters.
  function WholeText(c: Calendar): string {
    Pad(c.year, 4) + ("-" + (Pad(c.month, 2) + ("-" + (Pad(c.day, 2) + ("T" + (Pad(c.hour, 2) +
    (":" + (Pad(c.minute, 2) + (":" + Pad(c.second, 2))))))))))
  }

  function Text(c: Calendar): string {
    WholeText(c) + (Fraction(c.nanos) + "Z")
  }

  function Stamp(t: int): string
    requires InRange(t)
  {
    Text(At(t))
  }

  predicate StampLess(a: int, b: int)
    requires InRange(a) && InRange(b)
  {
    Less(Stamp(a), Stamp(b))
  }

  lemma WholeTextOrder(a: Calendar, b: Calendar)
    requires Valid(a) && Valid(b)
    ensures Less(WholeText(a), WholeText(b)) <==> Before(a, b)
  {
    assert Pow10(2) == 100 && Pow10(4) == 10_000;
    var sa, sb := Pad(a.second, 2), Pad(b.second, 2);
    var ma, mb := Pad(a.minute, 2) + (":" + sa), Pad(b.minute, 2) + (":" + sb);
    var ha, hb := Pad(a.hour, 2) + (":" + ma), Pad(b.hour, 2) + (":" + mb);
    var da, db := Pad(a.day, 2) + ("T" + ha), Pad(b.day, 2) + ("T" + hb);
    var oa, ob := Pad(a.month, 2) + ("-" + da), Pad(b.month, 2) + ("-" + db);
    PadOrder(a.second, b.second, 2);
    LessSameHead(":", sa, sb);
    PadField(a.minute, b.minute, 2, ":" + sa, ":" + sb);
    LessSameHead(":", ma, mb);
    PadField(a.hour, b.hour, 2, ":" + ma, ":" + mb);
    LessSameHead("T", ha, hb);
    PadField(a.day, b.day, 2, "T" + ha, "T" + hb);
    LessSameHead("-", da, db);
    PadField(a.month, b.month, 2, "-" + da, "-" + db);
    LessSameHead("-", oa, ob);
    PadField(a.year, b.year, 4, "-" + oa, "-" + ob);
  }

  lemma SecondsDecide(a: Calendar, b: Calendar)
    requires Valid(a) && Valid(b)
    ensures Before(a, b) <==> Seconds(a) < Seconds(b)
    ensures WholeText(a) == WholeText(b) <==> Seconds(a) == Seconds(b)
  {
    if Before(a, b) {
      BeforeIsSooner(a, b);
    } else if Before(b, a) {
      BeforeIsSooner(b, a);
    }
    WholeTextOrder(a, b);
    WholeTextOrder(b, a);
    LessTotal(WholeText(a), WholeText(b));
    LessIrreflexive(WholeText(a));
  }

  // The stored text compares by whole seconds first.
  lemma StampSplit(a: int, b: int)
    requires InRange(a) && InRange(b)
    ensures StampLess(a, b) <==>
              a / NANOS < b / NANOS
              || (a / NANOS == b / NANOS && Less(Fraction(a % NANOS) + "Z", Fraction(b % NANOS) + "Z"))
  {
    var x, y := At(a), At(b);
    SecondsDecide(x, y);
    WholeTextOrder(x, y);
    LessAppend(WholeText(x), WholeText(y), Fraction(x.nanos) + "Z", Fraction(y.nanos) + "Z");
  }

  // Text order is time order whenever the whole seconds differ.
  lemma StampOrder(a: int, b: int)
    requires InRange(a) && InRange(b) && a / NANOS != b / NANOS
    ensures StampLess(a, b) <==> a < b
  {
    StampSplit(a, b);
  }

  // ---- Inside one second ----

  lemma {:induction false} NothingBelowZeros(x: string, zeros: string)
    requires |x| == |zeros| && AllDigits(x) && forall i :: 0 <= i < |zeros| ==> zeros[i] == '0'
    ensures !Less(x, zeros)
  {
    if x != [] { NothingBelowZeros(x[1..], zeros[1..]); }
  }

  lemma {:induction false} TailOrder(a: string, b: string, za: string, zb: string)
    requires AllDigits(a) && AllDigits(b) && |a + za| == |b + zb|
    requires forall i :: 0 <= i < |za| ==> za[i] == '0'
    requires forall i :: 0 <= i < |zb| ==> zb[i] == '0'
    requires Less(a + za, b + zb)
    ensures a < b ==> Less(b + "Z", a + "Z")
    ensures !(a < b) ==> Less(a + "Z", b + "Z")
  {
    if b == [] {
      assert b + zb == zb;
      NothingBelowZeros(a + za, zb);
    } else if a == [] {
      assert (b + "Z")[0] == b[0] && (a + "Z")[0] == 'Z';
    } else {
      assert (a + za)[1..] == a[1..] + za && (b + zb)[1..] == b[1..] + zb;
      assert (a + "Z")[1..] == a[1..] + "Z" && (b + "Z")[1..] == b[1..] + "Z";
      if a[0] == b[0] {
        TailOrder(a[1..], b[1..], za, zb);
        assert a < b <==> a[1..] < b[1..];
      }
    }
  }

  // For two times of one second the text order is reversed exactly when the
  // kept fraction digits of the earlier one are a proper prefix of the later's.
  lemma StampOrderInSecond(a: int, b: int)
    requires InRange(a) && InRange(b) && a < b && a / NANOS == b / NANOS
    ensures StampLess(a, b) <==> !(FractionDigits(a % NANOS) < FractionDigits(b % NANOS))
    ensures StampLess(b, a) <==> FractionDigits(a % NANOS) < FractionDigits(b % NANOS)
  {
    StampSplit(a, b);
    StampSplit(b, a);
    FractionOrder(a % NANOS, b % NANOS);
  }

  lemma NanosWidth()
    ensures Pow10(9) == NANOS
  {
    assert Pow10(4) == 10_000;
    assert Pow10(8) == 100_000_000;
  }

  lemma DigitsOrder(n: nat, m: nat)
    requires n < m < NANOS
    ensures var a, b := FractionDigits(n), FractionDigits(m);
            && (Less(a + "Z", b + "Z") <==> !(a < b))
            && (Less(b + "Z", a + "Z") <==> a < b)
  {
    NanosWidth();
    PadOrder(n, m, 9);
    var a, b := FractionDigits(n), FractionDigits(m);
    var p, q := Pad(n, 9), Pad(m, 9);
    assert p == a + p[|a|..] && q == b + q[|b|..];
    TailOrder(a, b, p[|a|..], q[|b|..]);
    if a < b { LessAsymmetric(b + "Z", a + "Z"); } else { LessAsymmetric(a + "Z", b + "Z"); }
  }

  lemma FractionOrder(n: nat, m: nat)
    requires n < m < NANOS
    ensures var reversed := FractionDigits(n) < FractionDigits(m);
            && (Less(Fraction(n) + "Z", Fraction(m) + "Z") <==> !reversed)
            && (Less(Fraction(m) + "Z", Fraction(n) + "Z") <==> reversed)
  {
    hide FractionDigits;
    DigitsOrder(n, m);
    NoFraction(n);
    NoFraction(m);
    var a, b := FractionDigits(n) + "Z", FractionDigits(m) + "Z";
    assert Fraction(m) + "Z" == "." + b;
    if n == 0 {
      assert Fraction(n) + "Z" == "Z";
    } else {
      assert Fraction(n) + "Z" == "." + a;
      LessSameHead(".", a, b);
      LessSameHead(".", b, a);
    }
  }

  lemma NoFraction(n: nat)
    requires n < NANOS
    ensures FractionDigits(n) == [] <==> n == 0
  {
    NanosWidth();
    PadOrder(n, 0, 9);
    PadZero(9);
    var s := Pad(n, 9);
    if FractionDigits(n) == [] {
      assert s == Pad(0, 9);
    }
  }

  lemma {:induction false} PadZero(width: nat)
    ensures forall i :: 0 <= i < width ==> Pad(0, width)[i] == '0'
  {
    if width > 0 { PadZero(width - 1); }
  }

  lemma WholeFirst(whole: int, t: int)
    requires InRange(whole) && InRange(t) && whole % NANOS == 0 && whole < t && whole / NANOS == t / NANOS
    ensures StampLess(t, whole)
  {
    hide FractionDigits;
    NoFraction(0);
    NoFraction(t % NANOS);
    StampOrderInSecond(whole, t);
  }

  // Half a second past sorts before the whole second it follows.
  lemma TextOrderIsNotTimeOrder(t: int)
    requires InRange(t) && InRange(t + NANOS / 2) && t % NANOS == 0
    ensures StampLess(t + NANOS / 2, t)
  {
    var later := t + NANOS / 2;
    WholeFirst(t, later);
  }

  // Against a whole second, everything from the next second on is not below,
  // and inside the second only the exact instant is.
  lemma NotBelowWholeSecond(t: int, whole: int)
    requires InRange(t) && InRange(whole) && whole % NANOS == 0
    ensures !StampLess(t, whole) <==> t / NANOS > whole / NANOS || t == whole
  {
    StampSplit(t, whole);
    if t / NANOS == whole / NANOS && t != whole {
      WholeFirst(whole, t);
    } else if t == whole {
      LessIrreflexive(Stamp(t));
    }
  }
}
