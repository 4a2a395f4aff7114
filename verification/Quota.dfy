/** Access policies, the usage ledger and the time a launch may last. */
module Quota {
  import opened Options
  import opened Stamps
  import opened Rows

  // `days` has bit 0 for Monday; limits are in minutes and 0 means none.
  datatype Policy = Policy(days: nat, start: nat, end: nat, dailyLimit: nat, maxSession: nat)

  const DEFAULT_POLICY := Policy(127, 0, 1440, 0, 0)

  predicate ValidPolicy(p: Policy) {
    p.days <= 127 && p.start <= 1439 && 1 <= p.end <= 1440 && p.dailyLimit <= 1440 && p.maxSession <= 720
  }

  // One row of session_usage; `duration` is the column written at the end.
  datatype Usage = Usage(
    ticket: nat, user: int, device: int, connection: int, started: int, ended: Option<int>, duration: nat)

  // The local day and minute, and the instant the local day began.
  datatype Local = Local(weekday: nat, minute: nat, midnight: int)

  predicate LocalOk(l: Local) {
    l.weekday < 7 && l.minute < 1440 && InRange(l.midnight) && l.midnight % NANOS == 0
  }

  // ---- Used time ----

  // Whole seconds from one instant to a later one.
  function Elapsed(from: int, to: int): nat {
    if to > from then (to - from) / NANOS else 0
  }

  function Spent(u: Usage, now: int): nat {
    Elapsed(u.started, if u.ended.Some? then u.ended.value else now)
  }

  // started_at >= midnight, compared as text.
  predicate CountsFrom(u: Usage, midnight: int)
    requires InRange(u.started) && InRange(midnight)
  {
    !StampLess(u.started, midnight)
  }

  // What that comparison means: from the next whole second on, and the exact
  // instant of midnight, but not the rest of its first second.
  lemma CountsFromMeans(u: Usage, midnight: int)
    requires InRange(u.started) && InRange(midnight) && midnight % NANOS == 0
    ensures CountsFrom(u, midnight) <==> u.started / NANOS > midnight / NANOS || u.started == midnight
  {
    NotBelowWholeSecond(u.started, midnight);
  }

  predicate InLedger(usage: seq<Usage>) {
    forall i :: 0 <= i < |usage| ==> InRange(usage[i].started)
  }

  function Used(usage: seq<Usage>, user: int, midnight: int, now: int): nat
    requires InLedger(usage) && InRange(midnight)
  {
    if usage == [] then 0 else
    var last := usage[|usage| - 1];
    Used(usage[..|usage| - 1], user, midnight, now)
    + if last.user == user && CountsFrom(last, midnight) then Spent(last, now) else 0
  }

  lemma {:induction false} UsedGrowsWithTime(usage: seq<Usage>, user: int, midnight: int, now: int, later: int)
    requires InLedger(usage) && InRange(midnight) && now <= later
    ensures Used(usage, user, midnight, now) <= Used(usage, user, midnight, later)
  {
    hide CountsFrom, InRange;
    if usage != [] {
      UsedGrowsWithTime(usage[..|usage| - 1], user, midnight, now, later);
      SpentGrows(usage[|usage| - 1], now, later);
    }
  }

  lemma SpentGrows(u: Usage, now: int, later: int)
    requires now <= later
    ensures Spent(u, now) <= Spent(u, later)
  {
  }

  // Rewriting rows without changing what they have spent changes nothing.
  lemma {:induction false} UsedAmend(usage: seq<Usage>, change: Usage -> Usage, user: int, midnight: int, now: int)
    requires InLedger(usage) && InRange(midnight)
    requires forall u :: u in usage ==>
               change(u).user == u.user && change(u).started == u.started && Spent(change(u), now) == Spent(u, now)
    ensures InLedger(Amend(usage, change))
    ensures Used(Amend(usage, change), user, midnight, now) == Used(usage, user, midnight, now)
  {
    hide Spent, InRange, StampLess;
    if usage != [] {
      var n := |usage| - 1;
      UsedAmend(usage[..n], change, user, midnight, now);
      assert Amend(usage, change)[..n] == Amend(usage[..n], change);
      assert usage[n] in usage;
    }
  }

  lemma {:induction false} UsedConcat(a: seq<Usage>, b: seq<Usage>, user: int, midnight: int, now: int)
    requires InLedger(a) && InLedger(b) && InRange(midnight)
    ensures InLedger(a + b)
    ensures Used(a + b, user, midnight, now) == Used(a, user, midnight, now) + Used(b, user, midnight, now)
  {
    hide Spent, InRange, StampLess;
    if b == [] {
      assert a + b == a;
    } else {
      var n := |b| - 1;
      UsedConcat(a, b[..n], user, midnight, now);
      assert (a + b)[..|a| + n] == a + b[..n];
    }
  }

  // Removing rows takes exactly their share of the used time.
  lemma {:induction false} UsedSplits(usage: seq<Usage>, keep: Usage -> bool, drop: Usage -> bool,
                                      user: int, midnight: int, now: int)
    requires InLedger(usage) && InRange(midnight) && forall u :: drop(u) <==> !keep(u)
    ensures InLedger(Select(usage, keep)) && InLedger(Select(usage, drop))
    ensures Used(usage, user, midnight, now)
            == Used(Select(usage, keep), user, midnight, now) + Used(Select(usage, drop), user, midnight, now)
  {
    hide Spent, InRange, StampLess, Used;
    if usage == [] {
      UsedConcat([], [], user, midnight, now);
      assert [] + [] == usage;
    } else {
      var rest := usage[1..];
      assert usage == [usage[0]] + rest;
      UsedSplits(rest, keep, drop, user, midnight, now);
      UsedConcat([usage[0]], rest, user, midnight, now);
      UsedConcat([usage[0]], Select(rest, keep), user, midnight, now);
      UsedConcat([usage[0]], Select(rest, drop), user, midnight, now);
    }
  }

  // ---- Policy ----

  // Bit `k` of a mask.
  function Bit(mask: nat, k: nat): bool {
    if k == 0 then mask % 2 == 1 else Bit(mask / 2, k - 1)
  }

  predicate InHours(p: Policy, minute: nat) {
    || (p.start == 0 && p.end == 1440)
    || (p.start < p.end && p.start <= minute < p.end)
    || (p.start > p.end && (minute >= p.start || minute < p.end))
  }

  datatype Status = Status(allowed: bool, usedMinutes: nat, capSeconds: nat)

  // What PolicyStatus decides from the seconds already used.
  function StatusOf(p: Policy, l: Local, used: nat): Status {
    var timely := Bit(p.days, l.weekday) && InHours(p, l.minute);
    var remaining := if p.dailyLimit > 0 then p.dailyLimit * 60 - used else 0;
    var allowed := timely && (p.dailyLimit > 0 ==> remaining > 0);
    var session := if p.maxSession > 0 then p.maxSession * 60 else 0;
    Status(allowed, (used + 59) / 60,
           if remaining > 0 && (session == 0 || remaining < session) then remaining else session)
  }

  // Office hours and the night between them share no minute and leave none out.
  lemma NightIsComplement(p: Policy, minute: nat)
    requires p.start != p.end && p.start < 1440 && p.end < 1440 && minute < 1440
    ensures InHours(p, minute) <==> !InHours(p.(start := p.end, end := p.start), minute)
  {
  }

  function Power2(k: nat): (p: nat)
    ensures p > 0
  {
    if k == 0 then 1 else 2 * Power2(k - 1)
  }

  lemma {:induction false} BitAt(mask: nat, k: nat)
    ensures Bit(mask, k) <==> mask / Power2(k) % 2 == 1
  {
    if k > 0 {
      BitAt(mask / 2, k - 1);
      Halves(mask, Power2(k - 1));
    }
  }

  lemma Halves(n: nat, d: nat)
    requires d > 0
    ensures n / 2 / d == n / (2 * d)
  {
    var q, r := n / (2 * d), n % (2 * d);
    assert n == q * (2 * d) + r;
    assert n / 2 == q * d + r / 2 by {
      assert n == 2 * (q * d) + r;
    }
    assert r / 2 < d;
    QuotientIs(n / 2, d, q, r / 2);
  }

  lemma QuotientIs(n: nat, d: nat, q: nat, r: nat)
    requires d > 0 && n == q * d + r && r < d
    ensures n / d == q
  {
    TimesOrder(n / d + 1, q, d);
    TimesOrder(q + 1, n / d, d);
  }

  lemma TimesOrder(a: nat, b: nat, d: nat)
    ensures a <= b ==> a * d <= b * d
  {
  }

  // The weekday's bit is set, and the minute comes after the start and before the
  // end when the day is read as a circle; a day from 0 to 1440 has no limits.
  predicate Timely(p: Policy, l: Local) {
    && p.days / Power2(l.weekday) % 2 == 1
    && ((p.start == 0 && p.end == 1440)
        || (l.minute + 1440 - p.start) % 1440 < (p.end + 1440 - p.start) % 1440)
  }

  // The smaller of what the day leaves and the session limit, of those there are.
  function CapOf(p: Policy, used: nat): nat {
    var day, session := p.dailyLimit * 60 - used, p.maxSession * 60;
    if p.dailyLimit > 0 && day > 0 && (p.maxSession == 0 || day < session) then day else session
  }

  // What a status means: when a launch is allowed, how long, and the time used.
  lemma StatusMeans(p: Policy, l: Local, used: nat)
    requires ValidPolicy(p) && l.minute < 1440
    ensures var s := StatusOf(p, l, used);
            s.allowed <==> Timely(p, l) && (p.dailyLimit == 0 || used < p.dailyLimit * 60)
    ensures StatusOf(p, l, used).capSeconds == CapOf(p, used)
    ensures var s := StatusOf(p, l, used);
            used <= s.usedMinutes * 60 < used + 60
  {
    BitAt(p.days, l.weekday);
    HoursMean(p, l.minute);
  }

  lemma HoursMean(p: Policy, minute: nat)
    requires ValidPolicy(p) && minute < 1440
    ensures InHours(p, minute) <==>
              (p.start == 0 && p.end == 1440)
              || (minute + 1440 - p.start) % 1440 < (p.end + 1440 - p.start) % 1440
  {
  }

  lemma CapBounds(p: Policy, l: Local, used: nat)
    ensures var s := StatusOf(p, l, used);
            s.allowed && p.dailyLimit > 0 ==> 0 < s.capSeconds <= p.dailyLimit * 60 - used
    ensures var s := StatusOf(p, l, used);
            s.allowed && p.maxSession > 0 ==> 0 < s.capSeconds <= p.maxSession * 60
    ensures var s := StatusOf(p, l, used);
            s.allowed ==> (s.capSeconds == 0 <==> p.dailyLimit == 0 && p.maxSession == 0)
  {
  }

  method PolicyStatus(p: Policy, l: Local, usage: seq<Usage>, user: int, now: int) returns (s: Status)
    requires LocalOk(l) && InLedger(usage)
    ensures s == StatusOf(p, l, Used(usage, user, l.midnight, now))
  {
    hide StampLess, Spent, InRange;
    var allowed := Bit(p.days, l.weekday);
    var inWindow := p.start == 0 && p.end == 1440;
    if !inWindow && p.start < p.end {
      inWindow := p.start <= l.minute < p.end;
    } else if !inWindow && p.start > p.end {
      inWindow := l.minute >= p.start || l.minute < p.end;
    }
    if allowed && !inWindow {
      allowed := false;
    }
    var used := 0;
    for i := 0 to |usage|
      invariant used == Used(usage[..i], user, l.midnight, now)
    {
      assert usage[..i + 1][..i] == usage[..i];
      if usage[i].user == user && !StampLess(usage[i].started, l.midnight) {
        used := used + Spent(usage[i], now);
      }
    }
    assert usage[..|usage|] == usage;
    var remaining, effective := 0, 0;
    if p.dailyLimit > 0 {
      remaining := p.dailyLimit * 60 - used;
      if allowed && remaining <= 0 {
        allowed := false;
      }
    }
    if p.maxSession > 0 {
      effective := p.maxSession * 60;
    }
    if remaining > 0 && (effective == 0 || remaining < effective) {
      effective := remaining;
    }
    s := Status(allowed, (used + 59) / 60, effective);
  }

  // ---- Real time ----

  // The row counts for the day.
  predicate Counted(u: Usage, user: int, midnight: int)
    requires InRange(midnight)
  {
    u.user == user && InRange(u.started) && CountsFrom(u, midnight)
  }

  function DayRows(usage: seq<Usage>, user: int, midnight: int): seq<Usage>
    requires InRange(midnight)
  {
    Select(usage, (u: Usage) => Counted(u, user, midnight))
  }

  ghost predicate AllClosed(usage: seq<Usage>) {
    forall u :: u in usage ==> u.ended.Some? && u.started <= u.ended.value
  }

  lemma {:induction false} NoneCounted(usage: seq<Usage>, user: int, midnight: int, now: int)
    requires InLedger(usage) && InRange(midnight)
    requires forall u :: u in usage ==> !Counted(u, user, midnight)
    ensures Used(usage, user, midnight, now) == 0
  {
    hide StampLess, InRange, Spent, CountsFrom;
    if usage != [] {
      assert usage[|usage| - 1] in usage;
      NoneCounted(usage[..|usage| - 1], user, midnight, now);
    }
  }

  // The other rows add nothing to the used time.
  lemma UsedOfDay(usage: seq<Usage>, user: int, midnight: int, now: int)
    requires InLedger(usage) && InRange(midnight)
    ensures InLedger(DayRows(usage, user, midnight))
    ensures Used(usage, user, midnight, now) == Used(DayRows(usage, user, midnight), user, midnight, now)
  {
    hide StampLess, InRange, Spent, Used, Counted;
    var keep, drop := (u: Usage) => Counted(u, user, midnight), (u: Usage) => !Counted(u, user, midnight);
    UsedSplits(usage, keep, drop, user, midnight, now);
    NoneCounted(Select(usage, drop), user, midnight, now);
    assert DayRows(usage, user, midnight) == Select(usage, keep);
  }

  // Finished rows have spent the same at any time.
  lemma {:induction false} UsedWhenClosed(usage: seq<Usage>, user: int, midnight: int, now: int, later: int)
    requires InLedger(usage) && InRange(midnight) && AllClosed(usage)
    ensures Used(usage, user, midnight, now) == Used(usage, user, midnight, later)
  {
    hide StampLess, InRange, CountsFrom;
    if usage != [] {
      assert usage[|usage| - 1] in usage;
      UsedWhenClosed(usage[..|usage| - 1], user, midnight, now, later);
    }
  }

  // Real time, in nanoseconds, of finished sessions.
  function RealTime(usage: seq<Usage>): int {
    if usage == [] then 0 else
    var last := usage[|usage| - 1];
    RealTime(usage[..|usage| - 1]) + if last.ended.Some? then last.ended.value - last.started else 0
  }

  // The ledger is behind real time by less than a second a session.
  lemma {:induction false} LedgerLag(usage: seq<Usage>, user: int, midnight: int, now: int)
    requires InLedger(usage) && InRange(midnight) && AllClosed(usage)
    requires forall u :: u in usage ==> Counted(u, user, midnight)
    ensures Used(usage, user, midnight, now) * NANOS <= RealTime(usage) <= (Used(usage, user, midnight, now) + |usage|) * NANOS
  {
    hide StampLess, InRange, CountsFrom;
    if usage != [] {
      var n := |usage| - 1;
      assert usage[n] in usage;
      LedgerLag(usage[..n], user, midnight, now);
      SpentLag(usage[n], now);
    }
  }

  lemma SpentLag(u: Usage, now: int)
    requires u.ended.Some? && u.started <= u.ended.value
    ensures Spent(u, now) * NANOS <= u.ended.value - u.started < (Spent(u, now) + 1) * NANOS
  {
  }
}
