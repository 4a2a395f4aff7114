/** Failed logins and the sliding lockout window. */
module Lockout {
  import opened Stamps

  const WINDOW: int := 600 * NANOS
  const ALLOWED: nat := 8

  datatype Attempt = Attempt(key: string, at: int, success: bool)

  datatype Login = Allowed | Denied | RateLimited

  // Times a login can happen at: the cutoff must have a timestamp too.
  predicate IsLoginTime(t: int) {
    InRange(t) && InRange(t - WINDOW)
  }

  // COUNT(*) ... WHERE source_key=? AND success=0 AND attempted_at>cutoff.
  function Failures(log: seq<Attempt>, key: string, cutoff: int): (n: nat)
    requires InRange(cutoff)
    requires forall k :: 0 <= k < |log| ==> InRange(log[k].at)
    ensures n <= |log|
  {
    if log == [] then 0 else
    var last := log[|log| - 1];
    Failures(log[..|log| - 1], key, cutoff)
    + if last.key == key && !last.success && StampLess(cutoff, last.at) then 1 else 0
  }

  predicate TimesOk(log: seq<Attempt>) {
    forall k :: 0 <= k < |log| ==> IsLoginTime(log[k].at)
  }

  predicate Ordered(log: seq<Attempt>) {
    forall i, j :: 0 <= i < j < |log| ==> log[i].at <= log[j].at
  }

  ghost predicate LogOk(log: seq<Attempt>) {
    && TimesOk(log)
    && Ordered(log)
    && (forall i :: 0 <= i < |log| ==> Guarded(log, i))
  }

  // The failure recorded at `i`, if it is one, was let through.
  ghost predicate Guarded(log: seq<Attempt>, i: nat)
    requires i < |log|
    requires TimesOk(log)
  {
    assert IsLoginTime(log[i].at) && TimesOk(log[..i]);
    log[i].success || Failures(log[..i], log[i].key, log[i].at - WINDOW) < ALLOWED
  }

  datatype Call = Call(key: string, valid: bool, now: int)

  // What one login leaves in the table.
  function Logged(log: seq<Attempt>, c: Call): seq<Attempt>
    requires LogOk(log) && IsLoginTime(c.now)
  {
    if Failures(log, c.key, c.now - WINDOW) >= ALLOWED then log else log + [Attempt(c.key, c.now, c.valid)]
  }

  class LoginStore {
    var attempts: seq<Attempt>

    constructor ()
      ensures attempts == []
    {
      attempts := [];
    }

    method CountFailures(key: string, cutoff: int) returns (failures: nat)
      requires InRange(cutoff) && forall k :: 0 <= k < |attempts| ==> InRange(attempts[k].at)
      ensures failures == Failures(attempts, key, cutoff)
    {
      hide StampLess, InRange;
      failures := 0;
      for i := 0 to |attempts|
        invariant failures == Failures(attempts[..i], key, cutoff)
      {
        if attempts[i].key == key && !attempts[i].success && StampLess(cutoff, attempts[i].at) {
          failures := failures + 1;
        }
        assert attempts[..i + 1][..i] == attempts[..i];
      }
      assert attempts[..|attempts|] == attempts;
    }

    // `valid` is whether the user exists, is enabled and gave its password.
    method Authenticate(key: string, valid: bool, now: int) returns (r: Login)
      requires LogOk(attempts) && IsLoginTime(now)
      requires attempts == [] || attempts[|attempts| - 1].at <= now
      modifies this
      ensures LogOk(attempts)
      ensures r.RateLimited? <==> Failures(old(attempts), key, now - WINDOW) >= ALLOWED
      ensures attempts == Logged(old(attempts), Call(key, valid, now))
      ensures !r.RateLimited? ==> (r.Allowed? <==> valid)
      // Only failures of this very key in the last ten minutes refuse it, and eight
      // of them always do; the order of texts leaves a second of doubt.
      ensures r.RateLimited? ==> Recorded(old(attempts), key, now - 601 * NANOS, now) >= 8
      ensures Recorded(old(attempts), key, now - 599 * NANOS, now) >= 8 ==> r.RateLimited?
    {
      hide StampLess, InRange, Failures, Recorded, Guarded;
      RefusedMeans(attempts, Call(key, valid, now));
      var failures := CountFailures(key, now - WINDOW);
      if failures >= ALLOWED {
        return RateLimited;
      }
      LogGrows(attempts, Attempt(key, now, valid));
      attempts := attempts + [Attempt(key, now, valid)];
      r := if valid then Allowed else Denied;
    }
  }

  // A login that was let through extends a good log to a good one.
  lemma LogGrows(log: seq<Attempt>, a: Attempt)
    requires LogOk(log) && IsLoginTime(a.at)
    requires log == [] || log[|log| - 1].at <= a.at
    requires Failures(log, a.key, a.at - WINDOW) < ALLOWED
    ensures LogOk(log + [a])
  {
    hide StampLess, InRange, Failures, IsLoginTime, Guarded;
    var log' := log + [a];
    assert TimesOk(log') && Ordered(log');
    forall i | 0 <= i < |log'|
      ensures Guarded(log', i)
    {
      GuardedGrows(log, a, i);
    }
  }

  lemma GuardedGrows(log: seq<Attempt>, a: Attempt, i: nat)
    requires TimesOk(log) && IsLoginTime(a.at) && TimesOk(log + [a]) && i <= |log|
    requires if i < |log| then Guarded(log, i) else Failures(log, a.key, a.at - WINDOW) < ALLOWED
    ensures Guarded(log + [a], i)
  {
    hide Failures, TimesOk, IsLoginTime, InRange;
    assert (log + [a])[..i] == log[..i];
    assert log[..|log|] == log;
  }

  // Failures of `key` recorded from `from` to `to`, both included.
  function Recorded(log: seq<Attempt>, key: string, from: int, to: int): nat {
    if log == [] then 0 else
    var last := log[|log| - 1];
    Recorded(log[..|log| - 1], key, from, to) + if last.key == key && !last.success && from <= last.at <= to then 1 else 0
  }

  // Everything recorded in the window that ends at a login is seen by it.
  lemma {:induction false} WindowIsSeen(log: seq<Attempt>, key: string, from: int, to: int, now: int)
    requires IsLoginTime(now) && forall k :: 0 <= k < |log| ==> InRange(log[k].at)
    requires now - WINDOW + NANOS <= from
    ensures Recorded(log, key, from, to) <= Failures(log, key, now - WINDOW)
  {
    hide StampLess, InRange;
    if log != [] {
      var last := log[|log| - 1];
      WindowIsSeen(log[..|log| - 1], key, from, to, now);
      if from <= last.at {
        StampOrder(now - WINDOW, last.at);
      }
    }
  }

  // What a login counts was recorded for its key in its window.
  lemma {:induction false} SeenIsRecorded(log: seq<Attempt>, key: string, now: int)
    requires IsLoginTime(now) && forall k :: 0 <= k < |log| ==> InRange(log[k].at) && log[k].at <= now
    ensures Failures(log, key, now - WINDOW) <= Recorded(log, key, now - 601 * NANOS, now)
  {
    hide StampLess, InRange;
    if log != [] {
      var last := log[|log| - 1];
      SeenIsRecorded(log[..|log| - 1], key, now);
      if last.at < now - 601 * NANOS {
        EarlierSecond(last.at, now);
        StampOrder(now - WINDOW, last.at);
      }
    }
  }

  lemma EarlierSecond(at: int, now: int)
    requires at < now - 601 * NANOS
    ensures at / NANOS < (now - WINDOW) / NANOS
  {
  }

  // A refused login leaves the log as it is. It is refused only if eight failures
  // of its key were recorded in the last 601 seconds, and always if they were in
  // the last 599: other keys, successes and older failures refuse nobody.
  lemma RefusedMeans(log: seq<Attempt>, c: Call)
    requires LogOk(log) && IsLoginTime(c.now)
    requires log == [] || log[|log| - 1].at <= c.now
    ensures Logged(log, c) == log || Logged(log, c) == log + [Attempt(c.key, c.now, c.valid)]
    ensures Logged(log, c) == log ==> Recorded(log, c.key, c.now - 601 * NANOS, c.now) >= 8
    ensures Recorded(log, c.key, c.now - 599 * NANOS, c.now) >= 8 ==> Logged(log, c) == log
  {
    hide StampLess, InRange, Failures, Guarded, Recorded, IsLoginTime;
    forall k | 0 <= k < |log| ensures InRange(log[k].at) && log[k].at <= c.now {
      LoginInRange(log, k);
    }
    SeenIsRecorded(log, c.key, c.now);
    WindowIsSeen(log, c.key, c.now - 599 * NANOS, c.now, c.now);
  }

  lemma LoginInRange(log: seq<Attempt>, k: nat)
    requires k < |log| && TimesOk(log)
    ensures InRange(log[k].at)
  {
  }

  // In any 599 seconds, whole or not, at most 8 failures of one key are recorded.
  lemma {:induction false} AtMostEightFailures(log: seq<Attempt>, key: string, from: int)
    requires LogOk(log)
    ensures Recorded(log, key, from, from + 599 * NANOS) <= 8
  {
    hide StampLess, InRange;
    if log != [] {
      var n := |log| - 1;
      var last := log[n];
      var rest := log[..n];
      assert Guarded(log, n);
      forall i | 0 <= i < n
        ensures Guarded(rest, i)
      {
        assert Guarded(log, i) && rest[..i] == log[..i];
      }
      if last.key == key && !last.success && from <= last.at <= from + 599 * NANOS {
        WindowIsSeen(rest, key, from, from + 599 * NANOS, last.at);
      } else {
        AtMostEightFailures(rest, key, from);
      }
    }
  }

  // Logins that follow one another on a clock that never goes back.
  ghost predicate Sequential(calls: seq<Call>) {
    && (forall i :: 0 <= i < |calls| ==> IsLoginTime(calls[i].now))
    && (forall i, j :: 0 <= i < j < |calls| ==> calls[i].now <= calls[j].now)
  }

  ghost function LogAfter(calls: seq<Call>): (log: seq<Attempt>)
    requires Sequential(calls)
    ensures LogOk(log)
    ensures forall k :: 0 <= k < |log| && calls != [] ==> log[k].at <= calls[|calls| - 1].now
    ensures calls == [] ==> log == []
  {
    if calls == [] then [] else
    var n := |calls| - 1;
    var before := LogAfter(calls[..n]);
    Step(before, calls[n]);
    Logged(before, calls[n])
  }

  lemma Step(log: seq<Attempt>, c: Call)
    requires LogOk(log) && IsLoginTime(c.now) && forall k :: 0 <= k < |log| ==> log[k].at <= c.now
    ensures LogOk(Logged(log, c))
  {
    hide Failures;
    if Failures(log, c.key, c.now - WINDOW) < ALLOWED {
      LogGrows(log, Attempt(c.key, c.now, c.valid));
    }
  }

  lemma NoBurst(calls: seq<Call>, key: string, from: int)
    requires Sequential(calls)
    ensures Recorded(LogAfter(calls), key, from, from + 599 * NANOS) <= 8
  {
    AtMostEightFailures(LogAfter(calls), key, from);
  }
}
