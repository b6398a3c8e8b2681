/** Counting failed sign-ins: how often a password can be tried before and between lockouts. */
module Lockout {
  import opened Basics

  const LIMIT: nat := 5
  const LOCK: nat := 15 * 60 * 1000

  datatype Row = Row(active: bool, failures: nat, lockedUntil: Option<Time>)
  datatype Attempt = Attempt(now: Time, matches: bool)

  predicate Locked(row: Row, now: Time) {
    row.lockedUntil.Some? && row.lockedUntil.value > now
  }

  /** The password decides something: the account is active and not locked. */
  predicate Evaluated(row: Row, now: Time) {
    row.active && !Locked(row, now)
  }

  predicate Succeeds(row: Row, attempt: Attempt) {
    Evaluated(row, attempt.now) && attempt.matches
  }

  function After(row: Row, attempt: Attempt): Row {
    if !Evaluated(row, attempt.now) then row
    else if attempt.matches then row.(failures := 0, lockedUntil := None)
    else
      var failures := if row.failures + 1 < LIMIT then row.failures + 1 else LIMIT;
      row.(failures := failures, lockedUntil := if failures == LIMIT then Some(attempt.now + LOCK) else None)
  }

  class LocalCredential {
    var active: bool
    var failures: nat
    var lockedUntil: Option<Time>

    function Now(): Row
      reads this
    {
      Row(active, failures, lockedUntil)
    }

    constructor (row: Row)
      ensures Now() == row
    {
      active, failures, lockedUntil := row.active, row.failures, row.lockedUntil;
    }

    method Authenticate(matches: bool, now: Time) returns (accepted: bool)
      modifies this
      ensures accepted <==> old(Succeeds(Now(), Attempt(now, matches)))
      ensures Now() == old(After(Now(), Attempt(now, matches)))
    {
      var locked := lockedUntil.Some? && lockedUntil.value > now;
      if !matches || !active || locked {
        if active && !locked {
          failures := if failures + 1 < LIMIT then failures + 1 else LIMIT;
          lockedUntil := if failures == LIMIT then Some(now + LOCK) else None;
        }
        return false;
      }
      failures, lockedUntil := 0, None;
      return true;
    }
  }

  // ---------- Runs of attempts ----------

  ghost predicate InOrder(attempts: seq<Attempt>, from: Time, to: Time) {
    && (forall i, j :: 0 <= i < j < |attempts| ==> attempts[i].now <= attempts[j].now)
    && forall i :: 0 <= i < |attempts| ==> from <= attempts[i].now <= to
  }

  ghost predicate NoneSucceeds(row: Row, attempts: seq<Attempt>)
    decreases |attempts|
  {
    attempts == [] || (!Succeeds(row, attempts[0]) && NoneSucceeds(After(row, attempts[0]), attempts[1..]))
  }

  /** How many of the attempts are evaluated at all. */
  function Count(row: Row, attempts: seq<Attempt>): nat
    decreases |attempts|
  {
    if attempts == [] then 0
    else (if Evaluated(row, attempts[0].now) then 1 else 0) + Count(After(row, attempts[0]), attempts[1..])
  }

  /** What a row still allows between two instants. */
  function Budget(row: Row, from: Time, to: Time): nat
    requires from <= to
  {
    var open := if Locked(row, from) then row.lockedUntil.value else from;
    if open > to then 0
    else if row.failures < LIMIT then LIMIT - row.failures + (to - open) / LOCK
    else 1 + (to - open) / LOCK
  }

  lemma {:induction false} CountWithinBudget(row: Row, attempts: seq<Attempt>, from: Time, to: Time)
    requires from <= to && InOrder(attempts, from, to) && NoneSucceeds(row, attempts)
    ensures Count(row, attempts) <= Budget(row, from, to)
    decreases |attempts|
  {
    if attempts != [] {
      var now, next := attempts[0].now, After(row, attempts[0]);
      CountWithinBudget(next, attempts[1..], now, to);
      BudgetPaysForOne(row, attempts[0], from, to);
    }
  }

  lemma BudgetPaysForOne(row: Row, attempt: Attempt, from: Time, to: Time)
    requires from <= attempt.now <= to && !Succeeds(row, attempt)
    ensures Budget(After(row, attempt), attempt.now, to) + (if Evaluated(row, attempt.now) then 1 else 0) <= Budget(row, from, to)
  {
    LessTimeAllowsLess(row, from, attempt.now, to);
    if Evaluated(row, attempt.now) {
      OneLess(row, attempt, to);
    }
  }

  lemma LessTimeAllowsLess(row: Row, from: Time, now: Time, to: Time)
    requires from <= now <= to
    ensures Budget(row, now, to) <= Budget(row, from, to)
  {
  }

  lemma OneLess(row: Row, attempt: Attempt, to: Time)
    requires attempt.now <= to && Evaluated(row, attempt.now) && !attempt.matches
    ensures Budget(After(row, attempt), attempt.now, to) + 1 <= Budget(row, attempt.now, to)
  {
    var span := to - attempt.now;
    if span >= LOCK {
      assert (span - LOCK) / LOCK == span / LOCK - 1;
    }
  }

  /** From any stored counter, in any window without a success, at most five passwords and one more per quarter of an hour are tried. */
  lemma GuessesAreLimited(row: Row, attempts: seq<Attempt>, from: Time, window: nat)
    requires InOrder(attempts, from, from + window) && NoneSucceeds(row, attempts)
    ensures Count(row, attempts) <= 5 + window / 900000
  {
    CountWithinBudget(row, attempts, from, from + window);
    if Locked(row, from) && row.lockedUntil.value <= from + window {
      LessTimeAllowsLess(row.(lockedUntil := None), from, row.lockedUntil.value, from + window);
    }
  }

  // ---------- The bound is reached ----------

  /** `now` again and again while the account is open, then once at the end of every lock. */
  function Guesses(row: Row, now: Time, n: nat): seq<Attempt>
    decreases n
  {
    if n == 0 then []
    else
      var when := if Locked(row, now) then row.lockedUntil.value else now;
      [Attempt(when, false)] + Guesses(After(row, Attempt(when, false)), when, n - 1)
  }

  lemma {:induction false} GuessesAllCount(row: Row, now: Time, n: nat, end: Time)
    requires row.active && row.failures <= LIMIT && (row.failures == LIMIT ==> row.lockedUntil == Some(now + LOCK))
    requires row.failures < LIMIT ==> row.lockedUntil.None?
    requires now <= end && n <= Budget(row, now, end)
    ensures InOrder(Guesses(row, now, n), now, end) && NoneSucceeds(row, Guesses(row, now, n))
    ensures Count(row, Guesses(row, now, n)) == n
    decreases n
  {
    if n > 0 {
      var when := if Locked(row, now) then row.lockedUntil.value else now;
      var first := Attempt(when, false);
      var next := After(row, first);
      assert Evaluated(row, when);
      OneMoreInTime(row, now, n, end);
      GuessesAllCount(next, when, n - 1, end);
      var all, rest := Guesses(row, now, n), Guesses(next, when, n - 1);
      assert all == [first] + rest && all[1..] == rest;
    }
  }

  lemma OneMoreInTime(row: Row, now: Time, n: nat, end: Time)
    requires row.active && row.failures <= LIMIT && (row.failures == LIMIT ==> row.lockedUntil == Some(now + LOCK))
    requires row.failures < LIMIT ==> row.lockedUntil.None?
    requires now <= end && 0 < n <= Budget(row, now, end)
    ensures var when := if Locked(row, now) then row.lockedUntil.value else now;
            when <= end && n - 1 <= Budget(After(row, Attempt(when, false)), when, end)
  {
    var when := if Locked(row, now) then row.lockedUntil.value else now;
    var span := end - when;
    if span >= LOCK {
      assert (span - LOCK) / LOCK == span / LOCK - 1;
    }
  }

  /** So the bound is exact: a fresh account can be tried that often in every window. */
  lemma LimitIsReached(from: Time, window: nat) returns (attempts: seq<Attempt>)
    ensures var clean := Row(true, 0, None);
            && InOrder(attempts, from, from + window) && NoneSucceeds(clean, attempts)
            && Count(clean, attempts) == 5 + window / 900000
  {
    var row := Row(true, 0, None);
    attempts := Guesses(row, from, LIMIT + window / LOCK);
    GuessesAllCount(row, from, LIMIT + window / LOCK, from + window);
  }
}
