/** The second factor of a portal login: one-time codes by counter, and the lockout after failures.

    Times are in milliseconds, read once a login. `totp` gives the code of a counter under the
    account's secret and is any function; a recovery code counts as a checked code as well. */
module PortalMfa {
  import opened Wrappers
  import opened Strings
  import opened Counting

  // -------------------------------------------------------------- one-time codes

  predicate SixDigits(s: string) {
    |s| == 6 && forall i :: 0 <= i < |s| ==> '0' <= s[i] <= '9'
  }

  function Window(now: int, k: nat): int {
    now / 30000 - 1 + k
  }

  /** The outcome of the candidates from the `k`-th on: the first whose code matches decides, and
      it is refused if its counter is not above the last one accepted. */
  function MatchFrom(totp: int -> string, clean: string, last: Option<int>, now: int, k: nat): Option<int>
    requires k <= 3
    decreases 3 - k
  {
    if k == 3 then None
    else if totp(Window(now, k)) != clean then MatchFrom(totp, clean, last, now, k + 1)
    else if last.Some? && Window(now, k) <= last.value then None
    else Some(Window(now, k))
  }

  function Match(totp: int -> string, code: string, last: Option<int>, now: int): Option<int> {
    if !SixDigits(Trim(code)) then None else MatchFrom(totp, Trim(code), last, now, 0)
  }

  /** The counter after a verification. */
  function NextCounter(totp: int -> string, code: string, last: Option<int>, now: int): Option<int> {
    var m := Match(totp, code, last, now);
    if m.Some? then m else last
  }

  // --------------------------------------------------------------------- lockout

  datatype Lockout = Lockout(failedAttempts: nat, lockedUntil: Option<int>)

  /** As configured, in attempts and seconds. */
  datatype Limits = Limits(maxFailedAttempts: int, lockoutSeconds: int) {
    function MaxAttempts(): (r: nat)
      ensures r >= 3
    {
      if maxFailedAttempts < 3 then 3 else maxFailedAttempts
    }

    /** In milliseconds. */
    function LockTime(): (r: nat)
      ensures r >= 60_000
    {
      (if lockoutSeconds < 60 then 60 else lockoutSeconds) * 1000
    }
  }

  datatype Outcome = Locked | Rejected(nowLocked: bool) | Verified

  /** The second factor of `login`, given whether the presented code is right. */
  function Login(s: Lockout, right: bool, limits: Limits, now: int): (Lockout, Outcome) {
    if s.lockedUntil.Some? && s.lockedUntil.value > now then (s, Locked)
    else if right then (Lockout(0, None), Verified)
    else
      var failed := s.failedAttempts + 1;
      var until := if failed >= limits.MaxAttempts() then Some(now + limits.LockTime()) else s.lockedUntil;
      (Lockout(failed, until), Rejected(until.Some?))
  }

  /** A wrong code counts; from the limit on it locks the account, whatever is presented, for the lock time. */
  lemma WrongCodeLocks(s: Lockout, limits: Limits, now: int, right: bool, later: int)
    requires s.lockedUntil.Some? ==> s.lockedUntil.value <= now
    ensures
      var max := if limits.maxFailedAttempts < 3 then 3 else limits.maxFailedAttempts;
      var seconds := if limits.lockoutSeconds < 60 then 60 else limits.lockoutSeconds;
      var (s', outcome) := Login(s, false, limits, now);
      && s'.failedAttempts == s.failedAttempts + 1
      && if s.failedAttempts + 1 >= max
         then
           && outcome == Rejected(true)
           && (Login(s', right, limits, later) == (s', Locked) <==> later < now + 1000 * seconds)
           && (Login(s', right, limits, later).1 == Locked <==> later < now + 1000 * seconds)
         else outcome == Rejected(s.lockedUntil.Some?) && s'.lockedUntil == s.lockedUntil
  {
  }

  /** A row of the portal's user table. */
  class Account {
    var mfaFailedAttempts: nat
    var mfaLockedUntil: Option<int>
    var lastTotpCounter: Option<int>

    constructor ()
      ensures View() == Lockout(0, None) && lastTotpCounter == None
    {
      mfaFailedAttempts, mfaLockedUntil, lastTotpCounter := 0, None, None;
    }

    ghost function View(): Lockout
      reads this
    {
      Lockout(mfaFailedAttempts, mfaLockedUntil)
    }

    method RecordMfaFailure(limits: Limits, now: int) returns (locked: bool)
      modifies this`mfaFailedAttempts, this`mfaLockedUntil
      ensures mfaFailedAttempts == old(mfaFailedAttempts) + 1
      ensures mfaLockedUntil ==
        if mfaFailedAttempts >= limits.MaxAttempts() then Some(now + limits.LockTime()) else old(mfaLockedUntil)
      ensures locked == mfaLockedUntil.Some?
    {
      mfaFailedAttempts := mfaFailedAttempts + 1;
      if mfaFailedAttempts >= limits.MaxAttempts() { mfaLockedUntil := Some(now + limits.LockTime()); }
      locked := mfaLockedUntil.Some?;
    }

    method ClearMfaFailures()
      modifies this`mfaFailedAttempts, this`mfaLockedUntil
      ensures View() == Lockout(0, None)
    {
      mfaFailedAttempts, mfaLockedUntil := 0, None;
    }

    method MatchTotp(totp: int -> string, code: string, now: int) returns (r: Option<int>)
      ensures r == Match(totp, code, lastTotpCounter, now)
    {
      var clean := Trim(code);
      if !SixDigits(clean) { return None; }
      var k := 0;
      while k < 3
        invariant 0 <= k <= 3
        invariant Match(totp, code, lastTotpCounter, now) == MatchFrom(totp, clean, lastTotpCounter, now, k)
      {
        var counter := Window(now, k);
        if totp(counter) == clean {
          if lastTotpCounter.Some? && counter <= lastTotpCounter.value { return None; }
          return Some(counter);
        }
        k := k + 1;
      }
      return None;
    }

    method VerifyTotp(totp: int -> string, code: string, now: int) returns (right: bool)
      modifies this`lastTotpCounter
      ensures right == Match(totp, code, old(lastTotpCounter), now).Some?
      ensures lastTotpCounter == NextCounter(totp, code, old(lastTotpCounter), now)
    {
      var m := MatchTotp(totp, code, now);
      if m == None { return false; }
      lastTotpCounter := m;
      right := true;
    }

    /** The second factor of `login` with a one-time code. */
    method LoginWithTotp(totp: int -> string, code: string, limits: Limits, now: int) returns (outcome: Outcome)
      modifies this
      ensures
        var locked := old(mfaLockedUntil).Some? && old(mfaLockedUntil).value > now;
        && (View(), outcome) == Login(old(View()), Match(totp, code, old(lastTotpCounter), now).Some?, limits, now)
        && lastTotpCounter ==
             if locked then old(lastTotpCounter) else NextCounter(totp, code, old(lastTotpCounter), now)
    {
      if mfaLockedUntil.Some? && mfaLockedUntil.value > now { return Locked; }
      var right := VerifyTotp(totp, code, now);
      if !right {
        var locked := RecordMfaFailure(limits, now);
        return Rejected(locked);
      }
      ClearMfaFailures();
      outcome := Verified;
    }
  }

  // --------------------------------------------------- accepted counters only rise

  /** An accepted counter is one of the three around the clock, its code is the one presented, and it
      is above the last one accepted. */
  lemma MatchMeans(totp: int -> string, code: string, last: Option<int>, now: int, counter: int)
    requires Match(totp, code, last, now) == Some(counter)
    ensures now / 30000 - 1 <= counter <= now / 30000 + 1 && totp(counter) == Trim(code) && SixDigits(Trim(code))
    ensures last.Some? ==> counter > last.value
  {
    assert Match(totp, code, last, now) == MatchFrom(totp, Trim(code), last, now, 0);
    assert MatchFrom(totp, Trim(code), last, now, 2) == Some(counter) || Window(now, 0) <= counter <= Window(now, 1);
  }

  /** Exactly what is accepted: six digits, up to white space around them, that some counter within one step of
      the clock has, if the least such counter is above the last one accepted. */
  lemma AcceptedIff(totp: int -> string, code: string, last: Option<int>, now: int, counter: int)
    ensures Match(totp, code, last, now) == Some(counter) <==>
      && |Trim(code)| == 6 && (forall i :: 0 <= i < 6 ==> '0' <= Trim(code)[i] <= '9')
      && now / 30000 - 1 <= counter <= now / 30000 + 1 && totp(counter) == Trim(code)
      && (forall d :: now / 30000 - 1 <= d < counter ==> totp(d) != Trim(code))
      && (last.Some? ==> counter > last.value)
  {
    var clean, first := Trim(code), now / 30000 - 1;
    if SixDigits(clean) {
      assert Match(totp, code, last, now) == MatchFrom(totp, clean, last, now, 0);
      assert MatchFrom(totp, clean, last, now, 2) ==
        if totp(first + 2) != clean || (last.Some? && first + 2 <= last.value) then None else Some(first + 2);
      assert MatchFrom(totp, clean, last, now, 1) ==
        if totp(first + 1) != clean then MatchFrom(totp, clean, last, now, 2)
        else if last.Some? && first + 1 <= last.value then None else Some(first + 1);
    }
  }

  /** The code that is due, above the last counter and with white space around it, verifies and clears the
      failures of an account that is not locked, unless the counter before had the same code and was used. */
  lemma DueCodeVerifies(
    s: Lockout, totp: int -> string, last: Option<int>, limits: Limits, now: int, before: string, after: string)
    requires Blank(before) && Blank(after) && SixDigits(totp(now / 30000))
    requires s.lockedUntil.Some? ==> s.lockedUntil.value <= now
    requires last.Some? ==> last.value < now / 30000
    ensures
      var due, code := now / 30000, before + totp(now / 30000) + after;
      Login(s, Match(totp, code, last, now).Some?, limits, now) == (Lockout(0, None), Verified) <==>
        !(totp(due - 1) == totp(due) && last.Some? && due - 1 <= last.value)
  {
    var due, code := now / 30000, before + totp(now / 30000) + after;
    assert IsTrimmed(totp(due));
    TrimDrops(before, totp(due), after);
    AcceptedIff(totp, code, last, now, if totp(due - 1) == totp(due) then due - 1 else due);
    assert forall c :: Match(totp, code, last, now) == Some(c) ==> c <= due by {
      forall c | Match(totp, code, last, now) == Some(c) ensures c <= due { AcceptedIff(totp, code, last, now, c); }
    }
    if m :| Match(totp, code, last, now) == Some(m) { AcceptedIff(totp, code, last, now, m); }
  }

  datatype Presented = Presented(code: string, now: int)

  /** The counters accepted over a run within one enrolment, oldest first. */
  function Accepted(totp: int -> string, last: Option<int>, codes: seq<Presented>): seq<int>
    decreases codes
  {
    if codes == [] then []
    else
      var m := Match(totp, codes[0].code, last, codes[0].now);
      (if m.Some? then [m.value] else []) +
          Accepted(totp, NextCounter(totp, codes[0].code, last, codes[0].now), codes[1..])
  }

  ghost predicate Increasing(counters: seq<int>) {
    forall i, j :: 0 <= i < j < |counters| ==> counters[i] < counters[j]
  }

  ghost predicate AllAbove(counters: seq<int>, last: Option<int>) {
    last.Some? ==> forall i :: 0 <= i < |counters| ==> last.value < counters[i]
  }

  lemma Preceded(counter: int, rest: seq<int>, last: Option<int>)
    requires Increasing(rest) && AllAbove(rest, Some(counter)) && (last.Some? ==> last.value < counter)
    ensures Increasing([counter] + rest) && AllAbove([counter] + rest, last)
  {
    var all := [counter] + rest;
    assert all[0] == counter && forall i :: 0 < i < |all| ==> all[i] == rest[i - 1];
  }

  /** No counter is accepted twice, nor one below another, whatever the clock does. */
  lemma {:induction false} CountersIncrease(totp: int -> string, last: Option<int>, codes: seq<Presented>)
    ensures Increasing(Accepted(totp, last, codes)) && AllAbove(Accepted(totp, last, codes), last)
    decreases codes
  {
    if codes != [] {
      var m := Match(totp, codes[0].code, last, codes[0].now);
      var next := NextCounter(totp, codes[0].code, last, codes[0].now);
      var rest := Accepted(totp, next, codes[1..]);
      CountersIncrease(totp, next, codes[1..]);
      if m.Some? {
        MatchMeans(totp, codes[0].code, last, codes[0].now, m.value);
        Preceded(m.value, rest, last);
      } else {
        assert Accepted(totp, last, codes) == rest;
      }
    }
  }

  // ------------------------------------------------------------- the lockout bound

  /** The times at which wrong codes were checked and rejected, over logins with wrong codes only. */
  function Rejections(times: seq<int>, limits: Limits): (Lockout, seq<int>) {
    if times == [] then (Lockout(0, None), [])
    else
      var (s, log) := Rejections(times[..|times| - 1], limits);
      var (s', outcome) := Login(s, false, limits, times[|times| - 1]);
      (s', if outcome.Rejected? then log + [times[|times| - 1]] else log)
  }

  /** From the `max`-th rejection on, each is at least a lock time after the one before. */
  ghost predicate Spaced(log: seq<int>, max: nat, lock: nat) {
    forall i, j :: max <= j < |log| && i == j - 1 && 0 <= i ==> log[i] + lock <= log[j]
  }

  /** The failures so far are the log's, and a lock set by the last of them still stands. */
  ghost predicate Logged(s: Lockout, log: seq<int>, max: nat, lock: nat, clock: int) {
    && s.failedAttempts == |log| && Spaced(log, max, lock) && Ordered(log)
    && (log != [] ==> log[|log| - 1] <= clock)
    && (|log| >= max ==> log != [] && s.lockedUntil == Some(log[|log| - 1] + lock))
  }

  lemma RejectionLogged(s: Lockout, log: seq<int>, max: nat, lock: nat, clock: int, now: int)
    requires Logged(s, log, max, lock, clock) && clock <= now
    requires s.lockedUntil.Some? ==> s.lockedUntil.value <= now
    ensures
      var until := if |log| + 1 >= max then Some(now + lock) else s.lockedUntil;
      Logged(Lockout(|log| + 1, until), log + [now], max, lock, now)
  {
    var longer := log + [now];
    forall i, j | max <= j < |longer| && i == j - 1 && 0 <= i ensures longer[i] + lock <= longer[j] {
      assert j < |log| ==> log[i] + lock <= log[j];
    }
  }

  lemma {:induction false} RejectionsSpaced(times: seq<int>, limits: Limits, clock: int)
    requires Ordered(times) && (times != [] ==> times[|times| - 1] <= clock)
    ensures var (s, log) := Rejections(times, limits); Logged(s, log, limits.MaxAttempts(), limits.LockTime(), clock)
  {
    if times != [] {
      var front, now := times[..|times| - 1], times[|times| - 1];
      RejectionsSpaced(front, limits, now);
      var (s, log) := Rejections(front, limits);
      if s.lockedUntil.None? || s.lockedUntil.value <= now {
        RejectionLogged(s, log, limits.MaxAttempts(), limits.LockTime(), now, now);
      }
    }
  }

  lemma {:induction false} Apart(log: seq<int>, max: nat, lock: nat, i: nat, j: nat)
    requires Spaced(log, max, lock) && max >= 1 && max - 1 <= i <= j < |log|
    ensures log[j] - log[i] >= (j - i) * lock
    decreases j
  {
    if i < j {
      Apart(log, max, lock, i, j - 1);
      assert log[j - 1] + lock <= log[j];
      assert (j - i) * lock == (j - 1 - i) * lock + lock;
    }
  }

  lemma TooFarApart(log: seq<int>, max: nat, lock: nat, length: nat, i: nat, j: nat)
    requires Spaced(log, max, lock) && Ordered(log) && max >= 1 && lock >= 1
    requires i + max + length / lock <= j < |log|
    ensures log[j] > log[i] + length
  {
    var first, n := if i < max - 1 then max - 1 else i, length / lock;
    Apart(log, max, lock, first, j);
    assert log[i] <= log[first];
    assert j - first >= n + 1;
    Multiples(j - first, n + 1, lock, length);
  }

  lemma Multiples(a: nat, b: nat, lock: nat, length: nat)
    requires lock >= 1 && a >= b && b == length / lock + 1
    ensures a * lock > length
  {
    assert length == (length / lock) * lock + length % lock;
    assert b * lock == (length / lock) * lock + lock;
    assert a * lock == b * lock + (a - b) * lock;
  }

  /** `max + floor(length / lock)` */
  function Budget(max: nat, lock: nat, length: nat): nat {
    if lock == 0 then max else max + length / lock
  }

  lemma {:induction false} SpacedBound(log: seq<int>, max: nat, lock: nat, from: int, length: nat)
    requires Spaced(log, max, lock) && Ordered(log) && max >= 1 && lock >= 1
    ensures CountIn(log, from, from + length + 1) <= Budget(max, lock, length)
  {
    var n := Budget(max, lock, length);
    forall i, j | 0 <= i && i + n <= j < |log| && from <= log[i] ensures log[j] > from + length {
      TooFarApart(log, max, lock, length, i, j);
    }
    CountBound(log, from, from + length + 1, n);
  }

  /** From no failures and with no success or reset between, at most `max + floor(length / lock)` wrong
      codes are checked in any closed interval: the count is not cleared when a lock ends. */
  lemma {:induction false} LockoutBound(times: seq<int>, limits: Limits, max: nat, lock: nat, from: int, length: nat)
    requires Ordered(times) && max == limits.MaxAttempts() && lock == limits.LockTime()
    ensures CountIn(Rejections(times, limits).1, from, from + length + 1) <= Budget(max, lock, length)
  {
    RejectionsSpaced(times, limits, if times == [] then 0 else times[|times| - 1]);
    SpacedBound(Rejections(times, limits).1, max, lock, from, length);
  }
}
