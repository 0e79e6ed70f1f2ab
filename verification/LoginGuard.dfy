/** The throttle in front of the admin login's password derivation. Times are in seconds. */
module LoginGuard {
  import opened Prelude

  const MAX_FAILURES := 5
  const BASE_LOCKOUT := 60
  const MAX_LOCKOUT := 900

  /** `blockedUntil` is None for the zero time. */
  datatype Guard = Guard(failures: nat, lockout: int, blockedUntil: Option<int>)

  const CLEARED := Guard(0, 0, None)

  predicate Allowed(g: Guard, now: int) {
    g.blockedUntil.None? || g.blockedUntil.value <= now
  }

  function NextLockout(lockout: int): int {
    if lockout == 0 then BASE_LOCKOUT
    else if lockout * 2 <= MAX_LOCKOUT then lockout * 2
    else MAX_LOCKOUT
  }

  function AfterFailure(g: Guard, now: int): Guard {
    if g.failures + 1 < MAX_FAILURES then g.(failures := g.failures + 1)
    else Guard(0, NextLockout(g.lockout), Some(now + NextLockout(g.lockout)))
  }

  class Login {
    var failures: nat
    var lockout: int
    var blockedUntil: Option<int>

    function View(): Guard
      reads this
    {
      Guard(failures, lockout, blockedUntil)
    }

    constructor ()
      ensures View() == CLEARED
    {
      failures, lockout, blockedUntil := 0, 0, None;
    }

    method Allow(now: int) returns (ok: bool, retryAfter: int)
      ensures ok == Allowed(View(), now)
      ensures if ok then retryAfter == 0 else retryAfter > 0 && Some(now + retryAfter) == blockedUntil
    {
      if blockedUntil.Some? && now < blockedUntil.value {
        return false, blockedUntil.value - now;
      }
      return true, 0;
    }

    method Failed(now: int) returns (started: int)
      modifies this
      ensures View() == AfterFailure(old(View()), now)
      ensures started == if old(failures) + 1 < MAX_FAILURES then 0 else lockout
    {
      failures := failures + 1;
      if failures < MAX_FAILURES {
        return 0;
      }
      if lockout == 0 {
        lockout := BASE_LOCKOUT;
      } else if lockout * 2 <= MAX_LOCKOUT {
        lockout := lockout * 2;
      } else {
        lockout := MAX_LOCKOUT;
      }
      blockedUntil := Some(now + lockout);
      failures := 0;
      return lockout;
    }

    method Succeeded()
      modifies this
      ensures View() == CLEARED
    {
      failures, lockout, blockedUntil := 0, 0, None;
    }
  }

  // ── Which lockout comes when ─────────────────────────────────────────────────

  function Pow2(n: nat): nat {
    if n == 0 then 1 else 2 * Pow2(n - 1)
  }

  /** The k-th lockout since the last success: min(2^(k-1), 15) minutes. */
  function LockoutOf(k: nat): int
    requires k > 0
  {
    60 * if Pow2(k - 1) < 15 then Pow2(k - 1) else 15
  }

  function FailedAt(g: Guard, times: seq<int>): Guard {
    if times == [] then g else AfterFailure(FailedAt(g, times[..|times| - 1]), times[|times| - 1])
  }

  lemma {:induction false} Pow2Grows(n: nat)
    ensures Pow2(n) >= n + 1
  {
    if n > 0 { Pow2Grows(n - 1); }
  }

  lemma LockoutDoubles(k: nat)
    ensures NextLockout(if k == 0 then 0 else LockoutOf(k)) == LockoutOf(k + 1)
  {
    if k >= 1 { assert Pow2(k) == 2 * Pow2(k - 1); }
    assert Pow2(3) == 8 && Pow2(4) == 16 by { assert Pow2(0) == 1 && Pow2(1) == 2 && Pow2(2) == 4; }
    if k <= 4 {
      assert k == 0 || k == 1 || k == 2 || k == 3 || k == 4;
    } else {
      Pow2AtLeast16(k - 1);
    }
  }

  lemma {:induction false} Pow2AtLeast16(n: nat)
    requires n >= 4
    ensures Pow2(n) >= 16
  {
    if n > 4 { Pow2AtLeast16(n - 1); } else { assert Pow2(4) == 2 * Pow2(3) == 4 * Pow2(2) == 8 * Pow2(1); }
  }

  /** Whatever their times and however the checks of other attempts interleave, the n-th failure since the
      last success leaves n % 5 on the counter, and every fifth starts the next lockout. */
  lemma {:induction false} FailuresDecideLockouts(times: seq<int>)
    ensures var g, n := FailedAt(CLEARED, times), |times|;
            && g.failures == n % 5
            && g.lockout == (if n < 5 then 0 else LockoutOf(n / 5))
            && (n > 0 && n % 5 == 0 ==> g.blockedUntil == Some(times[n - 1] + LockoutOf(n / 5)))
  {
    if times != [] {
      var n := |times|;
      FailuresDecideLockouts(times[..n - 1]);
      LockoutDoubles((n - 1) / MAX_FAILURES);
    }
  }

  // ── Sequential attempts ──────────────────────────────────────────────────────

  /** `Unavailable` is a database error before the password is looked at. */
  datatype Outcome = Wrong | Right | Unavailable

  /** A login request arriving at `at` whose password check, if it gets that far, takes `took`. */
  datatype Attempt = Attempt(at: int, took: nat, outcome: Outcome)

  function Attempted(g: Guard, a: Attempt): Guard {
    if !Allowed(g, a.at) then g
    else match a.outcome
      case Wrong => AfterFailure(g, a.at + a.took)
      case Right => CLEARED
      case Unavailable => g
  }

  function Run(g: Guard, attempts: seq<Attempt>): Guard {
    if attempts == [] then g else Attempted(Run(g, attempts[..|attempts| - 1]), attempts[|attempts| - 1])
  }

  /** When the password derivations of a run began. */
  function Derivations(g: Guard, attempts: seq<Attempt>): seq<int> {
    if attempts == [] then []
    else
      var before, a := attempts[..|attempts| - 1], attempts[|attempts| - 1];
      Derivations(g, before)
      + if Allowed(Run(g, before), a.at) && !a.outcome.Unavailable? then [a.at] else []
  }

  function SumOfLockouts(k: nat): int {
    if k == 0 then 0 else SumOfLockouts(k - 1) + LockoutOf(k)
  }

  /** Derivation number n (counting from 0) starts no earlier than the first plus the lockouts of all the
      n / 5 full allowances before it. */
  predicate Paced(d: seq<int>) {
    forall n :: 0 <= n < |d| ==> d[n] >= d[0] + SumOfLockouts(n / 5)
  }

  /** The guard after failures whose derivations began at the times `d`. */
  predicate Holding(g: Guard, d: seq<int>) {
    var k := |d| / MAX_FAILURES;
    && g.failures == |d| % MAX_FAILURES
    && g.lockout == (if k == 0 then 0 else LockoutOf(k))
    && (if k == 0 then g.blockedUntil == None
        else g.blockedUntil.Some? && g.blockedUntil.value >= d[0] + SumOfLockouts(k))
  }

  lemma NextIsPaced(g: Guard, d: seq<int>, at: int)
    requires Paced(d) && Holding(g, d) && Allowed(g, at) && (d != [] ==> d[0] <= at)
    ensures Paced(d + [at])
  {
    assert SumOfLockouts(0) == 0;
  }

  lemma FailureHolds(g: Guard, d: seq<int>, at: int, took: nat)
    requires Paced(d + [at]) && Holding(g, d)
    ensures Holding(AfterFailure(g, at + took), d + [at])
  {
    var n := |d|;
    assert (d + [at])[n] == at && (d + [at])[0] == if d == [] then at else d[0];
    LockoutDoubles(n / MAX_FAILURES);
    if g.failures + 1 == MAX_FAILURES {
      assert (n + 1) / MAX_FAILURES == n / MAX_FAILURES + 1;
    } else {
      assert (n + 1) / MAX_FAILURES == n / MAX_FAILURES;
    }
  }

  /** A guesser who never succeeds is slowed down: derivation number 5k waits out the first k lockouts. */
  lemma {:induction false} GuessingIsSlow(attempts: seq<Attempt>)
    requires forall i :: 0 <= i < |attempts| ==> !attempts[i].outcome.Right?
    requires forall i, j :: 0 <= i < j < |attempts| ==> attempts[i].at <= attempts[j].at
    ensures Paced(Derivations(CLEARED, attempts))
    ensures Holding(Run(CLEARED, attempts), Derivations(CLEARED, attempts))
    ensures var d := Derivations(CLEARED, attempts);
            d != [] ==> d[0] <= attempts[|attempts| - 1].at
  {
    if attempts != [] {
      var before, a := attempts[..|attempts| - 1], attempts[|attempts| - 1];
      GuessingIsSlow(before);
      var g, d := Run(CLEARED, before), Derivations(CLEARED, before);
      if Allowed(g, a.at) && a.outcome.Wrong? {
        NextIsPaced(g, d, a.at);
        FailureHolds(g, d, a.at, a.took);
      }
    }
  }

  /** One minute, two, four, eight, then fifteen each. */
  lemma {:induction false} LockoutsAddUp(k: nat)
    ensures SumOfLockouts(k) == if k <= 4 then 60 * (Pow2(k) - 1) else 900 * (k - 3)
    ensures k <= 4 ==> Pow2(k) == [1, 2, 4, 8, 16][k]
  {
    if k > 0 {
      LockoutsAddUp(k - 1);
      if k > 4 { Pow2AtLeast16(k - 1); }
    }
  }

  /** So guesses number 5, 10, 15, 20 and 25 (from 0) come no earlier than 1, 3, 7, 15 and 30 minutes after the
      first, and from then on every five cost a quarter of an hour. */
  lemma GuessesTakeTime(attempts: seq<Attempt>, k: nat)
    requires forall i :: 0 <= i < |attempts| ==> !attempts[i].outcome.Right?
    requires forall i, j :: 0 <= i < j < |attempts| ==> attempts[i].at <= attempts[j].at
    requires 5 * k < |Derivations(CLEARED, attempts)|
    ensures var d := Derivations(CLEARED, attempts);
            d[5 * k] >= d[0] + if k == 0 then 0 else if k == 1 then 60 else if k == 2 then 180 else if k == 3 then 420
                               else 900 * (k - 3)
  {
    GuessingIsSlow(attempts);
    LockoutsAddUp(k);
    assert 5 * k / 5 == k;
  }

  /** After a successful login the guard is as if nothing had ever happened. */
  lemma {:induction false} SuccessForgets(before: seq<Attempt>, a: Attempt, after: seq<Attempt>)
    requires a.outcome.Right? && Allowed(Run(CLEARED, before), a.at)
    ensures Run(CLEARED, before + [a] + after) == Run(CLEARED, after)
    decreases |after|
  {
    if after == [] {
      assert before + [a] + after == before + [a];
      assert (before + [a])[..|before|] == before;
    } else {
      var all := before + [a] + after;
      assert all[..|all| - 1] == before + [a] + after[..|after| - 1];
      SuccessForgets(before, a, after[..|after| - 1]);
    }
  }
}
