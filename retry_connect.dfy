/** The connect retry policy of RetryConnectFtpClient.DoInRetryLoop: an attempt
    that fails with a refused connection (socket error 10061) is tried again,
    each attempt taking at least one second, until the time since the first
    attempt passes 30 seconds; every other outcome ends the loop at once.

    The wall clock is an integer count of milliseconds. An attempt is scripted:
    the k-th call of the wrapped function ends with `script(k).outcome` after
    `script(k).duration` milliseconds. Sleeping advances the clock by exactly
    the time asked for, and no time passes between reading the clock twice. */
module RetryConnect {
  import opened Exceptions

  /** The time budget (30.0 seconds) in milliseconds. */
  const TimeoutMs := 30000
  /** The minimum span of one attempt (1.0 second) in milliseconds. */
  const TimePerRequestMs := 1000
  /** WSAECONNREFUSED. */
  const ConnectionRefused := 10061
  /** No run of the loop makes more attempts than this. */
  const MaxAttempts := 32

  datatype Attempt<T> = Attempt(outcome: Result<T>, duration: nat)

  predicate IsRefusal<T>(r: Result<T>) {
    r.Err? && r.error.SocketException? && r.error.errorCode == ConnectionRefused
  }

  /** The clock reading when attempt k starts, given that attempts 0 .. k-1
      were all retried: each of them took its own duration, padded to one second. */
  function StartOf<T>(script: nat -> Attempt<T>, startTime: int, k: nat): int
  {
    if k == 0 then startTime
    else
      var previous := StartOf(script, startTime, k - 1);
      var spent := script(k - 1).duration;
      previous + (if spent < TimePerRequestMs then TimePerRequestMs else spent)
  }

  function EndOf<T>(script: nat -> Attempt<T>, startTime: int, k: nat): int {
    StartOf(script, startTime, k) + script(k).duration
  }

  /** Attempt k is followed by another one: it was refused and ended
      within the budget. */
  predicate Retries<T>(script: nat -> Attempt<T>, startTime: int, k: nat) {
    IsRefusal(script(k).outcome) && EndOf(script, startTime, k) <= startTime + TimeoutMs
  }

  /** Attempts start at least one second apart. */
  lemma {:induction false} StartsSpaced<T>(script: nat -> Attempt<T>, startTime: int, k: nat)
    ensures StartOf(script, startTime, k) >= startTime + TimePerRequestMs * k
  {
    if k > 0 {
      StartsSpaced(script, startTime, k - 1);
    }
  }

  /** Only the first 31 attempts (0 .. 30) can be retried. */
  lemma RetriedEarly<T>(script: nat -> Attempt<T>, startTime: int, k: nat)
    requires Retries(script, startTime, k)
    ensures k <= 30
  {
    StartsSpaced(script, startTime, k);
  }

  /** The index of the attempt that ends the loop, searching from k. */
  function StopFrom<T>(script: nat -> Attempt<T>, startTime: int, k: nat): (n: nat)
    requires k <= MaxAttempts - 1
    ensures k <= n <= MaxAttempts - 1
    ensures !Retries(script, startTime, n)
    ensures forall j :: k <= j < n ==> Retries(script, startTime, j)
    decreases MaxAttempts - 1 - k
  {
    if !Retries(script, startTime, k) then k
    else
      RetriedEarly(script, startTime, k);
      StopFrom(script, startTime, k + 1)
  }

  /** The index of the last attempt the loop makes. */
  function LastAttempt<T>(script: nat -> Attempt<T>, startTime: int): (n: nat)
    ensures n < MaxAttempts
    ensures !Retries(script, startTime, n)
    ensures forall j :: 0 <= j < n ==> Retries(script, startTime, j)
  {
    StopFrom(script, startTime, 0)
  }

  /** What the loop returns or throws. */
  function RetryOutcome<T>(script: nat -> Attempt<T>, startTime: int): Result<T> {
    script(LastAttempt(script, startTime)).outcome
  }

  /** The loop stops at the first attempt that is not retried, so the stopping
      attempt is unique. */
  lemma LastAttemptIsFirstStop<T>(script: nat -> Attempt<T>, startTime: int, n: nat)
    requires !Retries(script, startTime, n)
    requires forall j :: 0 <= j < n ==> Retries(script, startTime, j)
    ensures LastAttempt(script, startTime) == n
  {
  }

  /** Every retried attempt was a refused connection. */
  lemma RetriedWereRefused<T>(script: nat -> Attempt<T>, startTime: int, n: nat)
    requires forall j :: 0 <= j < n ==> Retries(script, startTime, j)
    ensures forall j :: 0 <= j < n ==> IsRefusal(script(j).outcome)
  {
    forall j | 0 <= j < n
      ensures IsRefusal(script(j).outcome)
    {
      assert Retries(script, startTime, j);
    }
  }

  /** An outcome other than a refused connection decides the first attempt:
      a success is returned and any other exception propagates without retry. */
  lemma FirstOutcomeDecides<T>(script: nat -> Attempt<T>, startTime: int)
    requires !IsRefusal(script(0).outcome)
    ensures LastAttempt(script, startTime) == 0
    ensures RetryOutcome(script, startTime) == script(0).outcome
  {
    LastAttemptIsFirstStop(script, startTime, 0);
  }

  /** A refusal reaches the caller only once the budget is spent, and no later
      than one padded attempt plus the final attempt's own duration after it. */
  lemma RefusalAfterBudget<T>(script: nat -> Attempt<T>, startTime: int)
    requires IsRefusal(RetryOutcome(script, startTime))
    ensures EndOf(script, startTime, LastAttempt(script, startTime)) > startTime + TimeoutMs
  {
  }

  /** Every attempt after the first starts no later than one second after the
      budget ends: the attempt before it was retried, so it ended in time. */
  lemma {:induction false} StartWithinBudget<T>(script: nat -> Attempt<T>, startTime: int, k: nat)
    requires 0 < k
    requires Retries(script, startTime, k - 1)
    ensures StartOf(script, startTime, k) <= startTime + TimeoutMs + TimePerRequestMs
  {
    var previous := StartOf(script, startTime, k - 1);
    assert EndOf(script, startTime, k - 1) == previous + script(k - 1).duration;
  }

  /** The loop ends no later than budget + 1 s + the last attempt's duration. */
  lemma FinishBound<T>(script: nat -> Attempt<T>, startTime: int)
    ensures EndOf(script, startTime, LastAttempt(script, startTime))
         <= startTime + TimeoutMs + TimePerRequestMs + script(LastAttempt(script, startTime)).duration
  {
    var n := LastAttempt(script, startTime);
    if n > 0 {
      StartWithinBudget(script, startTime, n);
    }
  }

  /** DoInRetryLoop: runs the scripted attempts until one is not retried, and
      returns that attempt's outcome, the number of attempts and the clock
      reading when the loop ends. */
  method DoInRetryLoop<T>(script: nat -> Attempt<T>, startTime: int)
    returns (r: Result<T>, attempts: nat, finishTime: int)
    ensures 1 <= attempts <= MaxAttempts
    ensures attempts == LastAttempt(script, startTime) + 1
    ensures r == script(attempts - 1).outcome
    ensures forall j :: 0 <= j < attempts - 1 ==> IsRefusal(script(j).outcome)
    ensures !IsRefusal(script(0).outcome) ==> attempts == 1
    ensures IsRefusal(r) ==> finishTime > startTime + TimeoutMs
    ensures finishTime == EndOf(script, startTime, attempts - 1)
  {
    var k: nat := 0;
    var now := startTime;
    while true
      invariant k <= MaxAttempts - 1
      invariant now == StartOf(script, startTime, k)
      invariant forall j :: 0 <= j < k ==> Retries(script, startTime, j)
      decreases MaxAttempts - 1 - k
    {
      var attemptStartTime := now;
      var attempt := script(k);
      now := now + attempt.duration;
      if attempt.outcome.Ok? {
        LastAttemptIsFirstStop(script, startTime, k);
        RetriedWereRefused(script, startTime, k);
        return attempt.outcome, k + 1, now;
      }
      var e := attempt.outcome.error;
      if !e.SocketException? || e.errorCode != ConnectionRefused || now > startTime + TimeoutMs {
        LastAttemptIsFirstStop(script, startTime, k);
        RetriedWereRefused(script, startTime, k);
        return attempt.outcome, k + 1, now;
      }
      assert Retries(script, startTime, k);
      RetriedEarly(script, startTime, k);
      var secondsSinceAttemptStart := now - attemptStartTime;
      if secondsSinceAttemptStart < TimePerRequestMs {
        now := now + (TimePerRequestMs - secondsSinceAttemptStart);
      }
      k := k + 1;
    }
  }
}
