/** The retry wrapper every record-store call goes through
    (`MercorAirtableSystem.airtable_request`). The network is an oracle: the
    outcome of attempt `i` is `outcome(i)`. Sleeping is recorded, not done. */
module Retry {

  /** An exception raised by one attempt: a `requests` exception (connection
      error, HTTP error status, ...) is retried, any other escapes at once. */
  datatype Failure = RequestException(message: string) | OtherException(message: string)

  datatype Attempt<T> = Responded(body: T) | Failed(failure: Failure)

  /** How the call ends: the decoded body is returned, an exception
      propagates, or (when `max_retries <= 0`) the loop never runs and the
      function falls off its end, returning None. */
  datatype CallResult<T> = Returned(value: T) | Raised(failure: Failure) | NoneReturned

  /** A log line: a warning announcing a retry after `wait` seconds, or the
      final error. */
  datatype LogEvent = Warning(wait: nat) | Error

  /** What a call did: its result, how many attempts it made, the sleeps in
      order, and the log lines in order. */
  datatype Trace<T> = Trace(result: CallResult<T>, attempts: nat, sleeps: seq<nat>, log: seq<LogEvent>)

  function Pow2(k: nat): (p: nat)
    ensures p >= 1
  {
    if k == 0 then 1 else 2 * Pow2(k - 1)
  }

  /** The sleeps 2^k, 2^(k+1), ..., 2^(k+m-1). */
  function Backoffs(k: nat, m: nat): (s: seq<nat>)
    ensures |s| == m
    ensures forall i :: 0 <= i < m ==> s[i] == Pow2(k + i)
    decreases m
  {
    if m == 0 then [] else [Pow2(k)] + Backoffs(k + 1, m - 1)
  }

  /** The warnings logged before the retries that sleep `waits`. */
  function Warnings(waits: seq<nat>): (log: seq<LogEvent>)
    ensures |log| == |waits|
    ensures forall i :: 0 <= i < |waits| ==> log[i] == Warning(waits[i])
  {
    if waits == [] then [] else [Warning(waits[0])] + Warnings(waits[1..])
  }

  /** The attempts from number `k` on, as the loop `for attempt in
      range(max_retries)` makes them. */
  function RetryFrom<T>(outcome: nat -> Attempt<T>, maxRetries: int, k: nat): Trace<T>
    decreases if k < maxRetries then maxRetries - k else 0
  {
    if k >= maxRetries then Trace(NoneReturned, 0, [], [])
    else match outcome(k)
      case Responded(body) => Trace(Returned(body), 1, [], [])
      case Failed(OtherException(m)) => Trace(Raised(OtherException(m)), 1, [], [])
      case Failed(RequestException(m)) =>
        if k == maxRetries - 1 then Trace(Raised(RequestException(m)), 1, [], [Error])
        else
          var rest := RetryFrom(outcome, maxRetries, k + 1);
          Trace(rest.result, rest.attempts + 1, [Pow2(k)] + rest.sleeps, [Warning(Pow2(k))] + rest.log)
  }

  /** The whole call. */
  function Retry<T>(outcome: nat -> Attempt<T>, maxRetries: int): Trace<T> {
    RetryFrom(outcome, maxRetries, 0)
  }

  /** `airtable_request`: the attempt loop. */
  method AirtableRequest<T>(outcome: nat -> Attempt<T>, maxRetries: int)
    returns (r: CallResult<T>, attempts: nat, sleeps: seq<nat>, log: seq<LogEvent>)
    ensures Trace(r, attempts, sleeps, log) == Retry(outcome, maxRetries)
  {
    sleeps, log := [], [];
    var attempt: nat := 0;
    r := NoneReturned;
    while attempt < maxRetries
      invariant attempt <= maxRetries || attempt == 0
      invariant |sleeps| == attempt && log == Warnings(sleeps)
      invariant
        var t := RetryFrom(outcome, maxRetries, attempt);
        Retry(outcome, maxRetries) == Trace(t.result, attempt + t.attempts, sleeps + t.sleeps, log + t.log)
      decreases maxRetries - attempt
    {
      match outcome(attempt) {
        case Responded(body) =>
          return Returned(body), attempt + 1, sleeps, log;
        case Failed(OtherException(m)) =>
          return Raised(OtherException(m)), attempt + 1, sleeps, log;
        case Failed(RequestException(m)) =>
          if attempt == maxRetries - 1 {
            return Raised(RequestException(m)), attempt + 1, sleeps, log + [Error];
          }
          var wait := Pow2(attempt);
          RetryStep(outcome, maxRetries, attempt, sleeps, log);
          log := log + [Warning(wait)];
          sleeps := sleeps + [wait];
      }
      attempt := attempt + 1;
    }
    attempts := attempt;
  }

  /** A retried attempt moves its sleep and its warning from the rest of
      the trace to what was done so far. */
  lemma RetryStep<T>(outcome: nat -> Attempt<T>, maxRetries: int, k: nat, sleeps: seq<nat>, log: seq<LogEvent>)
    requires k < maxRetries - 1 && outcome(k).Failed? && outcome(k).failure.RequestException?
    requires log == Warnings(sleeps)
    ensures var t := RetryFrom(outcome, maxRetries, k);
            var rest := RetryFrom(outcome, maxRetries, k + 1);
            && t.result == rest.result && t.attempts == rest.attempts + 1
            && sleeps + t.sleeps == (sleeps + [Pow2(k)]) + rest.sleeps
            && log + t.log == (log + [Warning(Pow2(k))]) + rest.log
            && log + [Warning(Pow2(k))] == Warnings(sleeps + [Pow2(k)])
  {
    var rest := RetryFrom(outcome, maxRetries, k + 1);
    assert sleeps + ([Pow2(k)] + rest.sleeps) == (sleeps + [Pow2(k)]) + rest.sleeps;
    assert log + ([Warning(Pow2(k))] + rest.log) == (log + [Warning(Pow2(k))]) + rest.log;
  }

  /** Every attempt from `k` to `n - 1` raises a requests exception. */
  ghost predicate FailsFrom<T>(outcome: nat -> Attempt<T>, k: nat, n: nat) {
    forall i :: k <= i < n ==> outcome(i).Failed? && outcome(i).failure.RequestException?
  }

  lemma {:induction false} PersistentFailureFrom<T>(outcome: nat -> Attempt<T>, n: nat, k: nat)
    requires k < n && FailsFrom(outcome, k, n)
    ensures RetryFrom(outcome, n, k)
      == Trace(Raised(outcome(n - 1).failure), n - k, Backoffs(k, n - 1 - k), Warnings(Backoffs(k, n - 1 - k)) + [Error])
    decreases n - k
  {
    if k < n - 1 {
      PersistentFailureFrom(outcome, n, k + 1);
    }
  }

  /** When every attempt raises a requests exception and `max_retries = n >= 1`:
      exactly n attempts, sleeps 1, 2, ..., 2^(n-2), n - 1 warnings and one
      error, and the last exception re-raised. */
  lemma PersistentFailure<T>(outcome: nat -> Attempt<T>, n: nat)
    requires n >= 1 && FailsFrom(outcome, 0, n)
    ensures var t := Retry(outcome, n);
      && t.result == Raised(outcome(n - 1).failure)
      && t.attempts == n
      && t.sleeps == Backoffs(0, n - 1)
      && t.log == Warnings(Backoffs(0, n - 1)) + [Error]
  {
    PersistentFailureFrom(outcome, n, 0);
  }

  /** The default of three attempts: sleeps of 1 and 2 seconds, two warnings
      and one error. */
  lemma ThreeFailures<T>(outcome: nat -> Attempt<T>)
    requires FailsFrom(outcome, 0, 3)
    ensures Retry(outcome, 3) == Trace(Raised(outcome(2).failure), 3, [1, 2], [Warning(1), Warning(2), Error])
  {
    PersistentFailure(outcome, 3);
    assert Backoffs(0, 2) == [1, 2];
  }

  lemma {:induction false} FirstSuccessFrom<T>(outcome: nat -> Attempt<T>, n: int, k: nat, j: nat)
    requires k <= j < n && FailsFrom(outcome, k, j) && outcome(j).Responded?
    ensures RetryFrom(outcome, n, k)
      == Trace(Returned(outcome(j).body), j - k + 1, Backoffs(k, j - k), Warnings(Backoffs(k, j - k)))
    decreases j - k
  {
    if k < j {
      FirstSuccessFrom(outcome, n, k + 1, j);
    }
  }

  /** When attempt j is the first that does not raise, its body is returned
      after exactly j + 1 attempts and the j sleeps before it; nothing after
      it is attempted. */
  lemma FirstSuccess<T>(outcome: nat -> Attempt<T>, n: int, j: nat)
    requires j < n && FailsFrom(outcome, 0, j) && outcome(j).Responded?
    ensures var t := Retry(outcome, n);
      && t.result == Returned(outcome(j).body)
      && t.attempts == j + 1
      && t.sleeps == Backoffs(0, j)
      && Error !in t.log
  {
    FirstSuccessFrom(outcome, n, 0, j);
  }

  /** An exception that is not a requests exception escapes from the attempt
      that raised it, with no further attempt, sleep or log line. */
  lemma {:induction false} OtherExceptionEscapes<T>(outcome: nat -> Attempt<T>, n: int, j: nat)
    requires j < n && FailsFrom(outcome, 0, j) && outcome(j).Failed? && outcome(j).failure.OtherException?
    ensures var t := Retry(outcome, n);
      && t.result == Raised(outcome(j).failure)
      && t.attempts == j + 1
      && t.sleeps == Backoffs(0, j)
      && Error !in t.log
  {
    OtherEscapesFrom(outcome, n, 0, j);
  }

  lemma {:induction false} OtherEscapesFrom<T>(outcome: nat -> Attempt<T>, n: int, k: nat, j: nat)
    requires k <= j < n && FailsFrom(outcome, k, j) && outcome(j).Failed? && outcome(j).failure.OtherException?
    ensures RetryFrom(outcome, n, k)
      == Trace(Raised(outcome(j).failure), j - k + 1, Backoffs(k, j - k), Warnings(Backoffs(k, j - k)))
    decreases j - k
  {
    if k < j {
      OtherEscapesFrom(outcome, n, k + 1, j);
    }
  }

  /** With `max_retries <= 0` nothing is attempted and the call returns None. */
  lemma NoAttempts<T>(outcome: nat -> Attempt<T>, n: int)
    requires n <= 0
    ensures Retry(outcome, n) == Trace(NoneReturned, 0, [], [])
  {
  }

  /** Whatever the outcomes, a call with `max_retries = n` makes at least one
      and at most n attempts, sleeps once before each retry and logs a warning
      with that wait, and logs one error, as its last line, exactly when the
      last allowed attempt raised a requests exception. */
  lemma {:induction false} AttemptBounds<T>(outcome: nat -> Attempt<T>, n: int, k: nat)
    requires k < n
    ensures var t := RetryFrom(outcome, n, k);
      && 1 <= t.attempts <= n - k
      && |t.sleeps| == t.attempts - 1
      && t.log == Warnings(t.sleeps)
                  + (if t.attempts == n - k && t.result.Raised? && t.result.failure.RequestException? then [Error] else [])
    decreases n - k
  {
    if outcome(k).Failed? && outcome(k).failure.RequestException? && k < n - 1 {
      AttemptBounds(outcome, n, k + 1);
      var t := RetryFrom(outcome, n, k);
      var rest := RetryFrom(outcome, n, k + 1);
      assert Warnings(t.sleeps) == [Warning(Pow2(k))] + Warnings(rest.sleeps);
    }
  }
}
