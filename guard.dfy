/** SafeExecute: every backend operation runs under one process-wide lock; when Telegram
    answers with a flood wait the operation sleeps and runs again from the start; every
    other exception, the UserInformation ones included, propagates after one run. */
module Guard {
  import opened Wrappers
  import opened Errors

  /** What one run of the guarded operation does: return a value or throw. */
  datatype Attempt<T> = Returned(value: T) | Raised(error: Error)

  /** The extra seconds drawn by Random.Next(2, 15). */
  type Jitter = x: int | 2 <= x < 15 witness 2

  /** The end of a guarded call: its result, how many runs it took, how long it slept. */
  datatype Run<T> = Run(result: Result<T, Error>, runs: nat, slept: nat)

  predicate IsFlood<T>(a: Attempt<T>)
  {
    a.Raised? && a.error.Flood?
  }

  /** The sleep after a flood wait: the wait the server asked for, plus the random extra
      seconds in the variant for operations without a result. */
  function Pause(wait: nat, extra: Jitter, withJitter: bool): nat
  {
    if withJitter then wait + extra else wait
  }

  /** SafeExecute from run `k` on, where attempts[k] is what the k-th run does and jitter(k)
      the number drawn after it. Running out of attempts stands for retrying without end. */
  function Guarded<T>(attempts: seq<Attempt<T>>, jitter: nat -> Jitter, withJitter: bool, k: nat): (g: Run<T>)
    requires k <= |attempts|
    ensures k < |attempts| ==> 1 <= g.runs <= |attempts| - k
    ensures g.result.Failure? ==> !g.result.error.Flood?
    decreases |attempts| - k
  {
    if k == |attempts| then Run(Failure(Unfinished), 0, 0)
    else
      match attempts[k]
      case Returned(v) => Run(Success(v), 1, 0)
      case Raised(e) =>
        if e.Flood? then
          var rest := Guarded(attempts, jitter, withJitter, k + 1);
          Run(rest.result, rest.runs + 1, Pause(e.seconds, jitter(k), withJitter) + rest.slept)
        else Run(Failure(e), 1, 0)
  }

  /** The number of flood waits in a row from run `k` on. */
  function Floods<T>(attempts: seq<Attempt<T>>, k: nat): (n: nat)
    requires k <= |attempts|
    ensures k + n <= |attempts|
    ensures forall i :: k <= i < k + n ==> IsFlood(attempts[i])
    ensures k + n < |attempts| ==> !IsFlood(attempts[k + n])
    decreases |attempts| - k
  {
    if k == |attempts| || !IsFlood(attempts[k]) then 0 else 1 + Floods(attempts, k + 1)
  }

  /** The seconds the server asked to wait in runs k .. k + n - 1. */
  function Waits<T>(attempts: seq<Attempt<T>>, k: nat, n: nat): nat
    requires k + n <= |attempts|
    decreases n
  {
    if n == 0 then 0
    else (if IsFlood(attempts[k]) then attempts[k].error.seconds else 0) + Waits(attempts, k + 1, n - 1)
  }

  /** The value or exception of a run that is not a flood wait. */
  function Settle<T>(a: Attempt<T>): Result<T, Error>
  {
    match a
    case Returned(v) => Success(v)
    case Raised(e) => Failure(e)
  }

  /** A guarded call retries through the flood waits and ends with the first run that is not
      one: its value or exception, after one run more than the waits. It sleeps the waits the
      server asked for, plus between 2 and 14 seconds for each of them in the variant that
      adds them. */
  lemma {:induction false} GuardedSettles<T>(attempts: seq<Attempt<T>>, jitter: nat -> Jitter, withJitter: bool, k: nat)
    requires k <= |attempts|
    ensures var n := Floods(attempts, k);
            var g := Guarded(attempts, jitter, withJitter, k);
            (k + n == |attempts| ==> g.result == Failure(Unfinished) && g.runs == n)
            && (k + n < |attempts| ==> g.result == Settle(attempts[k + n]) && g.runs == n + 1)
            && (withJitter ==> Waits(attempts, k, n) + 2 * n <= g.slept <= Waits(attempts, k, n) + 14 * n)
            && (!withJitter ==> g.slept == Waits(attempts, k, n))
    decreases |attempts| - k
  {
    if k < |attempts| && IsFlood(attempts[k]) {
      GuardedSettles(attempts, jitter, withJitter, k + 1);
    }
  }

  /** A UserInformation exception is rethrown as it is, after one run and without sleeping. */
  lemma GuardRethrowsUserInformation<T>(attempts: seq<Attempt<T>>, jitter: nat -> Jitter, withJitter: bool, e: Error)
    requires |attempts| > 0 && attempts[0] == Raised(e) && IsUserInformation(e)
    ensures Guarded(attempts, jitter, withJitter, 0) == Run(Failure(e), 1, 0)
  {
  }

  /** The retry loop shared by both variants of SafeExecute. */
  method Retry<T>(attempts: seq<Attempt<T>>, jitter: nat -> Jitter, withJitter: bool) returns (r: Result<T, Error>, runs: nat, slept: nat)
    ensures Run(r, runs, slept) == Guarded(attempts, jitter, withJitter, 0)
  {
    runs := 0;
    slept := 0;
    while runs < |attempts|
      invariant runs <= |attempts|
      invariant var g := Guarded(attempts, jitter, withJitter, runs);
                Guarded(attempts, jitter, withJitter, 0) == Run(g.result, g.runs + runs, g.slept + slept)
      decreases |attempts| - runs
    {
      match attempts[runs] {
        case Returned(v) =>
          return Success(v), runs + 1, slept;
        case Raised(e) =>
          if !e.Flood? {
            return Failure(e), runs + 1, slept;
          }
          slept := slept + Pause(e.seconds, jitter(runs), withJitter);
          runs := runs + 1;
      }
    }
    r := Failure(Unfinished);
  }

  /** After `k` runs that all met a flood wait and slept `slept` seconds together, what is
      left of the guarded call is the guarded call from run `k` on. */
  ghost predicate Waited<T>(attempts: seq<Attempt<T>>, jitter: nat -> Jitter, withJitter: bool, k: nat, slept: nat)
    requires k <= |attempts|
  {
    var g := Guarded(attempts, jitter, withJitter, k);
    Guarded(attempts, jitter, withJitter, 0) == Run(g.result, g.runs + k, g.slept + slept)
  }

  /** A flood wait in run `k` adds its pause and moves on to run k + 1. */
  lemma WaitedStep<T>(attempts: seq<Attempt<T>>, jitter: nat -> Jitter, withJitter: bool, k: nat, slept: nat)
    requires k < |attempts| && Waited(attempts, jitter, withJitter, k, slept) && IsFlood(attempts[k])
    ensures Waited(attempts, jitter, withJitter, k + 1, slept + Pause(attempts[k].error.seconds, jitter(k), withJitter))
  {
  }

  /** Any other end of run `k` ends the guarded call there. */
  lemma WaitedStop<T>(attempts: seq<Attempt<T>>, jitter: nat -> Jitter, withJitter: bool, k: nat, slept: nat)
    requires k < |attempts| && Waited(attempts, jitter, withJitter, k, slept) && !IsFlood(attempts[k])
    ensures Guarded(attempts, jitter, withJitter, 0) == Run(Settle(attempts[k]), k + 1, slept)
  {
  }

  /** Flood waits in every run leave the guarded call unfinished. */
  lemma WaitedEnd<T>(attempts: seq<Attempt<T>>, jitter: nat -> Jitter, withJitter: bool, slept: nat)
    requires Waited(attempts, jitter, withJitter, |attempts|, slept)
    ensures Guarded(attempts, jitter, withJitter, 0) == Run(Failure(Unfinished), |attempts|, slept)
  {
  }

  /** The run of an action that returns nothing, as an attempt. */
  function AttemptOf(o: Outcome<Error>): Attempt<()>
  {
    match o
    case Pass => Returned(())
    case Fail(e) => Raised(e)
  }

  /** The end of a guarded action that returns nothing. */
  function OutcomeOf(r: Result<(), Error>): Outcome<Error>
  {
    match r
    case Success(_) => Pass
    case Failure(e) => Fail(e)
  }

  /** SafeExecute(Action): after a flood wait it sleeps the wait plus the random seconds. */
  method SafeExecute(attempts: seq<Attempt<()>>, jitter: nat -> Jitter) returns (r: Outcome<Error>, runs: nat, slept: nat)
    ensures var g := Guarded(attempts, jitter, true, 0);
            runs == g.runs && slept == g.slept && r == OutcomeOf(g.result)
  {
    var res;
    res, runs, slept := Retry(attempts, jitter, true);
    r := OutcomeOf(res);
  }

  /** SafeExecute(Func): after a flood wait it sleeps only the wait; the random seconds are
      drawn and logged but not slept. */
  method SafeExecuteValue<T>(attempts: seq<Attempt<T>>, jitter: nat -> Jitter) returns (r: Result<T, Error>, runs: nat, slept: nat)
    ensures Run(r, runs, slept) == Guarded(attempts, jitter, false, 0)
  {
    r, runs, slept := Retry(attempts, jitter, false);
  }
}
