/**
 * The attempt loop shared by `retryWithBackoff` (`lib/checkid.ts`) and
 * `retryGemini` (`lib/gemini.ts`): up to `retries` calls; the first success
 * is returned; an error the caller deems fatal, or the error of the last
 * attempt, is thrown; otherwise the loop waits `delay·2^i` (plus a jitter
 * the caller supplies) and tries again. The i-th call's result is `call(i)`.
 */
module Retry {

  datatype Attempt<T, E> = Succeeded(value: T) | Threw(error: E)

  /** How the loop ends: a value, a thrown error, or `Error('Retry failed')` when no call was made. */
  datatype Outcome<T, E> = Returned(value: T) | Raised(error: E) | RetryFailed

  /** How a run ends, and how many failed calls it retried (one wait after each). */
  datatype Run<T, E> = Run(outcome: Outcome<T, E>, retried: nat)

  function Pow2(k: nat): (p: nat)
    ensures p >= 1
  {
    if k == 0 then 1 else 2 * Pow2(k - 1)
  }

  /** The run from attempt `i` on, when attempts `0..i` failed and were retried. */
  function RunFrom<T, E>(call: nat -> Attempt<T, E>, retries: int, fatal: E -> bool, i: nat): (r: Run<T, E>)
    ensures r.retried >= i
    ensures i < retries ==> r.retried < retries
    ensures forall k :: i <= k < r.retried ==> call(k).Threw? && !fatal(call(k).error)
    ensures r.outcome.RetryFailed? <==> i >= retries
    decreases retries - i
  {
    if i >= retries then Run(RetryFailed, i)
    else match call(i)
      case Succeeded(v) => Run(Returned(v), i)
      case Threw(e) => if fatal(e) || i == retries - 1 then Run(Raised(e), i) else RunFrom(call, retries, fatal, i + 1)
  }

  function RunOf<T, E>(call: nat -> Attempt<T, E>, retries: int, fatal: E -> bool): Run<T, E>
  {
    RunFrom(call, retries, fatal, 0)
  }

  /** The loop: `waits[i]` is the pause after the failed call i. */
  method RetryWithBackoff<T, E>(call: nat -> Attempt<T, E>, retries: int, delay: nat, jitter: nat -> nat, fatal: E -> bool)
    returns (outcome: Outcome<T, E>, waits: seq<nat>)
    ensures outcome == RunOf(call, retries, fatal).outcome
    ensures |waits| == RunOf(call, retries, fatal).retried
    ensures forall i :: 0 <= i < |waits| ==> waits[i] == delay * Pow2(i) + jitter(i)
  {
    waits := [];
    ghost var run := RunOf(call, retries, fatal);
    var i := 0;
    while i < retries
      invariant 0 <= i && (i > 0 ==> i < retries)
      invariant |waits| == i
      invariant forall k :: 0 <= k < i ==> waits[k] == delay * Pow2(k) + jitter(k)
      invariant RunFrom(call, retries, fatal, i) == run
      decreases retries - i
    {
      var attempt := call(i);
      if attempt.Succeeded? {
        assert run == Run(Returned(attempt.value), i);
        return Returned(attempt.value), waits;
      }
      var isLastRetry := i == retries - 1;
      if fatal(attempt.error) || isLastRetry {
        assert run == Run(Raised(attempt.error), i);
        return Raised(attempt.error), waits;
      }
      assert run == RunFrom(call, retries, fatal, i + 1);
      waits := waits + [delay * Pow2(i) + jitter(i)];
      i := i + 1;
    }
    assert run == Run(RetryFailed, i);
    outcome := RetryFailed;
  }

  /** The first success is returned when every earlier failure was retryable. */
  lemma {:induction false} FirstSuccessReturned<T, E>(call: nat -> Attempt<T, E>, retries: int, fatal: E -> bool, j: nat, k: nat)
    requires j <= k < retries && call(k).Succeeded?
    requires forall i :: j <= i < k ==> call(i).Threw? && !fatal(call(i).error)
    ensures RunFrom(call, retries, fatal, j) == Run(Returned(call(k).value), k)
    decreases k - j
  {
    if j < k {
      FirstSuccessReturned(call, retries, fatal, j + 1, k);
    }
  }

  /** A fatal error is thrown at once, with no further call. */
  lemma {:induction false} FatalErrorThrown<T, E>(call: nat -> Attempt<T, E>, retries: int, fatal: E -> bool, j: nat, k: nat)
    requires j <= k < retries && call(k).Threw? && fatal(call(k).error)
    requires forall i :: j <= i < k ==> call(i).Threw? && !fatal(call(i).error)
    ensures RunFrom(call, retries, fatal, j) == Run(Raised(call(k).error), k)
    decreases k - j
  {
    if j < k {
      FatalErrorThrown(call, retries, fatal, j + 1, k);
    }
  }

  /** When every call fails with a retryable error, all `retries` calls are made and the last error is thrown. */
  lemma {:induction false} LastErrorThrown<T, E>(call: nat -> Attempt<T, E>, retries: int, fatal: E -> bool, j: nat)
    requires j < retries
    requires forall i :: j <= i < retries ==> call(i).Threw? && !fatal(call(i).error)
    ensures RunFrom(call, retries, fatal, j) == Run(Raised(call(retries - 1).error), retries - 1)
    decreases retries - j
  {
    if j < retries - 1 {
      LastErrorThrown(call, retries, fatal, j + 1);
    }
  }

  /** A success is returned only if produced by some call, after only retryable failures. */
  lemma ReturnedComesFromACall<T, E>(call: nat -> Attempt<T, E>, retries: int, fatal: E -> bool)
    ensures var r := RunOf(call, retries, fatal);
      r.outcome.Returned? ==> r.retried < retries && call(r.retried) == Succeeded(r.outcome.value)
  {
    ReturnedAt(call, retries, fatal, 0);
  }

  lemma {:induction false} ReturnedAt<T, E>(call: nat -> Attempt<T, E>, retries: int, fatal: E -> bool, i: nat)
    ensures var r := RunFrom(call, retries, fatal, i);
      r.outcome.Returned? ==> r.retried < retries && call(r.retried) == Succeeded(r.outcome.value)
    decreases retries - i
  {
    if i < retries && call(i).Threw? && !fatal(call(i).error) && i != retries - 1 {
      ReturnedAt(call, retries, fatal, i + 1);
    }
  }
}
