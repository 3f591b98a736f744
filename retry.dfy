/**
 * The bounded retry of the order controller's `callWithRetry`, stated over
 * the sequence of outcomes its attempts produce.
 */
module Retry {
  import opened Http

  /** The default attempt budget. */
  const DefaultAttempts: nat := 3

  /** `usleep(100000 * n)` after the n-th failed attempt. */
  const DelayStep: nat := 100000

  /** The loop catches RequestException only; other exceptions leave it at once. */
  predicate Retryable<B>(o: Outcome<B>)
  {
    o.Threw? && o.exc.RequestError?
  }

  /** The sleeps taken after the first n failures (each followed by another attempt). */
  function Backoff(n: nat): (d: seq<nat>)
    ensures |d| == n
  {
    if n == 0 then [] else Backoff(n - 1) + [DelayStep * n]
  }

  /** The i-th sleep lasts (i + 1) * 100000 microseconds. */
  lemma {:induction false} BackoffDelays(n: nat)
    ensures forall i :: 0 <= i < n ==> Backoff(n)[i] == DelayStep * (i + 1)
  {
    if n > 0 {
      BackoffDelays(n - 1);
      assert forall i :: 0 <= i < n - 1 ==> Backoff(n)[i] == Backoff(n - 1)[i];
    }
  }

  /**
   * The outcomes of the attempts made by one call: at least one and at most
   * maxAttempts attempts, every attempt but the last threw a RequestException,
   * and the loop stopped either on a non-retryable outcome or at the budget.
   */
  predicate IsRun<B>(attempts: seq<Outcome<B>>, maxAttempts: int)
  {
    1 <= |attempts| <= maxAttempts
    && (forall i :: 0 <= i < |attempts| - 1 ==> Retryable(attempts[i]))
    && (!Retryable(attempts[|attempts| - 1]) || |attempts| == maxAttempts)
  }

  /**
   * The attempts made against an endpoint that would answer the k-th
   * attempt with responses[k].
   */
  function Run<B>(responses: seq<Outcome<B>>, maxAttempts: nat): (attempts: seq<Outcome<B>>)
    requires 1 <= maxAttempts <= |responses|
    ensures IsRun(attempts, maxAttempts)
    ensures attempts == responses[..|attempts|]
  {
    if maxAttempts == 1 || !Retryable(responses[0]) then [responses[0]]
    else
      var rest := Run(responses[1..], maxAttempts - 1);
      assert responses[1..][..|rest|] == responses[1..|rest| + 1];
      [responses[0]] + rest
  }

  /** What the call returns or rethrows: the outcome of its last attempt. */
  function Result<B>(attempts: seq<Outcome<B>>): Outcome<B>
    requires |attempts| >= 1
  {
    attempts[|attempts| - 1]
  }

  /** A run is determined by the responses: it ends at the first non-retryable one within the budget. */
  lemma RunIsUnique<B>(attempts: seq<Outcome<B>>, responses: seq<Outcome<B>>, maxAttempts: nat)
    requires 1 <= maxAttempts <= |responses|
    requires IsRun(attempts, maxAttempts) && attempts == responses[..|attempts|]
    ensures attempts == Run(responses, maxAttempts)
  {
  }

  /** A permanently failing endpoint is tried exactly maxAttempts times and its last exception surfaces. */
  lemma PermanentFailure<B>(responses: seq<Outcome<B>>, maxAttempts: nat)
    requires 1 <= maxAttempts <= |responses|
    requires forall k :: 0 <= k < |responses| ==> Retryable(responses[k])
    ensures |Run(responses, maxAttempts)| == maxAttempts
    ensures Result(Run(responses, maxAttempts)) == responses[maxAttempts - 1]
  {
  }

  /** The first attempt that does not throw a RequestException within the budget is what the call yields. */
  lemma FirstNonRetryableWins<B>(responses: seq<Outcome<B>>, maxAttempts: nat, k: nat)
    requires 1 <= maxAttempts <= |responses| && k < maxAttempts
    requires forall j :: 0 <= j < k ==> Retryable(responses[j])
    requires !Retryable(responses[k])
    ensures |Run(responses, maxAttempts)| == k + 1
    ensures Result(Run(responses, maxAttempts)) == responses[k]
  {
  }

  /** A run of n attempts sleeps n - 1 times, each sleep strictly longer than the one before. */
  lemma BackoffIncreasing(n: nat, i: nat, j: nat)
    requires i < j < n
    ensures Backoff(n)[i] < Backoff(n)[j]
  {
    BackoffDelays(n);
  }
}
