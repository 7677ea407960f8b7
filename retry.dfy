/** `retryWithBackoff` (app/api/aws/cost-explorer.ts): call an asynchronous
    function until it succeeds, fails terminally or runs out of attempts,
    doubling the wait after each retriable failure. The callee is given as
    the outcome of each attempt by number; the waits are recorded instead of
    slept. */
module Retry {
  import opened Wrappers
  import opened JsStrings
  import opened JsErrors

  const DefaultMaxRetries := 3
  const DefaultInitialDelay := 1000
  const UnknownErrorMessage := "Unknown error"
  const MaxRetriesMessage := "Max retries exceeded"

  /** What the catch block keeps: an `Error` as thrown, anything else replaced
      by `new Error("Unknown error")`. */
  function Normalize(e: Thrown): (n: Thrown)
    ensures n.ErrorObject?
    ensures e.ErrorObject? ==> n == e
    ensures e.NonErrorValue? ==> n == PlainError(UnknownErrorMessage)
  {
    if e.ErrorObject? then e else PlainError(UnknownErrorMessage)
  }

  /** The denylist: message fragments of errors that are rethrown at once
      instead of retried. */
  const TerminalMarkers := ["AccessDenied", "InvalidRole", "PermissionDenied"]

  /** Some marker of `markers` occurs in `message`. */
  predicate MentionsAny(message: string, markers: seq<string>) {
    exists k :: 0 <= k < |markers| && Contains(message, markers[k])
  }

  predicate IsTerminal(e: Thrown)
    requires e.ErrorObject?
  {
    MentionsAny(e.message, TerminalMarkers)
  }

  /** An attempt that failed with an error worth retrying. */
  predicate Retriable<T>(o: Settled<T>) {
    o.Rejected? && !IsTerminal(Normalize(o.reason))
  }

  /** `Math.pow(2, n)` for a whole exponent. */
  function Pow2(n: nat): (p: int)
    ensures p >= 1
  {
    if n == 0 then 1 else 2 * Pow2(n - 1)
  }

  /** The waits after the first `n` failed attempts: `initialDelay * 2^i`. */
  function Delays(initialDelay: int, n: nat): (s: seq<int>)
    ensures |s| == n
    ensures forall i :: 0 <= i < n ==> s[i] == initialDelay * Pow2(i)
  {
    seq(n, i requires 0 <= i => initialDelay * Pow2(i))
  }

  lemma DelaysSnoc(initialDelay: int, n: nat)
    ensures Delays(initialDelay, n + 1) == Delays(initialDelay, n) + [initialDelay * Pow2(n)]
  {
  }

  function TotalWait(s: seq<int>): int {
    if s == [] then 0 else TotalWait(s[..|s| - 1]) + s[|s| - 1]
  }

  /** `retryWithBackoff(fn, maxRetries = 3, initialDelay = 1000)`. Attempt `n`
      settles as `fn(n)`; `calls` counts the attempts made and `sleeps` lists
      the waits in order. Every attempt but the last failed retriably; the
      loop stops at the first success or terminal failure, or after
      `maxRetries + 1` attempts, and there is no wait after the final one. */
  method RetryWithBackoff<T>(fn: nat -> Settled<T>, maxRetries: Option<int>, initialDelay: Option<int>)
    returns (r: Result<T, Thrown>, calls: nat, sleeps: seq<int>)
    ensures var max := maxRetries.GetOr(DefaultMaxRetries);
      && calls <= (if max >= 0 then max + 1 else 0)
      && (calls == 0 <==> max < 0)
      && (calls == 0 ==> r == Failure(PlainError(MaxRetriesMessage)))
      && (forall i :: 0 <= i < calls - 1 ==> Retriable(fn(i)))
      && (calls > 0 && fn(calls - 1).Fulfilled? ==> r == Success(fn(calls - 1).value))
      && (calls > 0 && fn(calls - 1).Rejected? ==> r == Failure(Normalize(fn(calls - 1).reason)))
      && (calls > 0 && Retriable(fn(calls - 1)) ==> calls == max + 1)
    ensures sleeps == Delays(initialDelay.GetOr(DefaultInitialDelay), if calls > 0 then calls - 1 else 0)
  {
    var max := maxRetries.GetOr(DefaultMaxRetries);
    var delay := initialDelay.GetOr(DefaultInitialDelay);
    var lastError: Option<Thrown> := None;
    calls := 0;
    sleeps := [];
    var attempt := 0;
    while attempt <= max
      invariant 0 <= attempt && (max >= 0 ==> attempt <= max + 1) && (max < 0 ==> attempt == 0)
      invariant calls == attempt
      invariant forall i :: 0 <= i < attempt ==> Retriable(fn(i))
      invariant attempt == 0 ==> lastError == None
      invariant attempt > 0 ==> lastError == Some(Normalize(fn(attempt - 1).reason))
      invariant sleeps == Delays(delay, if attempt <= max || attempt == 0 then attempt else attempt - 1)
    {
      var outcome := fn(attempt);
      calls := calls + 1;
      if outcome.Fulfilled? {
        r := Success(outcome.value);
        return;
      }
      var error := Normalize(outcome.reason);
      lastError := Some(error);
      if IsTerminal(error) {
        r := Failure(error);
        return;
      }
      if attempt < max {
        sleeps := sleeps + [delay * Pow2(attempt)];
      }
      attempt := attempt + 1;
    }
    r := Failure(if lastError.Some? then lastError.value else PlainError(MaxRetriesMessage));
  }

  /** A thrown non-`Error` value is retried: its replacement message names none
      of the denylisted words. */
  lemma NonErrorIsRetriable<T>()
    ensures Retriable<T>(Rejected(NonErrorValue))
  {
    var m := UnknownErrorMessage;
    assert forall i :: 0 <= i < |m| ==> m[i] != 'A' && m[i] != 'I' && m[i] != 'P';
    forall k | 0 <= k < |TerminalMarkers| ensures !Contains(m, TerminalMarkers[k]) {
      var t := TerminalMarkers[k];
      assert t[0] in {'A', 'I', 'P'};
      NoOccurrence(m, t);
    }
  }

  lemma {:induction false} TotalWaitAppend(s: seq<int>, x: int)
    ensures TotalWait(s + [x]) == TotalWait(s) + x
  {
    assert (s + [x])[..|s|] == s;
  }

  /** The waits form a geometric series: `n` of them add up to
      `initialDelay * (2^n - 1)`. */
  lemma {:induction false} DelaysTotal(initialDelay: int, n: nat)
    ensures TotalWait(Delays(initialDelay, n)) == initialDelay * (Pow2(n) - 1)
  {
    if n > 0 {
      var d, p := initialDelay, Pow2(n - 1);
      DelaysTotal(d, n - 1);
      DelaysSnoc(d, n - 1);
      TotalWaitAppend(Delays(d, n - 1), d * p);
      assert Pow2(n) == 2 * p;
      assert d * (p - 1) + d * p == d * (2 * p - 1);
    }
  }
}
