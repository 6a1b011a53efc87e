/**
 * The retry policy shared by both copies of `runWithRetries`: how many attempts a check
 * gets, where the attempts stop, and which delays separate them.
 */
module RetryPolicy {
  import opened Wrappers

  /** `max(0, retries ?? 0) + 1`: the number of attempts a check is allowed. */
  function Tries(retries: Option<int>): (n: nat)
    ensures n >= 1
    ensures retries.None? ==> n == 1
    ensures retries.Some? && retries.value >= 0 ==> n == retries.value + 1
    ensures retries.Some? && retries.value < 0 ==> n == 1
  {
    (if retries.Some? && retries.value > 0 then retries.value else 0) + 1
  }

  /** The pause, in milliseconds, after failed attempt `i` (counting from 0) when another one follows. */
  function Backoff(i: nat): nat
  {
    500 * (i + 1)
  }

  /** The pauses taken after the first `n` failed attempts: 500 ms, 1000 ms, 1500 ms, ... */
  function Delays(n: nat): (d: seq<nat>)
    ensures |d| == n
    ensures forall i :: 0 <= i < n ==> d[i] == Backoff(i)
  {
    if n == 0 then [] else Delays(n - 1) + [Backoff(n - 1)]
  }

  /** The total time spent pausing. */
  function Sum(d: seq<nat>): nat
  {
    if |d| == 0 then 0 else Sum(d[..|d| - 1]) + d[|d| - 1]
  }

  /**
   * The number of attempts made from attempt `i` on, when attempt `j` succeeds exactly
   * if `passed(j)`: attempts stop at the first success or after attempt `tries - 1`.
   */
  function AttemptsFrom(passed: nat -> bool, i: nat, tries: nat): (n: nat)
    requires i < tries
    ensures i < n <= tries
    ensures forall j :: i <= j < n - 1 ==> !passed(j)
    ensures passed(n - 1) || n == tries
    decreases tries - i
  {
    if passed(i) || i + 1 == tries then i + 1 else AttemptsFrom(passed, i + 1, tries)
  }

  /** The number of attempts a run with `tries` allowed attempts makes. */
  function AttemptCount(passed: nat -> bool, tries: nat): (n: nat)
    requires tries >= 1
    ensures 1 <= n <= tries
    ensures forall j :: 0 <= j < n - 1 ==> !passed(j)
    ensures passed(n - 1) || n == tries
  {
    AttemptsFrom(passed, 0, tries)
  }

  /**
   * The loop of `runWithRetries`, whatever an attempt returns: attempt `i` yields
   * `attempt(i)`, which is ok exactly when `passed(i)`. It returns the first ok result, or
   * the last one after `tries` attempts, with the number of attempts made and the pauses
   * taken between them.
   */
  method RetryLoop<R>(attempt: nat -> R, passed: nat -> bool, tries: nat) returns (last: R, made: nat, delays: seq<nat>)
    requires tries >= 1
    ensures made == AttemptCount(passed, tries)
    ensures last == attempt(made - 1)
    ensures delays == Delays(made - 1)
  {
    var current: Option<R> := None;
    delays := [];
    var i := 0;
    while i < tries
      invariant 0 <= i <= tries
      invariant forall j :: 0 <= j < i ==> !passed(j)
      invariant current == if i == 0 then None else Some(attempt(i - 1))
      invariant delays == Delays(if i < tries then i else tries - 1)
    {
      current := Some(attempt(i));
      if passed(i) {
        last, made := current.value, i + 1;
        AttemptCountUnique(passed, tries, made);
        return;
      }
      if i < tries - 1 {
        delays := delays + [Backoff(i)];
      }
      i := i + 1;
    }
    last, made := current.value, tries;
    AttemptCountUnique(passed, tries, made);
  }

  /** The attempt count is the only one that stops at the first success or at the last allowed attempt. */
  lemma AttemptCountUnique(passed: nat -> bool, tries: nat, n: nat)
    requires 1 <= n <= tries
    requires forall j :: 0 <= j < n - 1 ==> !passed(j)
    requires passed(n - 1) || n == tries
    ensures AttemptCount(passed, tries) == n
  {
  }

  /** A success at attempt `k`, after only failures, ends the run there. */
  lemma StopsAtFirstSuccess(passed: nat -> bool, tries: nat, k: nat)
    requires k < tries && passed(k)
    requires forall j :: 0 <= j < k ==> !passed(j)
    ensures AttemptCount(passed, tries) == k + 1
  {
    AttemptCountUnique(passed, tries, k + 1);
  }

  /** When no attempt succeeds, all allowed attempts are made. */
  lemma AllAttemptsWhenNoneSucceeds(passed: nat -> bool, tries: nat)
    requires tries >= 1
    requires forall j :: 0 <= j < tries ==> !passed(j)
    ensures AttemptCount(passed, tries) == tries
  {
    var m := AttemptCount(passed, tries);
    assert !passed(m - 1);
  }

  /** A run ends on a failing attempt exactly when every allowed attempt fails. */
  lemma EndsFailedIffAllFail(passed: nat -> bool, tries: nat)
    requires tries >= 1
    ensures !passed(AttemptCount(passed, tries) - 1) <==> forall j :: 0 <= j < tries ==> !passed(j)
  {
    if forall j :: 0 <= j < tries ==> !passed(j) {
      AllAttemptsWhenNoneSucceeds(passed, tries);
    }
  }

  /** The pauses between `n + 1` attempts add up to 250 n (n + 1) milliseconds. */
  lemma {:induction false} TotalDelay(n: nat)
    ensures Sum(Delays(n)) == 250 * n * (n + 1)
  {
    if n > 0 {
      var d := Delays(n);
      TotalDelay(n - 1);
      assert d[..n - 1] == Delays(n - 1);
      assert Sum(d) == 250 * (n - 1) * n + 500 * n;
      assert 250 * (n - 1) * n + 500 * n == 250 * n * (n + 1);
    }
  }

  /** Two retries of an always-failing check: three attempts, with 500 ms then 1000 ms between them. */
  lemma TwoRetriesAlwaysFailing(passed: nat -> bool)
    requires forall j :: !passed(j)
    ensures Tries(Some(2)) == 3
    ensures AttemptCount(passed, 3) == 3
    ensures Delays(AttemptCount(passed, 3) - 1) == [500, 1000]
  {
    AllAttemptsWhenNoneSucceeds(passed, 3);
  }
}
