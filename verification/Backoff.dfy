/** Reconnect delays of the subscription loop. */
module Backoff {

  const INITIAL_BACKOFF: nat := 1
  const MAX_BACKOFF: nat := 30

  /** The delay that follows a sleep of `seconds`. */
  function NextBackoff(seconds: nat): nat {
    if seconds * 2 < MAX_BACKOFF then seconds * 2 else MAX_BACKOFF
  }

  function Pow2(k: nat): (p: nat)
    ensures p >= 1
  {
    if k == 0 then 1 else 2 * Pow2(k - 1)
  }

  /** The delay after `k` consecutive failures, in closed form. */
  function Delay(k: nat): nat {
    if Pow2(k) < MAX_BACKOFF then Pow2(k) else MAX_BACKOFF
  }

  /** Total sleep over `n` consecutive failures, in closed form. */
  function TotalSleep(n: nat): nat {
    if n <= 5 then Pow2(n) - 1 else 31 + 30 * (n - 5)
  }

  lemma {:induction false} Pow2AtLeast32(k: nat)
    requires k >= 5
    ensures Pow2(k) >= 32
  {
    if k > 5 {
      Pow2AtLeast32(k - 1);
    } else {
      assert Pow2(5) == 32;
    }
  }

  /** One more failure moves both closed forms the way the loop moves its variables. */
  lemma DelayStep(k: nat)
    ensures NextBackoff(Delay(k)) == Delay(k + 1)
    ensures TotalSleep(k) + Delay(k) == TotalSleep(k + 1)
  {
    if k >= 5 {
      Pow2AtLeast32(k);
      Pow2AtLeast32(k + 1);
    } else {
      assert k == 0 || k == 1 || k == 2 || k == 3 || k == 4;
      assert Pow2(5) == 32;
    }
  }

  datatype Attempt = Subscribed | Failed

  /** Failures at the end of `attempts` with no successful subscription after them. */
  function TrailingFailures(attempts: seq<Attempt>): nat {
    if attempts == [] || attempts[|attempts| - 1] == Subscribed then 0
    else 1 + TrailingFailures(attempts[..|attempts| - 1])
  }

  /** The control skeleton of the loop: what it sleeps after each attempt (0 after a success). */
  method Sleeps(attempts: seq<Attempt>) returns (sleeps: seq<nat>)
    ensures |sleeps| == |attempts|
    ensures forall i :: 0 <= i < |attempts| ==>
      sleeps[i] == if attempts[i] == Subscribed then 0 else Delay(TrailingFailures(attempts[..i]))
  {
    var backoffSeconds := INITIAL_BACKOFF;
    sleeps := [];
    for i := 0 to |attempts|
      invariant |sleeps| == i
      invariant backoffSeconds == Delay(TrailingFailures(attempts[..i]))
      invariant forall j :: 0 <= j < i ==>
        sleeps[j] == if attempts[j] == Subscribed then 0 else Delay(TrailingFailures(attempts[..j]))
    {
      assert attempts[..i + 1][..i] == attempts[..i];
      if attempts[i] == Subscribed {
        backoffSeconds := INITIAL_BACKOFF;
        sleeps := sleeps + [0];
      } else {
        sleeps := sleeps + [backoffSeconds];
        DelayStep(TrailingFailures(attempts[..i]));
        backoffSeconds := NextBackoff(backoffSeconds);
      }
    }
  }
}
