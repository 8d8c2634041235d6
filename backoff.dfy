/** The `reconnect` loop of test_fetch_pairs.py: up to five attempts, each
    preceded by a wait of `min(2 ** retry_count, 30)` seconds, leaving on the
    first attempt that returns normally or when the stop flag is seen. The
    stop flag and the attempts are inputs: `stopSet(k)` is the flag as read
    at the k-th evaluation of the loop condition, `attemptOk(k)` whether the
    k-th `run_forever()` returned instead of raising. */
module Backoff {

  const MaxRetries: nat := 5
  const MaxWait: nat := 30

  function Pow2(k: nat): (r: nat)
    ensures r >= 1
  {
    if k == 0 then 1 else 2 * Pow2(k - 1)
  }

  /** The wait before attempt `k` (counted from 0). */
  function Wait(k: nat): nat {
    if Pow2(k) <= MaxWait then Pow2(k) else MaxWait
  }

  datatype Ending = Connected | Stopped | GaveUp

  /** The loop, one iteration per attempt. `waits` are the sleeps it performed,
      one per attempt, and `ending` says why it left. */
  method Reconnect(stopSet: nat -> bool, attemptOk: nat -> bool)
    returns (waits: seq<nat>, ending: Ending)
    ensures |waits| <= MaxRetries
    ensures forall k :: 0 <= k < |waits| ==> waits[k] == Wait(k)
    ensures forall k :: 0 <= k < |waits| ==> !stopSet(k)
    ensures forall k :: 0 <= k < |waits| - 1 ==> !attemptOk(k)
    ensures ending == Connected <==> |waits| > 0 && attemptOk(|waits| - 1)
    ensures ending == Stopped ==> stopSet(|waits|)
    ensures ending == GaveUp ==> |waits| == MaxRetries && !stopSet(MaxRetries)
    ensures ending != Connected ==> forall k :: 0 <= k < |waits| ==> !attemptOk(k)
  {
    var retryCount: nat := 0;
    waits := [];
    ending := GaveUp;
    while !stopSet(retryCount) && retryCount < MaxRetries
      invariant retryCount == |waits| <= MaxRetries
      invariant forall k :: 0 <= k < |waits| ==> waits[k] == Wait(k)
      invariant forall k :: 0 <= k < |waits| ==> !stopSet(k) && !attemptOk(k)
      decreases MaxRetries - retryCount
    {
      var waitTime := if Pow2(retryCount) <= MaxWait then Pow2(retryCount) else MaxWait;
      waits := waits + [waitTime];
      if attemptOk(retryCount) {
        ending := Connected;
        return;
      }
      retryCount := retryCount + 1;
    }
    if stopSet(retryCount) {
      ending := Stopped;
    }
  }

  /** With at most five attempts the waits are 1, 2, 4, 8 and 16 seconds: the
      30-second cap is never reached. */
  lemma {:induction false} ScheduleBelowCap(k: nat)
    requires k < MaxRetries
    ensures Wait(k) == Pow2(k) <= 16
  {
    if k > 0 {
      ScheduleBelowCap(k - 1);
    }
  }

  /** From attempt five on, the wait would be the cap. */
  lemma {:induction false} CapReachedFromFive(k: nat)
    requires k >= MaxRetries
    ensures Wait(k) == MaxWait
  {
    if k > MaxRetries {
      CapReachedFromFive(k - 1);
    }
  }

  /** The time slept before attempt `n`, all earlier waits together. */
  function TotalWait(n: nat): nat {
    if n == 0 then 0 else TotalWait(n - 1) + Wait(n - 1)
  }

  /** The first `n` waits add up to 2^n - 1 seconds, so a reconnect that gives
      up has slept 31 seconds in all. */
  lemma {:induction false} TotalWaitBeforeCap(n: nat)
    requires n <= MaxRetries
    ensures TotalWait(n) == Pow2(n) - 1 <= 31
  {
    if n > 0 {
      TotalWaitBeforeCap(n - 1);
      ScheduleBelowCap(n - 1);
    }
  }
}
