/**
  tunnel.redial: a transport's attempt rerun until cancelled, the wait after it doubling from a second to a minute and
  starting again after an attempt that lasted over a minute. Times are nanoseconds; how long attempt i lasts, and the
  instant the context is cancelled, are the environment's choice.
*/
module Redial {
  const SECOND: nat := 1_000_000_000
  const MINUTE: nat := 60 * SECOND

  function Min(a: nat, b: nat): nat { if a < b then a else b }

  // ----- what the waits are -------------------------------------------------------------------------------------

  /** The backoff before attempt i, as the loop variable carries it. */
  function Backoff(lasts: nat -> nat, i: nat): nat
    decreases i, 0
  {
    if i == 0 then SECOND else Min(2 * Wait(lasts, i - 1), MINUTE)
  }

  /** The wait after attempt i. */
  function Wait(lasts: nat -> nat, i: nat): nat
    decreases i, 1
  {
    if lasts(i) > MINUTE then SECOND else Backoff(lasts, i)
  }

  function Pow2(n: nat): nat { if n == 0 then 1 else 2 * Pow2(n - 1) }

  /** r is the attempt the backoff counts from: the last one up to i that lasted over a minute, or else the first. */
  predicate CountsFrom(lasts: nat -> nat, i: nat, r: nat) {
    && r <= i
    && (r == 0 || lasts(r) > MINUTE)
    && (forall k: nat | r < k <= i :: lasts(k) <= MINUTE)
  }

  lemma {:induction false} CountsFromExists(lasts: nat -> nat, i: nat) returns (r: nat)
    ensures CountsFrom(lasts, i, r)
    ensures forall q: nat :: CountsFrom(lasts, i, q) ==> q == r
  {
    if i == 0 || lasts(i) > MINUTE { return i; }
    r := CountsFromExists(lasts, i - 1);
    forall q: nat | CountsFrom(lasts, i, q) ensures q == r { assert CountsFrom(lasts, i - 1, q); }
  }

  /** The wait after attempt i is min(2^(i-r), 60) seconds. */
  lemma {:induction false} WaitIsPowerOfTwo(lasts: nat -> nat, i: nat, r: nat)
    requires CountsFrom(lasts, i, r)
    ensures Wait(lasts, i) == Min(Pow2(i - r) * SECOND, MINUTE)
  {
    if i > r { WaitIsPowerOfTwo(lasts, i - 1, r); }
  }

  // ----- how long n attempts take -------------------------------------------------------------------------------

  /** n attempts and the waits after them. */
  function Elapsed(lasts: nat -> nat, n: nat): nat {
    if n == 0 then 0 else Elapsed(lasts, n - 1) + lasts(n - 1) + Wait(lasts, n - 1)
  }

  /** What is owed, in seconds, against 18 for each attempt made, when the next backoff is b. */
  function Owed(b: nat): nat {
    if b <= SECOND then 0
    else if b <= 2 * SECOND then 17
    else if b <= 4 * SECOND then 33
    else if b <= 8 * SECOND then 47
    else if b <= 16 * SECOND then 57
    else if b <= 32 * SECOND then 59
    else 45
  }

  /** The backoffs the loop takes. */
  predicate Step(b: nat) {
    b in {SECOND, 2 * SECOND, 4 * SECOND, 8 * SECOND, 16 * SECOND, 32 * SECOND, MINUTE}
  }

  lemma {:induction false} ElapsedAgainstOwed(lasts: nat -> nat, n: nat)
    ensures Step(Backoff(lasts, n))
    ensures Elapsed(lasts, n) + Owed(Backoff(lasts, n)) * SECOND >= 18 * n * SECOND
  {
    if n > 0 { ElapsedAgainstOwed(lasts, n - 1); }
  }

  /** However long each lasts, n attempts with their waits take at least 18n - 59 seconds. */
  lemma AttemptsTakeTime(lasts: nat -> nat, n: nat)
    ensures Elapsed(lasts, n) + 59 * SECOND >= 18 * n * SECOND
  {
    ElapsedAgainstOwed(lasts, n);
  }

  /** Every wait is a second at least and a minute at most. */
  lemma WaitInRange(lasts: nat -> nat, i: nat)
    ensures SECOND <= Wait(lasts, i) <= MINUTE
  {
    ElapsedAgainstOwed(lasts, i);
  }

  // ----- the loop -----------------------------------------------------------------------------------------------

  lemma AttemptAdds(lasts: nat -> nat, i: nat)
    ensures Elapsed(lasts, 0) == 0 && Elapsed(lasts, i + 1) == Elapsed(lasts, i) + lasts(i) + Wait(lasts, i)
    ensures Wait(lasts, i) == if lasts(i) > MINUTE then SECOND else Backoff(lasts, i)
    ensures Backoff(lasts, i + 1) == Min(2 * Wait(lasts, i), MINUTE)
  {
  }

  /** The select after an attempt: its wait, or the cancellation if that comes first. */
  function Select(ended: nat, backoff: nat, cancelled: nat): nat {
    if ended + backoff < cancelled then ended + backoff else if ended < cancelled then cancelled else ended
  }

  /** Each attempt began when the one before and its wait were over, and before the cancellation. */
  predicate Began(lasts: nat -> nat, starts: seq<nat>, cancelled: nat) {
    forall i | 0 <= i < |starts| :: starts[i] == Elapsed(lasts, i) < cancelled
  }

  lemma BeganInTime(lasts: nat -> nat, starts: seq<nat>, cancelled: nat)
    requires Began(lasts, starts, cancelled)
    ensures |starts| * 18 * SECOND < cancelled + 77 * SECOND
  {
    if |starts| > 0 { AttemptsTakeTime(lasts, |starts| - 1); }
  }

  /** redial, with the context cancelled at an instant. starts are the instants the attempts begin. It always returns: an
      attempt begins only before the cancellation, and the loop ends because the next would begin too late. */
  method Redial(lasts: nat -> nat, cancelled: nat) returns (starts: seq<nat>)
    ensures Began(lasts, starts, cancelled) && cancelled <= Elapsed(lasts, |starts|)
    ensures starts != [] ==> starts[0] == 0
    ensures forall i | 0 <= i < |starts| - 1 :: starts[i + 1] == starts[i] + lasts(i) + Wait(lasts, i)
    ensures starts != [] ==>
      var last := |starts| - 1; starts[last] < cancelled <= starts[last] + lasts(last) + Wait(lasts, last)
  {
    starts := [];
    var now, backoff: nat := 0, SECOND;
    assert Backoff(lasts, 0) == SECOND;
    AttemptAdds(lasts, 0);
    hide Elapsed, Wait, Backoff, Min;
    while now < cancelled
      invariant Began(lasts, starts, cancelled) && backoff == Backoff(lasts, |starts|)
      invariant now < cancelled ==> now == Elapsed(lasts, |starts|)
      invariant now >= cancelled ==> cancelled <= Elapsed(lasts, |starts|)
      decreases cancelled - now
    {
      ghost var i := |starts|;
      AttemptAdds(lasts, i);
      WaitInRange(lasts, i);
      var ended := now + lasts(|starts|);
      if lasts(|starts|) > MINUTE { backoff := SECOND; }
      starts := starts + [now];
      now := Select(ended, backoff, cancelled);
      backoff := Min(2 * backoff, MINUTE);
    }
    forall i | 0 <= i < |starts|
      ensures Elapsed(lasts, i + 1) == Elapsed(lasts, i) + lasts(i) + Wait(lasts, i)
    {
      AttemptAdds(lasts, i);
    }
  }
}
