/** The interval between polls of a wait. */
module PollRamp {

  const START_MS: nat := 100
  const RAMP_COUNT: nat := 10
  const SETTLE_MS: nat := 1000

  /** Nanoseconds in a millisecond. */
  const MS: nat := 1_000_000

  function Pow2(n: nat): (r: nat)
    ensures r >= 1
  {
    if n == 0 then 1 else 2 * Pow2(n - 1)
  }

  function Min(a: nat, b: nat): nat {
    if a <= b then a else b
  }

  function Max(a: nat, b: nat): nat {
    if a <= b then b else a
  }

  /** The closed form. */
  function Ramp(polls: nat): (ms: nat)
    ensures ms > 0
  {
    if polls < RAMP_COUNT then START_MS else Min(SETTLE_MS, START_MS * Pow2(polls - RAMP_COUNT + 1))
  }

  lemma {:induction false} Pow2Grows(m: nat, n: nat)
    requires m <= n
    ensures 1 <= Pow2(m) <= Pow2(n)
    decreases n
  {
    if m < n {
      Pow2Grows(m, n - 1);
    } else if n > 0 {
      Pow2Grows(m - 1, n - 1);
    }
  }

  /** The doubling loop computes the closed form, stopping early once it has settled. */
  method WaitPollIntervalMs(pollsSoFar: nat) returns (iv: nat)
    ensures iv == Ramp(pollsSoFar)
  {
    if pollsSoFar < RAMP_COUNT { return START_MS; }
    iv := START_MS;
    for i := 0 to pollsSoFar - RAMP_COUNT + 1
      invariant iv == START_MS * Pow2(i) && (i > 0 ==> iv < SETTLE_MS)
    {
      iv := iv * 2;
      if iv >= SETTLE_MS {
        Pow2Grows(i + 1, pollsSoFar - RAMP_COUNT + 1);
        return SETTLE_MS;
      }
    }
  }

  /** Bounded and monotone for every count. */
  lemma RampShape(m: nat, n: nat)
    requires m <= n
    ensures START_MS <= Ramp(m) <= Ramp(n) <= SETTLE_MS
  {
    Pow2Grows(0, if m < RAMP_COUNT then 0 else m - RAMP_COUNT + 1);
    if m >= RAMP_COUNT { Pow2Grows(m - RAMP_COUNT + 1, n - RAMP_COUNT + 1); }
    if n >= RAMP_COUNT { Pow2Grows(0, n - RAMP_COUNT + 1); }
  }

  /** The time the first `n` polling waits ask for; the k-th asks for Ramp(k). */
  function Requested(n: nat): nat {
    if n == 0 then 0 else Requested(n - 1) + Ramp(n)
  }

  lemma {:induction false} RequestedFrom12(n: nat)
    requires n >= 12
    ensures Requested(n) == 2300 + 1000 * (n - 12)
  {
    if n > 12 {
      RequestedFrom12(n - 1);
      Pow2Grows(4, n - RAMP_COUNT + 1);
      assert Pow2(4) == 16;
    } else {
      assert Requested(12) == Requested(9) + Ramp(10) + Ramp(11) + Ramp(12);
      assert Requested(9) == 900 by {
        assert Requested(3) == 300 && Requested(6) == Requested(3) + 300 && Requested(9) == Requested(6) + 300;
      }
      assert Pow2(1) == 2 && Pow2(2) == 4 && Pow2(3) == 8;
    }
  }

  /** How many polling waits can begin within a budget of milliseconds, if each takes the
      whole interval it asked for: the n-th begins when the first n - 1 are over. */
  lemma PollsInBudget(n: nat, budget: nat)
    requires n > 0 && Requested(n - 1) <= budget
    ensures n <= 12 || 1000 * n <= budget + 10700
  {
    if n > 12 { RequestedFrom12(n - 1); }
  }
}
