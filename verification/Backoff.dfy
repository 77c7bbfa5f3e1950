/** `backoffFor` in 64-bit arithmetic, its closed form, and the total time a
    delivery spends waiting between attempts. */
module Backoff {

  /** Go's time.Duration: a signed 64-bit count. Dafny checks that no
      operation on it leaves the range. */
  newtype Duration = x: int | -0x8000_0000_0000_0000 <= x <= 0x7fff_ffff_ffff_ffff

  function Pow2(n: nat): (p: nat)
    ensures p >= 1
  {
    if n == 0 then 1 else 2 * Pow2(n - 1)
  }

  /** `base` doubled `n` times: base * 2^n, see DoubledIsPower. */
  function Doubled(base: int, n: nat): int {
    if n == 0 then base else 2 * Doubled(base, n - 1)
  }

  lemma {:induction false} DoubledIsPower(base: int, n: nat)
    ensures Doubled(base, n) == base * Pow2(n)
  {
    if n > 0 {
      DoubledIsPower(base, n - 1);
      assert base * Pow2(n) == 2 * (base * Pow2(n - 1));
    }
  }

  function Min(a: int, b: int): int {
    if a <= b then a else b
  }

  /** The wait the design asks for before retry `attempt` (counted from zero):
      base * 2^attempt, cut off at the cap. */
  function Scheduled(attempt: int, base: Duration, max: Duration): int {
    if base <= 0 then 0
    else
      var cap := if max <= 0 then base else max;
      Min(cap as int, Doubled(base as int, if attempt < 0 then 0 else attempt))
  }

  /** In every case: nothing for a base that is not positive, otherwise base * 2^n
      cut off at the maximum, or at the base itself if no maximum is set. */
  lemma ScheduledIsPower(attempt: int, base: Duration, max: Duration)
    ensures base <= 0 ==> Scheduled(attempt, base, max) == 0
    ensures base > 0 && max <= 0 ==> Scheduled(attempt, base, max) == base as int
    ensures base > 0 && max > 0 ==>
      Scheduled(attempt, base, max) == Min(max as int, base as int * Pow2(if attempt < 0 then 0 else attempt))
  {
    var n := if attempt < 0 then 0 else attempt;
    DoubledIsPower(base as int, n);
    if base > 0 {
      DoubledMonotone(base as int, 0, n);
    }
  }

  lemma {:induction false} DoubledMonotone(base: nat, m: nat, n: nat)
    requires m <= n
    ensures base <= Doubled(base, m) <= Doubled(base, n)
    decreases n
  {
    if m < n {
      DoubledMonotone(base, m, n - 1);
    } else if m > 0 {
      DoubledMonotone(base, m - 1, n - 1);
    }
  }

  /** The doubling loop. `Duration` arithmetic is checked, so its verification
      is also the proof that `d` never overflows. */
  method BackoffFor(attempt: int, base: Duration, max: Duration) returns (d: Duration)
    ensures d as int == Scheduled(attempt, base, max)
  {
    if base <= 0 {
      return 0;
    }
    var cap := max;
    if cap <= 0 {
      cap := base;
    }
    d := base;
    var i := 0;
    while i < attempt
      invariant 0 <= i && (i <= attempt || i == 0)
      invariant d as int == Doubled(base as int, i)
      invariant d > 0
      invariant i > 0 ==> d <= cap
    {
      if d > cap / 2 {
        DoubledMonotone(base as int, i + 1, attempt);
        return cap;
      }
      d := d * 2;
      i := i + 1;
    }
    if d > cap {
      return cap;
    }
  }

  lemma ScheduledMonotone(m: int, n: int, base: Duration, max: Duration)
    requires m <= n
    ensures 0 <= Scheduled(m, base, max) <= Scheduled(n, base, max)
  {
    if base > 0 {
      DoubledMonotone(base as int, if m < 0 then 0 else m, if n < 0 then 0 else n);
    }
  }

  /** The waits before retries 0 .. k-1 together. */
  function TotalWait(k: nat, base: Duration, max: Duration): int {
    if k == 0 then 0 else TotalWait(k - 1, base, max) + Scheduled(k - 1, base, max)
  }

  /** Waiting before `k` retries takes at most `k` times the cap. */
  lemma {:induction false} TotalWaitCap(k: nat, base: Duration, max: Duration)
    requires base > 0 && max > 0
    ensures TotalWait(k, base, max) <= k * max as int
  {
    if k > 0 {
      TotalWaitCap(k - 1, base, max);
      assert k * max as int == (k - 1) * max as int + max as int;
    }
  }

  /** It takes base * (2^k - 1) exactly when the last wait is not cut off by the
      cap, and less otherwise. */
  lemma TotalWaitGeometric(k: nat, base: Duration, max: Duration)
    requires base > 0 && max > 0
    ensures TotalWait(k, base, max) <= base as int * (Pow2(k) - 1)
    ensures TotalWait(k, base, max) == base as int * (Pow2(k) - 1)
            <==> k == 0 || base as int * Pow2(k - 1) <= max as int
  {
    TotalWaitDoubled(k, base, max);
    DoubledIsPower(base as int, k);
    if k > 0 {
      DoubledIsPower(base as int, k - 1);
    }
  }

  lemma {:induction false} TotalWaitDoubled(k: nat, base: Duration, max: Duration)
    requires base > 0 && max > 0
    ensures TotalWait(k, base, max) <= Doubled(base as int, k) - base as int
    ensures TotalWait(k, base, max) == Doubled(base as int, k) - base as int
            <==> k == 0 || Doubled(base as int, k - 1) <= max as int
  {
    if k > 0 {
      TotalWaitDoubled(k - 1, base, max);
      if k > 1 {
        DoubledMonotone(base as int, k - 2, k - 1);
      }
    }
  }
}
