/** Doubling delays in 64-bit arithmetic, and the retry loop that uses one. */
module Backoff {
  import opened Common
  import opened Words

  const SECOND := 1_000_000_000

  function Pow2(n: nat): nat { if n == 0 then 1 else 2 * Pow2(n - 1) }

  /** Doubles a base delay `attempt` times, as retries and the worker clock do. */
  method Delay(base: int, attempt: int) returns (d: int)
    requires Is64(base)
    ensures d == Wrap(base * Pow2(if attempt < 0 then 0 else attempt))
  {
    var n := if attempt < 0 then 0 else attempt;
    d := base;
    WrapExact(base);
    for i := 0 to n
      invariant d == Wrap(base * Pow2(i))
    {
      WrapProduct(base * Pow2(i), 2);
      assert base * Pow2(i) * 2 == base * Pow2(i + 1);
      d := Wrap(d * 2);
    }
  }

  /** The notification back-off, in seconds. */
  method Seconds(attempt: int) returns (d: int)
    ensures d == SecondsOf(attempt)
  {
    if attempt < 1 {
      return 1;
    }
    d := 1;
    for i := 1 to attempt
      invariant d == Wrap(Pow2(i - 1))
    {
      WrapProduct(Pow2(i - 1), 2);
      d := Wrap(d * 2);
    }
  }

  function SecondsOf(attempt: int): int { if attempt < 1 then 1 else Wrap(Pow2(attempt - 1)) }

  lemma {:induction false} Pow2Grows(m: nat, n: nat)
    requires m <= n
    ensures 0 < Pow2(m) <= Pow2(n)
  {
    if m < n {
      Pow2Grows(m, n - 1);
    } else if m > 0 {
      Pow2Grows(m - 1, m - 1);
    }
  }

  lemma {:induction false} Pow2Adds(m: nat, n: nat)
    ensures Pow2(m + n) == Pow2(m) * Pow2(n)
  {
    if n > 0 {
      Pow2Adds(m, n - 1);
      Twice(Pow2(m), Pow2(n - 1));
    }
  }

  lemma Twice(x: int, y: int)
    ensures x * (2 * y) == 2 * (x * y)
  {
  }

  lemma Pow2Values()
    ensures Pow2(8) == 0x100 && Pow2(16) == 0x1_0000 && Pow2(32) == 0x1_0000_0000
    ensures Pow2(33) == 0x2_0000_0000 && Pow2(34) == 0x4_0000_0000
    ensures Pow2(63) == HALF && Pow2(64) == WORD
  {
    assert Pow2(4) == 16;
    Pow2Adds(4, 4);
    Pow2Adds(8, 8);
    Pow2Adds(16, 16);
    Pow2Adds(32, 32);
  }

  /** The back-off is a power of two exactly up to attempt 63, then wraps to a
      negative number once, and is zero from attempt 65 on. */
  lemma SecondsExactly(n: int)
    requires n >= 1
    ensures SecondsOf(n) == if n <= 63 then Pow2(n - 1) else if n == 64 then -HALF else 0
  {
    if n <= 63 {
      SmallPowerFits(n - 1);
    } else if n == 64 {
      Pow2Values();
    } else {
      LargePowerVanishes(n - 1);
    }
  }

  lemma SmallPowerFits(k: nat)
    requires k <= 62
    ensures Wrap(Pow2(k)) == Pow2(k)
  {
    Pow2Values();
    Pow2Grows(k, 62);
    assert Pow2(63) == 2 * Pow2(62);
    WrapExact(Pow2(k));
  }

  lemma LargePowerVanishes(k: nat)
    requires k >= 64
    ensures Wrap(Pow2(k)) == 0
  {
    Pow2Values();
    Pow2Adds(k - 64, 64);
    Remainder(Pow2(k - 64), HALF);
    assert Pow2(k) + HALF == Pow2(k - 64) * WORD + HALF;
  }

  /** The delay a failed message is given, in nanoseconds. */
  function DelayOf(attempt: int): int { Wrap(SecondsOf(attempt) * SECOND) }

  /** The delay is the doubled number of seconds exactly up to attempt 34. */
  lemma DelayExactIff(n: int)
    requires n >= 1
    ensures DelayOf(n) == Pow2(n - 1) * SECOND <==> n <= 34
  {
    WrapProduct(Pow2(n - 1), SECOND);
    WrapExact(Pow2(n - 1) * SECOND);
    Pow2Values();
    if n <= 34 {
      Pow2Grows(n - 1, 33);
    } else {
      Pow2Grows(34, n - 1);
    }
  }

  /** At attempt 35 the delay is negative: the message is due at once. */
  lemma Attempt35IsDueAtOnce()
    ensures DelayOf(35) < 0
  {
    Pow2Values();
  }

  // ------------------------------------------------------------- retrying

  datatype Verdict = Done | GaveUp | Cancelled

  /** Call k is made: everything before it failed, and nothing cancelled it. */
  ghost predicate Reaches(k: nat, ok: nat -> bool, stop: nat -> bool, stopWait: nat -> bool) {
    !stop(k) && forall j: nat | j < k :: !stop(j) && !ok(j) && !stopWait(j)
  }

  class Retrier {
    const max: int
    var attempts: map<string, int>

    constructor (max: int)
      ensures this.max == max && attempts == map[]
    {
      this.max, attempts := max, map[];
    }

    function AttemptsOf(key: string): int
      reads this
    {
      if key in attempts then attempts[key] else 0
    }

    /** The failures a key may still have before it is given up. */
    function Spare(key: string): nat
      reads this
    {
      if AttemptsOf(key) < max then max - AttemptsOf(key) else 0
    }

    /** Call k succeeds when `ok(k)`; the context is cancelled before call k when
        `stop(k)`, and during the wait after it when `stopWait(k)`. A key given up
        stays at its limit, so its next Do makes a single call. */
    method Do(key: string, ok: nat -> bool, stop: nat -> bool, stopWait: nat -> bool) returns (v: Verdict, calls: nat)
      modifies this`attempts
      ensures v == Done <==> exists k: nat | k <= old(Spare(key)) :: Reaches(k, ok, stop, stopWait) && ok(k)
      ensures v == GaveUp <==> Reaches(old(Spare(key)), ok, stop, stopWait) && !ok(old(Spare(key)))
      ensures v == Done ==> calls > 0 && Reaches(calls - 1, ok, stop, stopWait) && ok(calls - 1)
      ensures v == GaveUp ==> calls == 1 + old(Spare(key))
      ensures v == Cancelled ==>
        && (forall j: nat | j < calls :: !stop(j) && !ok(j) && (j < calls - 1 ==> !stopWait(j)))
        && calls <= old(Spare(key)) && (stop(calls) || (calls > 0 && stopWait(calls - 1)))
      ensures v == Done ==> attempts == old(attempts) - {key}
      ensures v != Done ==>
        var failures := if v == GaveUp then calls - 1 else calls;
        attempts == if failures == 0 then old(attempts) else old(attempts)[key := old(AttemptsOf(key)) + failures]
    {
      calls := 0;
      ghost var first, spare := AttemptsOf(key), Spare(key);
      while true
        invariant calls <= spare
        invariant attempts == if calls == 0 then old(attempts) else old(attempts)[key := first + calls]
        invariant forall j: nat | j < calls :: !stop(j) && !ok(j) && !stopWait(j)
        decreases spare - calls
      {
        if stop(calls) {
          return Cancelled, calls;
        }
        var attempt := AttemptsOf(key);
        calls := calls + 1;
        if ok(calls - 1) {
          attempts := attempts - {key};
          return Done, calls;
        }
        if attempt >= max {
          return GaveUp, calls;
        }
        attempts := attempts[key := attempt + 1];
        if stopWait(calls - 1) {
          return Cancelled, calls;
        }
      }
    }
  }
}
