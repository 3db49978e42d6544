/** The retry delay, computed with saturating machine arithmetic. */
module Backoff {
  import opened Types

  const BASE_DELAY_MS: nat := 10_000

  function Saturate(n: nat): nat {
    if n > U64_MAX then U64_MAX else n
  }

  function SaturatingMul(a: nat, b: nat): nat {
    Saturate(a * b)
  }

  /** `2u64.saturating_pow(e)`. */
  function SaturatingPow2(e: nat): nat {
    if e == 0 then 1 else SaturatingMul(2, SaturatingPow2(e - 1))
  }

  /** `retry_delay_ms`. */
  function RetryDelayMs(attempt: nat, capMs: nat): nat {
    var base := SaturatingMul(BASE_DELAY_MS, SaturatingPow2(SaturatingSub(attempt, 1)));
    if base < capMs then base else capMs
  }

  /** The `as i64` cast of a u64. */
  function AsI64(n: nat): int {
    if n % (U64_MAX + 1) <= I64_MAX then n % (U64_MAX + 1) else n % (U64_MAX + 1) - (U64_MAX + 1)
  }

  function Pow2(e: nat): nat {
    if e == 0 then 1 else 2 * Pow2(e - 1)
  }

  function Min(a: nat, b: nat): nat {
    if a < b then a else b
  }

  lemma {:induction false} SaturatingPow2Exact(e: nat)
    ensures SaturatingPow2(e) == Saturate(Pow2(e))
    ensures Pow2(e) >= 1
  {
    if e > 0 { SaturatingPow2Exact(e - 1); }
  }

  lemma {:induction false} Pow2Monotone(a: nat, b: nat)
    requires a <= b
    ensures Pow2(a) <= Pow2(b)
  {
    SaturatingPow2Exact(b);
    if a < b { Pow2Monotone(a, b - 1); SaturatingPow2Exact(b - 1); }
  }

  /** Saturating twice and then capping loses nothing: the delay is the exact capped power of two. */
  lemma DelayIsExact(attempt: nat, capMs: nat)
    requires capMs <= U64_MAX
    ensures RetryDelayMs(attempt, capMs) == Min(BASE_DELAY_MS * Pow2(SaturatingSub(attempt, 1)), capMs)
  {
    SaturatingPow2Exact(SaturatingSub(attempt, 1));
  }

  lemma DelayMonotone(a: nat, b: nat, capMs: nat)
    requires a <= b && capMs <= U64_MAX
    ensures RetryDelayMs(a, capMs) <= RetryDelayMs(b, capMs) <= capMs
  {
    DelayIsExact(a, capMs);
    DelayIsExact(b, capMs);
    Pow2Monotone(SaturatingSub(a, 1), SaturatingSub(b, 1));
  }

  /** The cast for `due_at` keeps the delay exactly when no attempt can delay past the i64 range. */
  lemma CastKeepsDelayIff(capMs: nat)
    requires capMs <= U64_MAX
    ensures (forall attempt: nat :: AsI64(RetryDelayMs(attempt, capMs)) == RetryDelayMs(attempt, capMs)) <==>
            capMs <= I64_MAX
  {
    if capMs <= I64_MAX {
      forall attempt: nat ensures AsI64(RetryDelayMs(attempt, capMs)) == RetryDelayMs(attempt, capMs) {
        DelayMonotone(attempt, attempt, capMs);
      }
    } else {
      var big := 65;
      DelayIsExact(big, capMs);
      PowerPast64();
      assert AsI64(RetryDelayMs(big, capMs)) != RetryDelayMs(big, capMs);
    }
  }

  lemma {:induction false} Pow2Sum(a: nat, b: nat)
    ensures Pow2(a + b) == Pow2(a) * Pow2(b)
  {
    if a > 0 {
      Pow2Sum(a - 1, b);
      assert Pow2(a + b) == 2 * Pow2(a - 1 + b);
    }
  }

  lemma PowerPast64()
    ensures Pow2(64) == U64_MAX + 1
  {
    assert Pow2(4) == 16;
    hide Pow2;
    Pow2Sum(4, 4);
    assert Pow2(8) == 0x100;
    Pow2Sum(8, 8);
    assert Pow2(16) == 0x1_0000;
    Pow2Sum(16, 16);
    assert Pow2(32) == 0x1_0000_0000;
    Pow2Sum(32, 32);
  }
}
