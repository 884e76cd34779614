/**
 Full-jitter reconnect delay (ios/SinchPushSocket/Backoff.swift) and the report flusher's
 copy of the same curve (src/api/reportOutbox.ts).
 */
module Backoff {
  import opened Common

  const BASE_MS := 1000
  const MAX_MS := 30_000

  function Pow2(n: nat): (p: nat)
    ensures p >= 1
  {
    if n == 0 then 1 else 2 * Pow2(n - 1)
  }

  /** The window the next attempt draws from; `attempts` below 1 is clamped to the base window. */
  function CeilingMs(attempts: int): int {
    var n := Max(1, attempts);
    if n > 1 + MAX_MS / BASE_MS then MAX_MS else Min(MAX_MS, BASE_MS * Pow2(n - 1))
  }

  /** A source that breaks its contract is pulled back into [0, 1). */
  function Clamp(draw: real): real {
    var low := if draw < 0.0 then 0.0 else draw;
    if low > 0.999999999999 then 0.999999999999 else low
  }

  /** The whole milliseconds of a share of the window. */
  function Scaled(share: real, window: int): int {
    (share * window as real).Floor
  }

  /** One draw, floored. */
  function DelayMs(attempts: int, draw: real): int {
    Scaled(Clamp(draw), CeilingMs(attempts))
  }

  /** The flusher's backoff; `attempt` counts failures from 0. */
  function ReportBackoffMs(attempt: nat, draw: real): int {
    Scaled(draw, Min(MAX_MS, BASE_MS * Pow2(attempt)))
  }

  lemma {:induction false} Pow2Monotone(m: nat, n: nat)
    requires m <= n
    ensures Pow2(m) <= Pow2(n)
    decreases n
  {
    if m < n {
      Pow2Monotone(m, n - 1);
    }
  }

  lemma Pow2At31()
    ensures Pow2(5) == 32 && Pow2(31) == 0x8000_0000
  {
    assert Pow2(5) == 32;
    assert Pow2(10) == 1024;
    assert Pow2(15) == 32768;
    assert Pow2(20) == 1048576;
    assert Pow2(25) == 33554432;
    assert Pow2(30) == 1073741824;
  }

  /**
   The early return at attempt 32 is only a guard against overflow: for every integer the window is
   min(30 s, 1 s * 2^(n-1)), and the product the code forms fits a signed 64-bit integer.
   */
  lemma CeilingClosedForm(attempts: int)
    ensures CeilingMs(attempts) == Min(30_000, 1000 * Pow2(Max(1, attempts) - 1))
    ensures 1000 <= CeilingMs(attempts) <= 30_000
    ensures attempts <= 31 ==> 1000 * Pow2(Max(1, attempts) - 1) < 0x8000_0000_0000_0000
  {
    var n := Max(1, attempts);
    Pow2At31();
    if n > 1 + MAX_MS / BASE_MS {
      Pow2Monotone(5, n - 1);
    } else {
      Pow2Monotone(n - 1, 31);
    }
  }

  /** Another failure never narrows the window. */
  lemma CeilingMonotone(m: int, n: int)
    requires m <= n
    ensures CeilingMs(m) <= CeilingMs(n)
  {
    CeilingClosedForm(m);
    CeilingClosedForm(n);
    Pow2Monotone(Max(1, m) - 1, Max(1, n) - 1);
  }

  lemma ScaledFloor(share: real, c: int)
    requires 0.0 <= share < 1.0 && 0 < c
    ensures 0 <= Scaled(share, c) < c
  {
    var x := c as real;
    assert share * x >= 0.0;
    assert (1.0 - share) * x > 0.0;
    assert share * x == x - (1.0 - share) * x;
  }

  lemma ScaleMonotone(k: real, share: real, x: real)
    requires k < share && 0.0 < x
    ensures k * x < share * x
  {
    assert (share - k) * x > 0.0;
    assert (share - k) * x == share * x - k * x;
  }

  lemma ClampLeavesRoom(x: real)
    requires 0.0 < x <= 30000.0
    ensures x - 1.0 < 0.999999999999 * x
  {
  }

  lemma ShareBounds(share: real, m: real, x: real)
    requires share * x == m && 0.0 <= m <= x - 1.0 && 0.0 < x <= 30000.0
    ensures 0.0 <= share <= 0.999999999999
  {
    if share > 0.999999999999 {
      ScaleMonotone(0.999999999999, share, x);
      ClampLeavesRoom(x);
    }
    if share < 0.0 {
      ScaleMonotone(share, 0.0, x);
    }
  }

  lemma ShareOf(ms: int, c: int)
    requires 0 <= ms < c <= MAX_MS
    ensures 0.0 <= ms as real / c as real <= 0.999999999999
    ensures (ms as real / c as real) * c as real == ms as real
  {
    ShareBounds(ms as real / c as real, ms as real, c as real);
  }

  /** Every delay lies in [0, window), whatever the random source returns. */
  lemma DelayInWindow(attempts: int, draw: real)
    ensures 0 <= DelayMs(attempts, draw) < CeilingMs(attempts) <= MAX_MS
  {
    CeilingClosedForm(attempts);
    ScaledFloor(Clamp(draw), CeilingMs(attempts));
  }

  /** Full jitter: every whole millisecond of the window is drawn by some value in [0, 1). */
  lemma EveryDelayIsReachable(attempts: int, ms: int) returns (draw: real)
    requires 0 <= ms < CeilingMs(attempts)
    ensures 0.0 <= draw < 1.0
    ensures DelayMs(attempts, draw) == ms
  {
    CeilingClosedForm(attempts);
    ShareOf(ms, CeilingMs(attempts));
    draw := ms as real / CeilingMs(attempts) as real;
  }

  /** The flusher's window is the reconnect window shifted by one attempt, and its draws stay inside it. */
  lemma ReportBackoffIsShiftedCurve(attempt: nat, draw: real)
    requires 0.0 <= draw < 1.0
    ensures Min(MAX_MS, BASE_MS * Pow2(attempt)) == CeilingMs(attempt + 1)
    ensures 0 <= ReportBackoffMs(attempt, draw) < CeilingMs(attempt + 1)
  {
    CeilingClosedForm(attempt + 1);
    ScaledFloor(draw, CeilingMs(attempt + 1));
  }
}
