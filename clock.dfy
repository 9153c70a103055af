/**
 * The 32-bit `millis()` clock and the 5-second gate of the poll loop.
 * `unsigned long` is 32 bits wide on the target, so `now - prev` wraps
 * modulo 2^32.
 */
module Clock {

  const Wrap: int := 0x1_0000_0000
  const Period: int := 5000

  type Millis = x: int | 0 <= x < 0x1_0000_0000

  /** The reading of `millis()` at absolute time `t` (milliseconds since boot). */
  function ToMillis(t: nat): Millis {
    t % Wrap
  }

  /** `now - prev` in 32-bit unsigned arithmetic. */
  function Elapsed(now: Millis, prev: Millis): (d: Millis)
    ensures (prev + d) % Wrap == now
  {
    (now - prev) % Wrap
  }

  /** The condition on line 257: elapsed beyond the period, or never sent. */
  predicate GateOpen(prev: Millis, now: Millis): (open: bool)
    ensures prev == 0 ==> open
    ensures open <==> prev == 0 || (if prev <= now then now - prev else now + Wrap - prev) > Period
  {
    Elapsed(now, prev) > Period || prev == 0
  }

  /** The wrapped difference of two clock readings is the true duration between them. */
  lemma {:induction false} ElapsedIsDuration(t0: nat, d: nat)
    requires d < Wrap
    ensures Elapsed(ToMillis(t0 + d), ToMillis(t0)) == d
  {
    var q0, q1 := t0 / Wrap, (t0 + d) / Wrap;
    assert t0 == q0 * Wrap + ToMillis(t0);
    assert t0 + d == q1 * Wrap + ToMillis(t0 + d);
    var e := ToMillis(t0 + d) - ToMillis(t0);
    assert e == d - (q1 - q0) * Wrap;
    assert q1 - q0 == 0 || q1 - q0 == 1;
    if q1 == q0 {
      assert e == d;
    } else {
      assert e == d - Wrap;
      assert (d - Wrap) % Wrap == d;
    }
  }

  /** Once a send has happened, the gate opens exactly when more than 5 s have passed, across wrap-around. */
  lemma GateAcrossWrap(t0: nat, d: nat)
    requires d < Wrap && ToMillis(t0) != 0
    ensures GateOpen(ToMillis(t0), ToMillis(t0 + d)) <==> d > Period
  {
    ElapsedIsDuration(t0, d);
  }
}
