/** Timestamps as the packets and results store them: 64-bit nanoseconds, and the delay figures computed
    with Go's saturating time.Sub and wrapping int64 subtraction. */
module Nanoseconds {
  import opened Waiting

  const TWO63: int := 0x8000_0000_0000_0000
  const TWO64: int := 0x1_0000_0000_0000_0000

  predicate FitsInt64(x: int)
  {
    -TWO63 <= x < TWO63
  }

  /** Conversion or arithmetic in int64. */
  function ToInt64(x: int): int
  {
    (x + TWO63) % TWO64 - TWO63
  }

  /** Conversion to uint64, as in uint64(t.UnixNano()). */
  function ToUint64(x: int): nat
  {
    x % TWO64
  }

  /** time.Sub saturates. */
  function Sub(a: int, b: int): int
  {
    if a - b >= TWO63 then TWO63 - 1 else if a - b < -TWO63 then -TWO63 else a - b
  }

  /** The figures as ProbeTarget computes them. */
  function DelayFigures64(t1: int, t2: int, t3: int, t4: int, t5: int, t6: int): Metrics
  {
    var responderDelay := Sub(t4, t3);
    Metrics(ToInt64(Sub(t5, t2) - responderDelay), responderDelay, ToInt64(Sub(t6, t1) - Sub(t5, t2)))
  }

  /** A time written into a packet as uint64 and read back through int64 is unchanged, before and after
      1970. */
  lemma StampRoundTrip(t: int)
    ensures ToInt64(ToUint64(t)) == t <==> FitsInt64(t)
  {
    if FitsInt64(t) {
      if t >= 0 {
        assert ToUint64(t) == t;
      } else {
        assert ToUint64(t) == t + TWO64;
        assert (t + TWO64 + TWO63) % TWO64 == t + TWO63;
      }
    }
  }

  predicate Stamp(t: int)
  {
    0 <= t < TWO63
  }

  lemma ToInt64Exact(x: int)
    ensures ToInt64(x) == x <==> FitsInt64(x)
  {
  }

  /** For timestamps since 1970 the 64-bit figures are the true ones exactly when the true network and
      prober figures fit in 64 bits. */
  lemma FiguresExactIff(t1: int, t2: int, t3: int, t4: int, t5: int, t6: int)
    requires Stamp(t1) && Stamp(t2) && Stamp(t3) && Stamp(t4) && Stamp(t5) && Stamp(t6)
    ensures var m := DelayFigures(t1, t2, t3, t4, t5, t6);
      DelayFigures64(t1, t2, t3, t4, t5, t6) == m <==> FitsInt64(m.networkRtt) && FitsInt64(m.proberDelay)
  {
    ToInt64Exact(t5 - t2 - (t4 - t3));
    ToInt64Exact(t6 - t1 - (t5 - t2));
  }

  /** In particular they are exact whenever each clock runs forward: T1 before T6 and T2 before T5 on the prober, T3
      before T4 on the responder, whatever the offset between the clocks. */
  lemma FiguresExactInOrder(t1: int, t2: int, t3: int, t4: int, t5: int, t6: int)
    requires Stamp(t1) && Stamp(t2) && Stamp(t3) && Stamp(t4) && Stamp(t5) && Stamp(t6)
    requires t1 <= t6 && t2 <= t5 && t3 <= t4
    ensures DelayFigures64(t1, t2, t3, t4, t5, t6) == DelayFigures(t1, t2, t3, t4, t5, t6)
  {
    FiguresExactIff(t1, t2, t3, t4, t5, t6);
  }

  /** Even when they wrap, the three figures still add up to the elapsed time in int64 arithmetic. */
  lemma FiguresAddUpInt64(t1: int, t2: int, t3: int, t4: int, t5: int, t6: int)
    requires Stamp(t1) && Stamp(t2) && Stamp(t3) && Stamp(t4) && Stamp(t5) && Stamp(t6)
    ensures var m := DelayFigures64(t1, t2, t3, t4, t5, t6);
      ToInt64(m.networkRtt + m.responderDelay + m.proberDelay) == t6 - t1
  {
    var m, ideal := DelayFigures64(t1, t2, t3, t4, t5, t6), DelayFigures(t1, t2, t3, t4, t5, t6);
    WrapBy(ideal.networkRtt);
    WrapBy(ideal.proberDelay);
    var k1 :| m.networkRtt == ideal.networkRtt + k1 * TWO64;
    var k2 :| m.proberDelay == ideal.proberDelay + k2 * TWO64;
    assert m.networkRtt + m.responderDelay + m.proberDelay == t6 - t1 + (k1 + k2) * TWO64;
    WrapShift(t6 - t1, k1 + k2);
  }

  lemma WrapBy(x: int)
    ensures exists k :: ToInt64(x) == x + k * TWO64
  {
    var q := (x + TWO63) / TWO64;
    assert x + TWO63 == q * TWO64 + (x + TWO63) % TWO64;
    assert ToInt64(x) == x + (-q) * TWO64;
  }

  lemma WrapShift(x: int, k: int)
    requires FitsInt64(x)
    ensures ToInt64(x + k * TWO64) == x
  {
    var y := x + TWO63;
    assert (y + k * TWO64) / TWO64 == k by {
      assert y + k * TWO64 == k * TWO64 + y;
    }
  }
}
