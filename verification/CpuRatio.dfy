/**
 64-bit words, and to_ratio: which part of a CPU a runtime in every period is, as the admission
 checks count it and as it is.
 */
module CpuRatio {
  import opened Util

  const TWO_TO_THE_63: int := 0x8000_0000_0000_0000
  const TWO_TO_THE_64: int := 0x1_0000_0000_0000_0000
  const RUNTIME_INF: int := TWO_TO_THE_64 - 1

  /* The source's conversions to u64 and s64. */
  function U64(x: int): int { x % TWO_TO_THE_64 }
  function S64(x: int): int { (x + TWO_TO_THE_63) % TWO_TO_THE_64 - TWO_TO_THE_63 }

  lemma WrapExact(x: int)
    ensures -TWO_TO_THE_63 <= x < TWO_TO_THE_63 ==> S64(U64(x)) == x && S64(x) == x
    ensures 0 <= x < TWO_TO_THE_64 ==> U64(x) == x
  {
  }

  // ----- to_ratio

  const UNIT: int := 0x10_0000            // one CPU: 1 << 20
  const MANY: int := 0x1000_0000_0000     // 1 << 44: so many CPUs' ratios, or ns of runtime, wrap a word

  /* to_ratio: runtime over period in 1/2^20, rounded down; the shift is done in 64 bits. */
  function ToRatio(period: nat, runtime: nat): nat {
    if runtime == RUNTIME_INF then UNIT
    else if period == 0 then 0
    else U64(runtime * UNIT) / period
  }

  lemma RatioBound(period: nat, runtime: nat)
    requires runtime <= period || runtime == RUNTIME_INF
    ensures ToRatio(period, runtime) <= UNIT
  {
  }

  /* The ratio is the rounded quotient exactly as long as the shift keeps to 64 bits: from about 4.9
     hours of runtime on it no longer tells what the runtime is. */
  lemma RatioExact(period: nat, runtime: nat)
    requires 0 < period < TWO_TO_THE_64 && runtime != RUNTIME_INF
    ensures ToRatio(period, runtime) == runtime * UNIT / period <==> runtime < MANY
  {
  }

  /* A runtime that is a multiple of 2^44 ns counts for nothing. */
  lemma WrappedIsZero(period: nat, runtime: nat)
    requires runtime % MANY == 0 && runtime != RUNTIME_INF
    ensures ToRatio(period, runtime) == 0
  {
    hide U64;
    var k := runtime / MANY;
    assert runtime * UNIT == k * TWO_TO_THE_64;
    WrapMultiple(k);
  }

  lemma WrapMultiple(k: nat)
    ensures U64(k * TWO_TO_THE_64) == 0
  {
  }

  // ----- and what it stands for

  /* The part of a CPU that the runtime in every period really is. */
  ghost function TimeShare(period: nat, runtime: nat): real {
    if runtime == RUNTIME_INF then 1.0
    else if period == 0 then 0.0
    else runtime as real / period as real
  }

  predicate Unwrapped(runtime: nat) {
    runtime < MANY || runtime == RUNTIME_INF
  }

  /* The share is below the ratio plus one exactly as long as the shift does not wrap. */
  lemma ShareBelow(period: nat, runtime: nat)
    requires runtime <= period || runtime == RUNTIME_INF
    ensures Unwrapped(runtime) ==> TimeShare(period, runtime) * UNIT as real < (ToRatio(period, runtime) + 1) as real
    ensures !Unwrapped(runtime) && period < TWO_TO_THE_64 ==>
      TimeShare(period, runtime) * UNIT as real >= (ToRatio(period, runtime) + 1) as real
  {
    if runtime != RUNTIME_INF && period != 0 {
      var left, whole := U64(runtime * UNIT), runtime * UNIT;
      Scale(runtime, period, UNIT);
      Quotient(left, period);
      if runtime < MANY {
        assert left == whole;
      } else if period < TWO_TO_THE_64 {
        assert left + period <= whole;
        DivBounds(left, period);
        MulStep(left / period, period);
        DivMost(left / period + 1, whole, period);
        Quotient(whole, period);
      }
    }
  }

  /* The ratio never tells more than there is. */
  lemma RatioBelow(period: nat, runtime: nat)
    ensures ToRatio(period, runtime) as real <= TimeShare(period, runtime) * UNIT as real
  {
    if runtime != RUNTIME_INF && period != 0 {
      var left, whole := U64(runtime * UNIT), runtime * UNIT;
      Scale(runtime, period, UNIT);
      Quotient(left, period);
      QuotientMonotone(left, whole, period);
    }
  }

  lemma ShareBound(period: nat, runtime: nat)
    requires runtime <= period || runtime == RUNTIME_INF
    ensures TimeShare(period, runtime) <= 1.0
  {
    if runtime != RUNTIME_INF && period != 0 {
      QuotientMonotone(runtime, period, period);
      assert period as real / period as real == 1.0;
    }
  }

  lemma Quotient(x: nat, n: nat)
    requires 0 < n
    ensures (x / n) as real <= x as real / n as real < (x / n + 1) as real
  {
  }

  lemma QuotientMonotone(x: nat, y: nat, n: nat)
    requires 0 < n && x <= y
    ensures 0.0 <= x as real / n as real <= y as real / n as real
  {
  }

  lemma Scale(x: nat, n: nat, u: nat)
    requires 0 < n
    ensures x as real / n as real * u as real == (x * u) as real / n as real
  {
    assert x as real / n as real * u as real * n as real == (x * u) as real;
  }

  /* Shares that are each below the ratio plus one are together below the ratios plus their number. */
  lemma {:induction false} SharesBelow<K>(u: map<K, real>, b: map<K, int>)
    requires u.Keys == b.Keys && u != map[]
    requires forall k :: k in u ==> u[k] * UNIT as real < (b[k] + 1) as real
    ensures SumReals(u) * UNIT as real < (SumMap(b) + |u|) as real
    decreases |u|
  {
    var k :| k in u && SumReals(u) == u[k] + SumReals(u - {k});
    SumMapRemove(b, k);
    assert (u - {k}).Keys == u.Keys - {k} == (b - {k}).Keys;
    if u - {k} == map[] {
      assert b - {k} == map[];
    } else {
      SharesBelow(u - {k}, b - {k});
    }
    Distribute(u[k], SumReals(u - {k}), UNIT as real);
  }

  lemma {:induction false} EachOne<K>(u: map<K, real>)
    requires forall k :: k in u ==> u[k] == 1.0
    ensures SumReals(u) == |u| as real
    decreases |u|
  {
    if u != map[] {
      var k :| k in u && SumReals(u) == u[k] + SumReals(u - {k});
      EachOne(u - {k});
    }
  }

  lemma SizeOf<K, V>(m: map<K, V>)
    ensures |m| == |m.Keys|
    ensures m != map[] <==> m.Keys != {}
  {
  }

  // ----- arithmetic

  lemma MulStep(k: int, x: int)
    ensures (k + 1) * x == k * x + x
  {
  }

  lemma MulMonotone(k: nat, n: nat, x: int)
    requires k <= n && 0 <= x
    ensures k * x <= n * x
  {
  }

  lemma MulMonotoneInt(a: int, b: int, n: int)
    requires a <= b && n >= 0
    ensures a * n <= b * n
  {
  }

  lemma DivBounds(x: int, n: int)
    requires x >= 0 && n >= 1
    ensures 0 <= x / n <= x && x / n * n <= x
  {
  }

  lemma DivMost(x: int, spare: int, n: int)
    requires n >= 1 && x * n <= spare
    ensures x <= spare / n
  {
    MulStep(spare / n, n);
    if spare / n + 1 <= x { MulMonotoneInt(spare / n + 1, x, n); }
  }

  lemma Distribute(a: real, b: real, c: real)
    ensures (a + b) * c == a * c + b * c
  {
  }

  lemma Divide(s: real, g: real, n: real, u: real)
    requires u > 0.0 && s * u < g * u + n
    ensures s < g + n / u
  {
  }
}
