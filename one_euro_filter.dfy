/**
 * The One Euro filter of MonitorTracking.py: an exponential low-pass filter whose
 * cutoff grows with the smoothed speed of the signal. The arithmetic is exact real
 * arithmetic instead of IEEE doubles.
 */
module OneEuro {
  import opened Wrappers

  /** The IEEE-754 double that Python's math.pi denotes, written out exactly. */
  const PI: real := 3.141592653589793115997963468544185161590576171875

  /** min_cutoff, beta, d_cutoff and freq of one filter. */
  datatype FilterParams = FilterParams(minCutoff: real, beta: real, dCutoff: real, freq: real)

  /** The coefficients for which every smoothing factor the filter computes is defined. */
  predicate ValidParams(p: FilterParams) {
    p.minCutoff > 0.0 && p.beta >= 0.0 && p.dCutoff > 0.0 && p.freq > 0.0
  }

  /** prev_x and prev_dx; None is their value before the first sample. */
  datatype Memory = Memory(prevX: Option<real>, prevDx: Option<real>)

  /** The memory of a newly constructed filter. */
  const FRESH: Memory := Memory(None, None)

  function Abs(r: real): real {
    if r < 0.0 then -r else r
  }

  function Min(a: real, b: real): real {
    if a <= b then a else b
  }

  function Max(a: real, b: real): real {
    if a <= b then b else a
  }

  /** v lies in the closed interval spanned by a and b, and strictly inside it when a != b. */
  predicate Between(v: real, a: real, b: real) {
    Min(a, b) <= v <= Max(a, b) && (a != b ==> v != a && v != b)
  }

  /** `_alpha`: the smoothing factor of an exponential filter with the given cutoff frequency
    * at the given sampling frequency, written as w / (w + freq) with w = 2 pi cutoff; the
    * lemma AlphaFormula shows that this is the source's 1 / (1 + tau / dt). */
  function Alpha(cutoff: real, freq: real): (a: real)
    requires cutoff > 0.0 && freq > 0.0
    ensures 0.0 < a < 1.0
  {
    var w := 2.0 * PI * cutoff;
    assert w > 0.0;
    RatioInUnit(w, freq);
    w / (w + freq)
  }

  lemma RatioInUnit(w: real, f: real)
    requires w > 0.0 && f > 0.0
    ensures 0.0 < w / (w + f) < 1.0
  {
    var s := w + f;
    var q := w / s;
    assert q * s == w;
    if q >= 1.0 {
      MulMonotone(s, 1.0, q);
      assert false;
    }
    if q <= 0.0 {
      MulMonotone(s, q, 0.0);
      assert false;
    }
  }

  /** Alpha is the source's formula: tau = 1 / (2 pi cutoff), dt = 1 / freq, 1 / (1 + tau / dt). */
  lemma AlphaFormula(cutoff: real, freq: real)
    requires cutoff > 0.0 && freq > 0.0
    ensures var tau := 1.0 / (2.0 * PI * cutoff);
            var dt := 1.0 / freq;
            Alpha(cutoff, freq) == 1.0 / (1.0 + tau / dt)
  {
    var w := 2.0 * PI * cutoff;
    var tau := 1.0 / w;
    var dt := 1.0 / freq;
    assert tau / dt == freq / w;
    assert 1.0 + freq / w == (w + freq) / w;
    assert 1.0 / ((w + freq) / w) == w / (w + freq);
  }

  /** A higher cutoff gives a higher smoothing factor, i.e. less lag. */
  lemma AlphaMonotone(c1: real, c2: real, freq: real)
    requires 0.0 < c1 <= c2 && freq > 0.0
    ensures Alpha(c1, freq) <= Alpha(c2, freq)
  {
    var w1, w2 := 2.0 * PI * c1, 2.0 * PI * c2;
    assert w1 <= w2;
    // w / (w + f) = 1 - f / (w + f), and f / (w + f) shrinks as w grows
    var s1, s2 := w1 + freq, w2 + freq;
    ReciprocalAntitone(s1, s2);
    assert freq / s2 <= freq / s1 by { MulMonotone(freq, 1.0 / s2, 1.0 / s1); }
    assert w1 / s1 == 1.0 - freq / s1;
    assert w2 / s2 == 1.0 - freq / s2;
  }

  lemma ReciprocalAntitone(u: real, v: real)
    requires 0.0 < u <= v
    ensures 1.0 / v <= 1.0 / u
  {
    assert (1.0 / v) * v == 1.0 && (1.0 / u) * u == 1.0;
    assert (1.0 / v) * u <= (1.0 / v) * v;
  }

  /** dx of `filter`: zero on the first sample, otherwise the difference quotient. */
  function RawDerivative(p: FilterParams, m: Memory, x: real): real {
    if m.prevX.None? then 0.0 else (x - m.prevX.value) * p.freq
  }

  /** smooth_dx of `filter`: dx, exponentially smoothed with the fixed cutoff d_cutoff. */
  function SmoothedDerivative(p: FilterParams, m: Memory, x: real): real
    requires ValidParams(p)
  {
    var dx := RawDerivative(p, m, x);
    if m.prevDx.None? then dx
    else
      var alphaD := Alpha(p.dCutoff, p.freq);
      Blend(alphaD, dx, m.prevDx.value)
  }

  /** The dynamic cutoff: never below min_cutoff, growing with the smoothed speed. */
  function Cutoff(p: FilterParams, smoothDx: real): (c: real)
    requires ValidParams(p)
    ensures c >= p.minCutoff > 0.0
    ensures smoothDx == 0.0 ==> c == p.minCutoff
  {
    assert p.beta * Abs(smoothDx) >= 0.0;
    p.minCutoff + p.beta * Abs(smoothDx)
  }

  /** The convex combination alpha * x + (1 - alpha) * prev used for both the signal and its derivative. */
  function Blend(alpha: real, x: real, prev: real): (v: real)
    requires 0.0 < alpha < 1.0
    ensures Between(v, prev, x)
    ensures v - x == (1.0 - alpha) * (prev - x)
  {
    BlendBetween(alpha, x, prev);
    alpha * x + (1.0 - alpha) * prev
  }

  lemma BlendBetween(alpha: real, x: real, prev: real)
    requires 0.0 < alpha < 1.0
    ensures Between(alpha * x + (1.0 - alpha) * prev, prev, x)
    ensures alpha * x + (1.0 - alpha) * prev - x == (1.0 - alpha) * (prev - x)
  {
    BlendIdentity(alpha, x, prev);
    var rest := 1.0 - alpha;
    var d := x - prev;
    if prev < x {
      MulPositive(alpha, d);
      MulPositive(rest, d);
    } else if x < prev {
      var e := prev - x;
      MulPositive(alpha, e);
      MulPositive(rest, e);
      assert alpha * d == -(alpha * e);
      assert rest * d == -(rest * e);
    } else {
      assert alpha * d == 0.0;
    }
    BetweenByOffsets(alpha * x + (1.0 - alpha) * prev, prev, x, alpha * d, rest * d);
  }

  lemma BlendIdentity(alpha: real, x: real, prev: real)
    ensures alpha * x + (1.0 - alpha) * prev == prev + alpha * (x - prev)
    ensures alpha * x + (1.0 - alpha) * prev == x - (1.0 - alpha) * (x - prev)
    ensures alpha * x + (1.0 - alpha) * prev - x == (1.0 - alpha) * (prev - x)
  {
  }

  lemma BetweenByOffsets(v: real, a: real, b: real, k: real, j: real)
    requires v == a + k && v == b - j
    requires a < b ==> k > 0.0 && j > 0.0
    requires b < a ==> k < 0.0 && j < 0.0
    requires a == b ==> k == 0.0
    ensures Between(v, a, b)
  {
  }

  lemma MulPositive(a: real, b: real)
    requires a > 0.0 && b > 0.0
    ensures a * b > 0.0
  {
  }

  /** One call of `filter(x)`: the new memory; its prevX is the value returned.
    * The first sample passes through unchanged with a zero derivative; every later
    * output lies between the previous output and the new sample. */
  function Step(p: FilterParams, m: Memory, x: real): (r: Memory)
    requires ValidParams(p)
    ensures r.prevX.Some? && r.prevDx.Some?
    ensures m.prevX.None? ==> r.prevX.value == x
    ensures m.prevX.Some? ==> Between(r.prevX.value, m.prevX.value, x)
    ensures m == FRESH ==> r == Memory(Some(x), Some(0.0))
  {
    var smoothDx := SmoothedDerivative(p, m, x);
    var alpha := Alpha(Cutoff(p, smoothDx), p.freq);
    var smoothX := if m.prevX.None? then x else Blend(alpha, x, m.prevX.value);
    Memory(Some(smoothX), Some(smoothDx))
  }

  /** Feeding a sequence of samples, one `filter` call each. */
  function Feed(p: FilterParams, m: Memory, xs: seq<real>): (r: Memory)
    requires ValidParams(p)
    ensures xs != [] || m.prevX.Some? ==> r.prevX.Some?
    decreases |xs|
  {
    if xs == [] then m else Feed(p, Step(p, m, xs[0]), xs[1..])
  }

  /** Every sample of xs is x. */
  predicate ConstantInput(xs: seq<real>, x: real) {
    forall i :: 0 <= i < |xs| ==> xs[i] == x
  }

  function Pow(q: real, n: nat): (r: real)
    ensures 0.0 <= q <= 1.0 ==> 0.0 <= r <= 1.0
  {
    if n == 0 then 1.0
    else
      var rest := Pow(q, n - 1);
      assert 0.0 <= q <= 1.0 ==> 0.0 <= q * rest <= 1.0 by {
        if 0.0 <= q <= 1.0 {
          MulMonotone(rest, q, 1.0);
          MulMonotone(q, 0.0, rest);
        }
      }
      q * rest
  }

  /** Once the filter's output equals the input, feeding that input again returns it. */
  lemma FixedPoint(p: FilterParams, m: Memory, x: real)
    requires ValidParams(p) && m.prevX == Some(x)
    ensures Step(p, m, x).prevX == Some(x)
  {
  }

  /** A constant input fed to a fresh filter is reproduced exactly from the first sample on. */
  lemma {:induction false} ConstantFromFresh(p: FilterParams, x: real, xs: seq<real>)
    requires ValidParams(p) && xs != [] && ConstantInput(xs, x)
    ensures Feed(p, FRESH, xs).prevX == Some(x)
  {
    ConstantStays(p, Step(p, FRESH, xs[0]), x, xs[1..]);
  }

  /** Once the output equals a constant input, it stays there. */
  lemma {:induction false} ConstantStays(p: FilterParams, m: Memory, x: real, xs: seq<real>)
    requires ValidParams(p) && m.prevX == Some(x) && ConstantInput(xs, x)
    ensures Feed(p, m, xs).prevX == Some(x)
    decreases |xs|
  {
    if xs != [] {
      FixedPoint(p, m, x);
      ConstantStays(p, Step(p, m, xs[0]), x, xs[1..]);
    }
  }

  /** One sample of a constant input shrinks the distance to it by at least the factor
    * 1 - Alpha(min_cutoff): the smallest smoothing factor the filter can use. */
  lemma StepContracts(p: FilterParams, m: Memory, x: real)
    requires ValidParams(p) && m.prevX.Some?
    ensures Distance(Step(p, m, x), x) <= Contraction(p) * Distance(m, x)
  {
    AlphaMonotone(p.minCutoff, Cutoff(p, SmoothedDerivative(p, m, x)), p.freq);
    ShrinkBy(Alpha(Cutoff(p, SmoothedDerivative(p, m, x)), p.freq), Alpha(p.minCutoff, p.freq),
             m.prevX.value, Step(p, m, x).prevX.value, x);
  }

  /** A blend with factor a >= a0 leaves at most 1 - a0 of the distance to the target. */
  lemma ShrinkBy(a: real, a0: real, prev: real, out: real, x: real)
    requires 0.0 < a0 <= a < 1.0 && out - x == (1.0 - a) * (prev - x)
    ensures Abs(out - x) <= (1.0 - a0) * Abs(prev - x)
  {
    AbsScale(1.0 - a, prev - x);
    assert Abs(out - x) == (1.0 - a) * Abs(prev - x);
    MulMonotone(Abs(prev - x), 1.0 - a, 1.0 - a0);
    assert Abs(prev - x) * (1.0 - a) == (1.0 - a) * Abs(prev - x);
    assert Abs(prev - x) * (1.0 - a0) == (1.0 - a0) * Abs(prev - x);
  }

  lemma AbsScale(k: real, d: real)
    requires k >= 0.0
    ensures Abs(k * d) == k * Abs(d)
  {
    if d < 0.0 {
      assert k * d == -(k * -d);
      MulMonotone(k, 0.0, -d);
    } else {
      MulMonotone(k, 0.0, d);
    }
  }

  /** The distance between the filter's last output and x. */
  function Distance(m: Memory, x: real): real
    requires m.prevX.Some?
  {
    Abs(m.prevX.value - x)
  }

  /** The factor by which one sample of a constant input at least shrinks the distance to it. */
  function Contraction(p: FilterParams): (q: real)
    requires ValidParams(p)
    ensures 0.0 < q < 1.0
  {
    1.0 - Alpha(p.minCutoff, p.freq)
  }

  /** The distance to x after each prefix of xs: ds[k] is the distance after k samples. */
  function Distances(p: FilterParams, m: Memory, x: real, xs: seq<real>): (ds: seq<real>)
    requires ValidParams(p) && m.prevX.Some?
    ensures |ds| == |xs| + 1 && ds[0] == Distance(m, x)
    decreases |xs|
  {
    if xs == [] then [Distance(m, x)]
    else [Distance(m, x)] + Distances(p, Step(p, m, xs[0]), x, xs[1..])
  }

  /** The last distance is the distance after feeding all of xs. */
  lemma {:induction false} DistancesLast(p: FilterParams, m: Memory, x: real, xs: seq<real>)
    requires ValidParams(p) && m.prevX.Some?
    ensures Feed(p, m, xs).prevX.Some?
    ensures Distances(p, m, x, xs)[|xs|] == Distance(Feed(p, m, xs), x)
    decreases |xs|
  {
    if xs != [] {
      DistancesLast(p, Step(p, m, xs[0]), x, xs[1..]);
    }
  }

  /** Under a constant input every sample shrinks the distance by the contraction factor. */
  lemma {:induction false} DistancesContract(p: FilterParams, m: Memory, x: real, xs: seq<real>)
    requires ValidParams(p) && m.prevX.Some? && ConstantInput(xs, x)
    ensures Contracting(Distances(p, m, x, xs), Contraction(p))
    decreases |xs|
  {
    if xs != [] {
      var tail := xs[1..];
      ConstantTail(xs, x);
      var next := Step(p, m, x);
      StepContracts(p, m, x);
      DistancesContract(p, next, x, tail);
      var rest := Distances(p, next, x, tail);
      ContractingCons(Distance(m, x), rest, Contraction(p));
    }
  }

  lemma ConstantTail(xs: seq<real>, x: real)
    requires xs != [] && ConstantInput(xs, x)
    ensures xs[0] == x && ConstantInput(xs[1..], x)
  {
    var tail := xs[1..];
    forall i | 0 <= i < |tail| ensures tail[i] == x { assert tail[i] == xs[i + 1]; }
  }

  lemma ContractingCons(d: real, rest: seq<real>, q: real)
    requires Contracting(rest, q) && rest != [] && rest[0] <= q * d
    ensures Contracting([d] + rest, q)
  {
    var ds := [d] + rest;
    forall k | 0 <= k < |ds| - 1 ensures ds[k + 1] <= q * ds[k] {
      if k > 0 { assert ds[k + 1] == rest[k] && ds[k] == rest[k - 1]; }
    }
  }

  /** Each element of ds is at most q times its predecessor. */
  predicate Contracting(ds: seq<real>, q: real) {
    forall k :: 0 <= k < |ds| - 1 ==> ds[k + 1] <= q * ds[k]
  }

  /** A sequence of non-negative numbers each at most q times its predecessor ends below q^n times its start. */
  lemma {:induction false} GeometricDecay(ds: seq<real>, q: real, n: nat)
    requires 0.0 <= q && n < |ds| && Contracting(ds, q)
    ensures ds[n] <= Pow(q, n) * ds[0]
  {
    if n > 0 {
      GeometricDecay(ds, q, n - 1);
      var pw := Pow(q, n - 1);
      assert pw >= 0.0 by { PowNonNegative(q, n - 1); }
      ChainBound(ds[n - 1], pw, q, ds[n], ds[0]);
    }
  }

  lemma {:induction false} PowNonNegative(q: real, n: nat)
    requires q >= 0.0
    ensures Pow(q, n) >= 0.0
  {
    if n > 0 {
      PowNonNegative(q, n - 1);
      var pw := Pow(q, n - 1);
      assert q * pw >= 0.0 by { MulMonotone(q, 0.0, pw); }
    }
  }

  /** Steady-state tracking: after n samples of a constant input the distance to it is at
    * most Contraction^n times the starting distance, so it tends to zero. */
  lemma {:induction false} ConstantInputConverges(p: FilterParams, m: Memory, x: real, xs: seq<real>)
    requires ValidParams(p) && m.prevX.Some? && ConstantInput(xs, x)
    ensures Feed(p, m, xs).prevX.Some?
    ensures Distance(Feed(p, m, xs), x) <= Pow(Contraction(p), |xs|) * Distance(m, x)
  {
    DistancesDecay(p, m, x, xs);
    DistancesLast(p, m, x, xs);
  }

  lemma {:induction false} DistancesDecay(p: FilterParams, m: Memory, x: real, xs: seq<real>)
    requires ValidParams(p) && m.prevX.Some? && ConstantInput(xs, x)
    ensures Distances(p, m, x, xs)[|xs|] <= Pow(Contraction(p), |xs|) * Distance(m, x)
  {
    DistancesContract(p, m, x, xs);
    GeometricDecay(Distances(p, m, x, xs), Contraction(p), |xs|);
  }

  /** From prev <= pw * d0, next <= q * prev and 0 <= q: next <= (q * pw) * d0. */
  lemma ChainBound(prev: real, pw: real, q: real, next: real, d0: real)
    requires q >= 0.0 && prev <= pw * d0 && next <= q * prev
    ensures next <= (q * pw) * d0
  {
    var pd := pw * d0;
    MulMonotone(q, prev, pd);
    assert q * pd == (q * pw) * d0;
  }

  lemma MulMonotone(k: real, u: real, v: real)
    requires k >= 0.0 && u <= v
    ensures k * u <= k * v
  {
    assert k * v - k * u == k * (v - u);
  }

  /**
   * One scalar axis of the tracker's smoothing: `OneEuroFilter` with its coefficients
   * fixed at construction and its previous value and derivative updated on every call.
   */
  class OneEuroFilter {
    const minCutoff: real
    const beta: real
    const dCutoff: real
    const freq: real
    var prevX: Option<real>
    var prevDx: Option<real>

    function Params(): FilterParams {
      FilterParams(minCutoff, beta, dCutoff, freq)
    }

    function Memo(): Memory
      reads this
    {
      Memory(prevX, prevDx)
    }

    ghost predicate Valid()
      reads this
    {
      ValidParams(Params()) && (prevX.Some? <==> prevDx.Some?)
    }

    constructor (minCutoff: real, beta: real, dCutoff: real, freq: real)
      requires ValidParams(FilterParams(minCutoff, beta, dCutoff, freq))
      ensures Valid()
      ensures Params() == FilterParams(minCutoff, beta, dCutoff, freq)
      ensures Memo() == FRESH
    {
      this.minCutoff := minCutoff;
      this.beta := beta;
      this.dCutoff := dCutoff;
      this.freq := freq;
      prevX := None;
      prevDx := None;
    }

    /** `filter(x)`: returns the smoothed sample and remembers it with its smoothed derivative. */
    method Filter(x: real) returns (smoothX: real)
      requires Valid()
      modifies this
      ensures Valid()
      ensures Memo() == Step(Params(), old(Memo()), x)
      ensures prevX == Some(smoothX)
    {
      ghost var p, m := Params(), Memo();
      var dx := if prevX.None? then 0.0 else (x - prevX.value) * freq;
      assert dx == RawDerivative(p, m, x);
      var smoothDx: real;
      if prevDx.None? {
        smoothDx := dx;
      } else {
        var alphaD := Alpha(dCutoff, freq);
        smoothDx := Blend(alphaD, dx, prevDx.value);
      }
      assert smoothDx == SmoothedDerivative(p, m, x);
      var cutoff := Cutoff(Params(), smoothDx);
      var alpha := Alpha(cutoff, freq);
      if prevX.None? {
        smoothX := x;
      } else {
        smoothX := Blend(alpha, x, prevX.value);
      }
      assert Step(p, m, x) == Memory(Some(smoothX), Some(smoothDx));
      prevX := Some(smoothX);
      prevDx := Some(smoothDx);
    }
  }
}
