/**
  The Kullback-Leibler divergence between an observed meter and a model's
  (src/common/src/Flow.cpp, constants from src/protocol_model/src/AttributeMeter.cpp).

  The base-2 logarithm is a parameter.  `IsLog2` lists what is used of it; the
  real logarithm has these properties with c = 1 / ln 2.
*/
module Divergence {
  import opened Wrappers
  import opened MeterLaws

  /** The multiplier and the increment that keep probabilities away from zero. */
  function Noise(n: nat): real {
    1.0 / (n as real + 1.0)
  }

  function Smooth(x: real, n: nat): real {
    x * Noise(n) + Noise(n)
  }

  function Smoothed(v: seq<real>): (s: seq<real>)
    ensures |s| == |v|
  {
    seq(|v|, i requires 0 <= i < |v| => Smooth(v[i], |v|))
  }

  function Term(log2: real -> real, p: real, q: real): real {
    if q > 0.0 then p * log2(p / q) else 0.0
  }

  /** The sum over the positions of two equally long vectors. */
  function KlSum(log2: real -> real, p: seq<real>, q: seq<real>): real
    requires |p| == |q|
  {
    if p == [] then 0.0
    else
      var n := |p| - 1;
      KlSum(log2, p[..n], q[..n]) + Term(log2, p[n], q[n])
  }

  /** The divergence of one meter: the smoothed sum, its sign dropped. */
  function MeterDivergence(log2: real -> real, observed: seq<real>, model: seq<real>): (d: real)
    requires |observed| == |model|
    ensures d >= 0.0
  {
    var sum := KlSum(log2, Smoothed(observed), Smoothed(model));
    if sum < 0.0 then sum * -1.0 else sum
  }

  ghost predicate IsLog2(log2: real -> real, c: real) {
    && c > 0.0
    && log2(1.0) == 0.0
    && (forall x :: x > 0.0 ==> log2(1.0 / x) == -log2(x))
    && (forall x :: x > 0.0 && x != 1.0 ==> log2(x) < c * (x - 1.0))
  }

  ghost predicate Positive(v: seq<real>) {
    forall i :: 0 <= i < |v| ==> v[i] > 0.0
  }

  // ---------- smoothing keeps distributions distributions ----------

  lemma NoiseIsPositive(n: nat)
    ensures Noise(n) > 0.0
    ensures (n as real + 1.0) * Noise(n) == 1.0
  {
    QuotientTimes(1.0, n as real + 1.0);
    QuotientNonNegative(1.0, n as real + 1.0);
  }

  lemma SmoothIsPositive(x: real, n: nat)
    requires x >= 0.0
    ensures Smooth(x, n) > 0.0
  {
    NoiseIsPositive(n);
    ProductNonNegative(x, Noise(n));
  }

  lemma ProductNonNegative(x: real, y: real)
    requires x >= 0.0 && y >= 0.0
    ensures x * y >= 0.0
  {
  }

  lemma SmoothIsInjective(x: real, y: real, n: nat)
    requires Smooth(x, n) == Smooth(y, n)
    ensures x == y
  {
    NoiseIsPositive(n);
    CancelFactor(x, y, Noise(n));
  }

  lemma {:induction false} SumOfAffine(v: seq<real>, w: seq<real>, k: real)
    requires |w| == |v| && forall i :: 0 <= i < |v| ==> w[i] == v[i] * k + k
    ensures Sum(w) == (Sum(v) + |v| as real) * k
  {
    if v != [] {
      var n := |v| - 1;
      SumOfAffine(v[..n], w[..n], k);
      assert (Sum(v[..n]) + n as real) * k + (v[n] * k + k) == (Sum(v[..n]) + v[n] + n as real + 1.0) * k;
    }
  }

  /** Smoothing turns a distribution into one without zeros. */
  lemma SmoothedIsAPositiveDistribution(v: seq<real>)
    requires IsDistribution(v)
    ensures Positive(Smoothed(v)) && Sum(Smoothed(v)) == 1.0
  {
    hide Smooth;
    forall i | 0 <= i < |v| ensures Smoothed(v)[i] > 0.0 {
      SmoothIsPositive(v[i], |v|);
    }
    forall i | 0 <= i < |v| ensures Smoothed(v)[i] == v[i] * Noise(|v|) + Noise(|v|) {
      SmoothIsAffine(v[i], |v|);
    }
    SumOfAffine(v, Smoothed(v), Noise(|v|));
    NoiseIsPositive(|v|);
  }

  lemma SmoothIsAffine(x: real, n: nat)
    ensures Smooth(x, n) == x * Noise(n) + Noise(n)
  {
  }

  lemma SmoothedIsInjective(v: seq<real>, w: seq<real>)
    requires |v| == |w| && Smoothed(v) == Smoothed(w)
    ensures v == w
  {
    hide Smooth;
    forall i | 0 <= i < |v| ensures v[i] == w[i] {
      assert Smoothed(v)[i] == Smoothed(w)[i];
      SmoothIsInjective(v[i], w[i], |v|);
    }
  }

  // ---------- Gibbs' inequality ----------

  lemma QuotientIsPositive(p: real, q: real)
    requires p > 0.0 && q > 0.0
    ensures p / q > 0.0 && 1.0 / (p / q) == q / p
    ensures q / p == 1.0 <==> p == q
    ensures p * (q / p) == q
  {
  }

  /** The line that bounds a term from below. */
  ghost function Tangent(c: real, p: real, q: real): real {
    c * (p - q)
  }

  lemma TangentsAdd(c: real, p: real, q: real, p': real, q': real)
    ensures Tangent(c, p, q) + Tangent(c, p', q') == Tangent(c, p + p', q + q')
    ensures Tangent(c, p, p) == 0.0
  {
  }

  /** Each term lies above its tangent, and strictly so unless p = q. */
  lemma TermIsAboveItsTangent(log2: real -> real, c: real, p: real, q: real)
    requires IsLog2(log2, c) && p > 0.0 && q > 0.0
    ensures p == q ==> Term(log2, p, q) == 0.0
    ensures p != q ==> Term(log2, p, q) > Tangent(c, p, q)
  {
    QuotientIsPositive(p, q);
    var x, y := p / q, q / p;
    if p == q {
      assert x == 1.0;
    } else {
      QuotientIsPositive(q, p);
      assert log2(1.0 / x) == -log2(x);
      assert log2(y) < c * (y - 1.0);
      ScaleUp(p, log2(x), c, y, q);
    }
  }

  lemma ScaleUp(p: real, l: real, c: real, y: real, q: real)
    requires p > 0.0 && -l < c * (y - 1.0) && p * y == q
    ensures p * l > c * (p - q)
  {
    var slack := l + c * (y - 1.0);
    assert p * slack > 0.0;
    assert p * slack == p * l + c * (p * y) - c * p;
  }

  lemma {:induction false} SumIsAboveItsTangent(log2: real -> real, c: real, p: seq<real>, q: seq<real>)
    requires IsLog2(log2, c) && |p| == |q| && Positive(p) && Positive(q)
    ensures p == q ==> KlSum(log2, p, q) == 0.0
    ensures p != q ==> KlSum(log2, p, q) > Tangent(c, Sum(p), Sum(q))
  {
    hide IsLog2, Term, Tangent;
    if p != [] {
      var n := |p| - 1;
      SumIsAboveItsTangent(log2, c, p[..n], q[..n]);
      TermIsAboveItsTangent(log2, c, p[n], q[n]);
      assert p == p[..n] + [p[n]] && q == q[..n] + [q[n]];
      TangentsAdd(c, Sum(p[..n]), Sum(q[..n]), p[n], q[n]);
      TangentsAdd(c, p[n], q[n], Sum(p[..n]), Sum(p[..n]));
    }
  }

  /** For distributions the sum is never negative, so its sign is never flipped, and the
      divergence vanishes exactly when observation and model agree. */
  lemma DivergenceOfDistributions(log2: real -> real, c: real, observed: seq<real>, model: seq<real>)
    requires IsLog2(log2, c) && |observed| == |model|
    requires IsDistribution(observed) && IsDistribution(model)
    ensures MeterDivergence(log2, observed, model) == KlSum(log2, Smoothed(observed), Smoothed(model)) >= 0.0
    ensures MeterDivergence(log2, observed, model) == 0.0 <==> observed == model
  {
    hide IsLog2, Smoothed, Tangent;
    var p, q := Smoothed(observed), Smoothed(model);
    SmoothedIsAPositiveDistribution(observed);
    SmoothedIsAPositiveDistribution(model);
    SumIsAboveItsTangent(log2, c, p, q);
    TangentsAdd(c, 1.0, 1.0, 1.0, 1.0);
    if p == q {
      SmoothedIsInjective(observed, model);
    }
  }
}
