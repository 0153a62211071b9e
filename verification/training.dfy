/**
  Training (src/protocol_model/src/AttributeMeter.cpp, `merge`, and
  src/training/src/ProtocolModelUpdater.cpp): a finished flow named in the training
  file is averaged into the meters of its protocol's model.
*/
module Training {
  import opened Packets
  import opened FlowKey
  import opened Meters
  import opened MeterLaws
  import opened ProtocolDb
  import opened Divergence

  /** The mean of `c` earlier values, `f`, and one more. */
  function Blend(f: real, c: nat, x: real): real {
    (f * c as real + x) / (c + 1) as real
  }

  /** A meter of the database takes in an observed one of the same name. */
  function Merged(m: MeterModel, other: Meter): MeterModel
    requires m.flowCount + 1 < TWO_TO_THE_32
  {
    if other.kind.Name() != m.name then m
    else m.(fingerprint := seq(|m.fingerprint|, i requires 0 <= i < |m.fingerprint| => Blend(m.fingerprint[i], m.flowCount, other.At(i))),
            flowCount := m.flowCount + 1)
  }

  ghost predicate AllNamed(others: seq<Meter>, name: string) {
    forall k :: 0 <= k < |others| ==> others[k].kind.Name() == name
  }

  function MergeAll(m: MeterModel, others: seq<Meter>): (r: MeterModel)
    requires m.flowCount + |others| < TWO_TO_THE_32
    ensures r.flowCount <= m.flowCount + |others| && |r.fingerprint| == |m.fingerprint| && r.name == m.name
  {
    if others == [] then m else Merged(MergeAll(m, others[..|others| - 1]), others[|others| - 1])
  }

  function SumAt(others: seq<Meter>, i: nat): real {
    if others == [] then 0.0 else SumAt(others[..|others| - 1], i) + others[|others| - 1].At(i)
  }

  // ---------- merging is averaging ----------

  /** A value as often as it counts. */
  function Weighted(f: real, n: nat): real {
    f * n as real
  }

  lemma BlendWeighs(f: real, c: nat, x: real)
    ensures Weighted(Blend(f, c, x), c + 1) == Weighted(f, c) + x
  {
    QuotientTimes(f * c as real + x, (c + 1) as real);
  }

  lemma MergedAt(m: MeterModel, other: Meter, i: nat)
    requires m.flowCount + 1 < TWO_TO_THE_32 && i < |m.fingerprint| && other.kind.Name() == m.name
    ensures Merged(m, other).fingerprint[i] == Blend(m.fingerprint[i], m.flowCount, other.At(i))
    ensures Merged(m, other).flowCount == m.flowCount + 1
  {
    hide Blend, Meter.At, Kind.Name;
  }

  lemma {:induction false} MergesAddUp(m: MeterModel, others: seq<Meter>, i: nat)
    requires m.flowCount + |others| < TWO_TO_THE_32 && i < |m.fingerprint| && AllNamed(others, m.name)
    ensures var r := MergeAll(m, others);
            && r.flowCount == m.flowCount + |others|
            && Weighted(r.fingerprint[i], m.flowCount + |others|) == Weighted(m.fingerprint[i], m.flowCount) + SumAt(others, i)
  {
    hide Blend, Weighted, Merged, Meter.At, Kind.Name;
    if others != [] {
      var n := |others| - 1;
      MergesAddUp(m, others[..n], i);
      var before := MergeAll(m, others[..n]);
      MergedAt(before, others[n], i);
      BlendWeighs(before.fingerprint[i], before.flowCount, others[n].At(i));
    }
  }

  /** The mean of `c` times `f` and of further values with this sum, `n` values in all. */
  function Mean(f: real, c: nat, sum: real, n: nat): real
    requires n > 0
  {
    (f * c as real + sum) / n as real
  }

  /** After any merges a fingerprint is the mean of its first value, as often as it counted then,
      and of everything merged since. */
  lemma MergingIsAveraging(m: MeterModel, others: seq<Meter>, i: nat)
    requires m.flowCount + |others| < TWO_TO_THE_32 && i < |m.fingerprint| && AllNamed(others, m.name)
    ensures var r, n := MergeAll(m, others), m.flowCount + |others|;
            && r.flowCount == n
            && (n > 0 ==> r.fingerprint[i] == Mean(m.fingerprint[i], m.flowCount, SumAt(others, i), n))
  {
    hide MergeAll, SumAt;
    MergesAddUp(m, others, i);
    Isolate(MergeAll(m, others).fingerprint[i], m.flowCount + |others|, m.fingerprint[i] * m.flowCount as real + SumAt(others, i));
  }

  lemma Isolate(x: real, n: nat, s: real)
    requires x * n as real == s
    ensures n > 0 ==> x == s / n as real
  {
  }

  // ---------- in any order ----------

  lemma {:induction false} SumWithout(others: seq<Meter>, k: nat, i: nat)
    requires k < |others|
    ensures SumAt(others, i) == SumAt(others[..k] + others[k + 1..], i) + others[k].At(i)
  {
    hide Meter.At;
    var n := |others| - 1;
    if k < n {
      SumWithout(others[..n], k, i);
      assert (others[..k] + others[k + 1..])[..n - 1] == others[..n][..k] + others[..n][k + 1..];
    } else {
      assert others[..k] + others[k + 1..] == others[..n];
    }
  }

  lemma TakeOut<T>(b: seq<T>, k: nat)
    requires k < |b|
    ensures multiset(b) == multiset(b[..k] + b[k + 1..]) + multiset{b[k]}
  {
    var l, r := b[..k], b[k + 1..];
    assert b == l + ([b[k]] + r);
  }

  lemma TakeAway<T>(a: multiset<T>, b: multiset<T>, x: T)
    requires a + multiset{x} == b + multiset{x}
    ensures a == b
  {
    assert a + multiset{x} - multiset{x} == a && b + multiset{x} - multiset{x} == b;
  }

  lemma SameWithout<T>(a: seq<T>, b: seq<T>, k: nat)
    requires a != [] && k < |b| && multiset(a) == multiset(b) && b[k] == a[|a| - 1]
    ensures multiset(a[..|a| - 1]) == multiset(b[..k] + b[k + 1..])
  {
    var n := |a| - 1;
    TakeOut(a, n);
    TakeOut(b, k);
    assert a[..n] + a[n + 1..] == a[..n];
    TakeAway(multiset(a[..n]), multiset(b[..k] + b[k + 1..]), b[k]);
  }

  lemma {:induction false} SumInAnyOrder(a: seq<Meter>, b: seq<Meter>, i: nat)
    requires multiset(a) == multiset(b)
    ensures SumAt(a, i) == SumAt(b, i)
  {
    hide Meter.At;
    if a == [] {
      assert |multiset(b)| == 0;
    } else {
      var n := |a| - 1;
      assert a[n] in multiset(b);
      var k :| 0 <= k < |b| && b[k] == a[n];
      SameWithout(a, b, k);
      SumInAnyOrder(a[..n], b[..k] + b[k + 1..], i);
      SumWithout(b, k, i);
    }
  }

  /** The order of merging does not matter. */
  lemma MergingOrderIsIrrelevant(m: MeterModel, a: seq<Meter>, b: seq<Meter>)
    requires multiset(a) == multiset(b) && m.flowCount + |a| < TWO_TO_THE_32 && AllNamed(a, m.name)
    ensures |a| == |b| && MergeAll(m, a) == MergeAll(m, b)
  {
    hide MergeAll, SumAt, Kind.Name;
    assert |multiset(a)| == |multiset(b)|;
    forall k | 0 <= k < |b| ensures b[k].kind.Name() == m.name {
      assert b[k] in multiset(a);
    }
    MergedShape(m, a);
    MergedShape(m, b);
    var r, s := MergeAll(m, a), MergeAll(m, b);
    forall i | 0 <= i < |m.fingerprint| ensures r.fingerprint[i] == s.fingerprint[i] {
      MergingIsAveraging(m, a, i);
      MergingIsAveraging(m, b, i);
      SumInAnyOrder(a, b, i);
      if m.flowCount + |a| == 0 {
        NothingMerged(m);
      }
    }
  }

  lemma NothingMerged(m: MeterModel)
    requires m.flowCount < TWO_TO_THE_32
    ensures MergeAll(m, []) == m
  {
  }

  /** Merging touches nothing but the fingerprint and the count. */
  lemma {:induction false} MergedShape(m: MeterModel, others: seq<Meter>)
    requires m.flowCount + |others| < TWO_TO_THE_32 && AllNamed(others, m.name)
    ensures var r := MergeAll(m, others);
            r == m.(fingerprint := r.fingerprint, flowCount := m.flowCount + |others|) && |r.fingerprint| == |m.fingerprint|
  {
    hide Blend, Kind.Name;
    if others != [] {
      MergedShape(m, others[..|others| - 1]);
    }
  }

  // ---------- what merging keeps ----------

  lemma BlendOfNothing(f: real, x: real)
    ensures Blend(f, 0, x) == x
  {
  }

  lemma BlendStaysBetween(f: real, c: nat, x: real)
    requires (c > 0 ==> 0.0 <= f <= 1.0) && 0.0 <= x <= 1.0
    ensures 0.0 <= Blend(f, c, x) <= 1.0
  {
    if c == 0 {
      BlendOfNothing(f, x);
    } else {
      var s, t := f * c as real + x, (c + 1) as real;
      ProductNonNegative(f, c as real);
      ProductNonNegative(1.0 - f, c as real);
      QuotientNonNegative(s, t);
      QuotientNonNegative(t - s, t);
      QuotientOfSum(s, t - s, t);
      QuotientIsOne(t, t);
    }
  }

  /** Probabilities stay probabilities; what a meter held that counted for nothing does not matter. */
  lemma {:induction false} MergingKeepsBounds(m: MeterModel, others: seq<Meter>, i: nat)
    requires m.flowCount + |others| < TWO_TO_THE_32 && i < |m.fingerprint| && AllNamed(others, m.name)
    requires m.flowCount > 0 ==> 0.0 <= m.fingerprint[i] <= 1.0
    requires forall k :: 0 <= k < |others| ==> 0.0 <= others[k].At(i) <= 1.0
    ensures m.flowCount + |others| > 0 ==> 0.0 <= MergeAll(m, others).fingerprint[i] <= 1.0
  {
    hide Blend, Meter.At, Kind.Name;
    if others != [] {
      var n := |others| - 1;
      MergingKeepsBounds(m, others[..n], i);
      MergedShape(m, others[..n]);
      var before := MergeAll(m, others[..n]);
      MergedAt(before, others[n], i);
      BlendStaysBetween(before.fingerprint[i], before.flowCount, others[n].At(i));
    }
  }

  lemma {:induction false} SumOfBlends(f: seq<real>, c: nat, x: seq<real>, r: seq<real>)
    requires |f| == |x| == |r| && forall i :: 0 <= i < |r| ==> r[i] == Blend(f[i], c, x[i])
    ensures Weighted(Sum(r), c + 1) == Weighted(Sum(f), c) + Sum(x)
  {
    hide Blend, Weighted;
    if r == [] {
      WeightedNothing(c);
    } else {
      var n := |r| - 1;
      SumOfBlends(f[..n], c, x[..n], r[..n]);
      BlendWeighs(f[n], c, x[n]);
      WeightedSum(Sum(r[..n]), r[n], c + 1);
      WeightedSum(Sum(f[..n]), f[n], c);
    }
  }

  lemma WeightedNothing(c: nat)
    ensures Weighted(0.0, c) == 0.0
    ensures Weighted(0.0, c + 1) == 0.0
  {
  }

  lemma WeightedSum(a: real, b: real, n: nat)
    ensures Weighted(a + b, n) == Weighted(a, n) + Weighted(b, n)
  {
  }

  lemma WeightedOne(x: real, y: real, c: nat)
    requires Weighted(x, c + 1) == Weighted(y, c) + 1.0 && (c > 0 ==> y == 1.0)
    ensures x == 1.0
  {
    QuotientIsOne(x * (c + 1) as real, (c + 1) as real);
  }

  /** Merging one distribution into another gives a distribution. */
  lemma MergeKeepsDistribution(m: MeterModel, other: Meter)
    requires m.flowCount + 1 < TWO_TO_THE_32 && other.Valid() && other.kind.Name() == m.name && |m.fingerprint| == |other.fingerprint|
    requires (m.flowCount > 0 ==> IsDistribution(m.fingerprint)) && IsDistribution(other.Probabilities())
    ensures IsDistribution(Merged(m, other).fingerprint)
  {
    hide Blend, Weighted, Meter.At, Kind.Name, Kind.Slots, Sum;
    var r, x := Merged(m, other).fingerprint, other.Probabilities();
    forall i | 0 <= i < |r| ensures r[i] == Blend(m.fingerprint[i], m.flowCount, x[i]) && r[i] >= 0.0 {
      BlendIsNonNegative(m.fingerprint[i], m.flowCount, x[i]);
    }
    SumOfBlends(m.fingerprint, m.flowCount, x, r);
    WeightedOne(Sum(r), Sum(m.fingerprint), m.flowCount);
  }

  lemma BlendIsNonNegative(f: real, c: nat, x: real)
    requires (c > 0 ==> f >= 0.0) && x >= 0.0
    ensures Blend(f, c, x) >= 0.0
  {
    if c == 0 {
      BlendOfNothing(f, x);
    } else {
      ProductNonNegative(f, c as real);
      QuotientNonNegative(f * c as real + x, (c + 1) as real);
    }
  }

  /** Distributions merged into a distribution, or into a meter that counted for nothing, give a distribution. */
  lemma {:induction false} MergingKeepsDistributions(m: MeterModel, others: seq<Meter>)
    requires m.flowCount + |others| < TWO_TO_THE_32 && AllNamed(others, m.name)
    requires m.flowCount > 0 ==> IsDistribution(m.fingerprint)
    requires forall k :: 0 <= k < |others| ==>
                           others[k].Valid() && |others[k].fingerprint| == |m.fingerprint| && IsDistribution(others[k].Probabilities())
    ensures m.flowCount + |others| > 0 ==> IsDistribution(MergeAll(m, others).fingerprint)
  {
    hide Merged, IsDistribution, Kind.Name, Meter.Valid, Meter.Probabilities;
    if others != [] {
      var n := |others| - 1;
      MergingKeepsDistributions(m, others[..n]);
      MergedShape(m, others[..n]);
      MergeKeepsDistribution(MergeAll(m, others[..n]), others[n]);
    }
  }
}
