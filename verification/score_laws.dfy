/**
  What a model scores against a flow: the sum over its enabled meters of a logarithmic
  distance, written out here without the steps by which the program gets there.
*/
module ScoreLaws {
  import opened Meters
  import opened MeterLaws
  import opened Divergence
  import opened Classifier
  import opened ProtocolDb
  import opened ProtocolDbLaws
  import opened Wrappers
  import opened Packets
  import opened FlowControl
  import opened FlowLaws
  import opened FlowModel
  import Training

  // ---------- the distance between a meter and a model's ----------

  /** One position of two vectors of length `n`, observed and stored. */
  function LogTerm(log2: real -> real, p: real, q: real, n: nat): real {
    if q > -1.0 then (p + 1.0) / (n + 1) as real * log2((p + 1.0) / (q + 1.0)) else 0.0
  }

  function LogTerms(log2: real -> real, observed: seq<real>, model: seq<real>): (v: seq<real>)
    requires |observed| == |model|
    ensures |v| == |model|
  {
    seq(|model|, i requires 0 <= i < |model| => LogTerm(log2, observed[i], model[i], |model|))
  }

  function Magnitude(x: real): real {
    if x < 0.0 then -x else x
  }

  lemma SmoothIsAQuotient(x: real, n: nat)
    ensures Smooth(x, n) == (x + 1.0) / (n + 1) as real
    ensures Smooth(x, n) == (x + 1.0) * Noise(n) && Noise(n) > 0.0
  {
    NoiseIsPositive(n);
    var t := (n + 1) as real;
    assert t == n as real + 1.0;
    assert Smooth(x, n) == (x + 1.0) * Noise(n);
    QuotientIsProduct(x + 1.0, Noise(n), t);
  }

  lemma QuotientIsProduct(x: real, k: real, t: real)
    requires t != 0.0 && t * k == 1.0
    ensures x * k == x / t
  {
    assert x == x * (t * k);
    assert x == (x * k) * t;
  }

  lemma TermIsLogTerm(log2: real -> real, p: real, q: real, n: nat)
    ensures Term(log2, Smooth(p, n), Smooth(q, n)) == LogTerm(log2, p, q, n)
  {
    hide Smooth, Noise;
    SmoothIsAQuotient(p, n);
    SmoothIsAQuotient(q, n);
    FactorKeepsSign(q + 1.0, Noise(n));
    if q > -1.0 {
      FactorCancels(p + 1.0, q + 1.0, Noise(n));
      assert Smooth(p, n) / Smooth(q, n) == (p + 1.0) / (q + 1.0);
    }
  }

  lemma FactorKeepsSign(x: real, k: real)
    requires k > 0.0
    ensures x * k > 0.0 <==> x > 0.0
  {
  }

  lemma FactorCancels(x: real, y: real, k: real)
    requires y > 0.0 && k > 0.0
    ensures y * k > 0.0 && (x * k) / (y * k) == x / y
  {
    assert x / y * (y * k) == x * k;
  }

  lemma {:induction false} KlSumIsASum(log2: real -> real, p: seq<real>, q: seq<real>, v: seq<real>)
    requires |p| == |q| == |v| && forall i :: 0 <= i < |v| ==> v[i] == Term(log2, p[i], q[i])
    ensures KlSum(log2, p, q) == Sum(v)
  {
    hide Term;
    if v != [] {
      var n := |v| - 1;
      KlSumIsASum(log2, p[..n], q[..n], v[..n]);
    }
  }

  /** The divergence of a meter is the magnitude of the sum of its terms. */
  lemma DivergenceIsAMagnitude(log2: real -> real, observed: seq<real>, model: seq<real>)
    requires |observed| == |model|
    ensures MeterDivergence(log2, observed, model) == Magnitude(Sum(LogTerms(log2, observed, model)))
  {
    hide Term, LogTerm, Smooth, KlSum, Sum;
    var n, v := |model|, LogTerms(log2, observed, model);
    forall i | 0 <= i < n ensures v[i] == Term(log2, Smoothed(observed)[i], Smoothed(model)[i]) {
      TermIsLogTerm(log2, observed[i], model[i], n);
    }
    KlSumIsASum(log2, Smoothed(observed), Smoothed(model), v);
  }

  // ---------- the score of a model ----------

  /** The distance between a meter of a flow and the fingerprint of a model's. */
  ghost function Distance(log2: real -> real, m: Meter, fingerprint: seq<real>): real {
    var n := |fingerprint|;
    Magnitude(Sum(seq(n, i requires 0 <= i < n => LogTerm(log2, m.At(i), fingerprint[i], n))))
  }

  lemma DivergenceIsTheDistance(log2: real -> real, m: Meter, fingerprint: seq<real>)
    ensures MeterDivergence(log2, Observed(m, |fingerprint|), fingerprint) == Distance(log2, m, fingerprint)
  {
    hide MeterDivergence, LogTerm, Sum, Magnitude;
    var n, observed := |fingerprint|, Observed(m, |fingerprint|);
    DivergenceIsAMagnitude(log2, observed, fingerprint);
    assert LogTerms(log2, observed, fingerprint) == seq(n, i requires 0 <= i < n => LogTerm(log2, m.At(i), fingerprint[i], n));
  }

  /** What one meter of a model adds to its score. */
  ghost predicate Adds(log2: real -> real, meters: seq<Meter>, m: MeterModel, x: real) {
    if !m.enabled then x == 0.0
    else exists k :: 0 <= k < |meters| && meters[k].kind.Name() == m.name
                     && x == Distance(log2, meters[k], m.fingerprint)
  }

  /** A model's score is the sum of what its meters add. */
  lemma {:induction false} ScoreIsASum(log2: real -> real, meters: seq<Meter>, model: Model, n: nat, v: seq<real>)
    requires n <= |model.meters| && MetersCover(meters, model) && KindsDiffer(meters)
    requires |v| == n && forall a :: 0 <= a < n ==> Adds(log2, meters, model.meters[a], v[a])
    ensures ModelDivergence(log2, meters, model, n) == Sum(v)
  {
    hide MeterDivergence, Distance, Observed, Kind.Name, FindMeter;
    if n > 0 {
      ScoreIsASum(log2, meters, model, n - 1, v[..n - 1]);
      var m := model.meters[n - 1];
      assert Adds(log2, meters, m, v[n - 1]);
      if m.enabled {
        DivergenceIsTheDistance(log2, meters[FindMeter(meters, m.name)], m.fingerprint);
      }
    }
  }

  ghost predicate KindsDiffer(meters: seq<Meter>) {
    forall j, k :: 0 <= j < k < |meters| ==> meters[j].kind.Name() != meters[k].kind.Name()
  }

  /** What a meter adds, and all of them in turn. */
  ghost function Share(log2: real -> real, meters: seq<Meter>, m: MeterModel): (x: real)
    requires m.enabled ==> exists k :: 0 <= k < |meters| && meters[k].kind.Name() == m.name
    ensures Adds(log2, meters, m, x)
  {
    hide Distance, Kind.Name, FindMeter;
    if m.enabled then Distance(log2, meters[FindMeter(meters, m.name)], m.fingerprint) else 0.0
  }

  ghost function Shares(log2: real -> real, meters: seq<Meter>, model: Model): (v: seq<real>)
    requires MetersCover(meters, model)
    ensures |v| == |model.meters|
  {
    seq(|model.meters|, a requires 0 <= a < |model.meters| => Share(log2, meters, model.meters[a]))
  }

  lemma ScoreIsTheSumOfShares(log2: real -> real, meters: seq<Meter>, model: Model)
    requires MetersCover(meters, model) && KindsDiffer(meters)
    ensures ModelDivergence(log2, meters, model, |model.meters|) == Sum(Shares(log2, meters, model))
  {
    hide MetersCover, KindsDiffer, Adds, Share, ModelDivergence, Sum;
    assert forall a :: 0 <= a < |model.meters| && model.meters[a].enabled ==>
                         exists k :: 0 <= k < |meters| && meters[k].kind.Name() == model.meters[a].name by { CoveredMeters(meters, model); }
    ScoreIsASum(log2, meters, model, |model.meters|, Shares(log2, meters, model));
  }

  lemma CoveredMeters(meters: seq<Meter>, model: Model)
    requires MetersCover(meters, model)
    ensures forall a :: 0 <= a < |model.meters| && model.meters[a].enabled ==>
                          exists k :: 0 <= k < |meters| && meters[k].kind.Name() == model.meters[a].name
  {
  }

  lemma {:induction false} SumOfBoth(v: seq<real>, w: seq<real>)
    ensures Sum(v + w) == Sum(v) + Sum(w)
  {
    if w == [] {
      assert v + w == v;
    } else {
      var n := |w| - 1;
      assert (v + w)[..|v| + n] == v + w[..n];
      SumOfBoth(v, w[..n]);
    }
  }

  lemma PartsAreCovered(meters: seq<Meter>, model: Model, a: seq<MeterModel>, b: seq<MeterModel>)
    requires MetersCover(meters, model) && model.meters == a + b
    ensures MetersCover(meters, model.(meters := a)) && MetersCover(meters, model.(meters := b))
  {
    hide Kind.Name;
    assert forall i :: 0 <= i < |a| ==> model.meters[i] == a[i];
    assert forall i :: 0 <= i < |b| ==> model.meters[|a| + i] == b[i];
  }

  lemma SharesOfBoth(log2: real -> real, meters: seq<Meter>, model: Model, a: seq<MeterModel>, b: seq<MeterModel>)
    requires MetersCover(meters, model) && model.meters == a + b
    requires MetersCover(meters, model.(meters := a)) && MetersCover(meters, model.(meters := b))
    ensures Shares(log2, meters, model) == Shares(log2, meters, model.(meters := a)) + Shares(log2, meters, model.(meters := b))
  {
    hide Share, Kind.Name;
    assert forall i :: 0 <= i < |a| ==> model.meters[i] == a[i];
    assert forall i :: 0 <= i < |b| ==> model.meters[|a| + i] == b[i];
  }

  /** A model scores what its parts score together. */
  lemma PartsAddUp(log2: real -> real, meters: seq<Meter>, model: Model, a: seq<MeterModel>, b: seq<MeterModel>)
    requires MetersCover(meters, model) && KindsDiffer(meters) && model.meters == a + b
    ensures var front, back := model.(meters := a), model.(meters := b);
            && MetersCover(meters, front) && MetersCover(meters, back)
            && ModelDivergence(log2, meters, model, |model.meters|)
               == ModelDivergence(log2, meters, front, |a|) + ModelDivergence(log2, meters, back, |b|)
  {
    hide MetersCover, KindsDiffer, Shares, ModelDivergence, Sum;
    PartsAreCovered(meters, model, a, b);
    var front, back := model.(meters := a), model.(meters := b);
    ScoreIsTheSumOfShares(log2, meters, model);
    ScoreIsTheSumOfShares(log2, meters, front);
    ScoreIsTheSumOfShares(log2, meters, back);
    SharesOfBoth(log2, meters, model, a, b);
    SumOfBoth(Shares(log2, meters, front), Shares(log2, meters, back));
  }

  lemma {:induction false} SumWithout(v: seq<real>, k: nat)
    requires k < |v|
    ensures Sum(v) == Sum(v[..k] + v[k + 1..]) + v[k]
  {
    var n := |v| - 1;
    if k < n {
      SumWithout(v[..n], k);
      assert (v[..k] + v[k + 1..])[..n - 1] == v[..n][..k] + v[..n][k + 1..];
    } else {
      assert v[..k] + v[k + 1..] == v[..n];
    }
  }

  lemma {:induction false} SumInAnyOrder(v: seq<real>, w: seq<real>)
    requires multiset(v) == multiset(w)
    ensures Sum(v) == Sum(w)
  {
    if v == [] {
      assert |multiset(w)| == 0;
    } else {
      var n := |v| - 1;
      assert v[n] in multiset(w);
      var k :| 0 <= k < |w| && w[k] == v[n];
      Training.SameWithout(v, w, k);
      SumInAnyOrder(v[..n], w[..k] + w[k + 1..]);
      SumWithout(w, k);
    }
  }

  lemma SharesWithout(log2: real -> real, meters: seq<Meter>, model: Model, k: nat)
    requires MetersCover(meters, model) && k < |model.meters|
    ensures var rest := model.(meters := model.meters[..k] + model.meters[k + 1..]);
            && MetersCover(meters, rest)
            && Sum(Shares(log2, meters, model)) == Sum(Shares(log2, meters, rest)) + Share(log2, meters, model.meters[k])
  {
    hide Share, Sum, Kind.Name;
    var rest := model.(meters := model.meters[..k] + model.meters[k + 1..]);
    var v := Shares(log2, meters, model);
    assert forall a :: 0 <= a < |rest.meters| ==> rest.meters[a] == model.meters[if a < k then a else a + 1];
    assert Shares(log2, meters, rest) == v[..k] + v[k + 1..];
    SumWithout(v, k);
  }

  lemma {:induction false} SharesInAnyOrder(log2: real -> real, meters: seq<Meter>, a: Model, b: Model)
    requires MetersCover(meters, a) && MetersCover(meters, b) && multiset(a.meters) == multiset(b.meters)
    ensures Sum(Shares(log2, meters, a)) == Sum(Shares(log2, meters, b))
    decreases |a.meters|
  {
    hide Share, Sum, MetersCover;
    if a.meters == [] {
      assert |multiset(b.meters)| == 0;
      assert Shares(log2, meters, a) == Shares(log2, meters, b);
    } else {
      var n := |a.meters| - 1;
      assert a.meters[n] in multiset(b.meters);
      var k :| 0 <= k < |b.meters| && b.meters[k] == a.meters[n];
      Training.SameWithout(a.meters, b.meters, k);
      SharesWithout(log2, meters, a, n);
      SharesWithout(log2, meters, b, k);
      assert a.meters[..n] + a.meters[n + 1..] == a.meters[..n];
      SharesInAnyOrder(log2, meters, a.(meters := a.meters[..n]), b.(meters := b.meters[..k] + b.meters[k + 1..]));
    }
  }

  /** The order of a model's meters does not matter. */
  lemma MeterOrderIsIrrelevant(log2: real -> real, meters: seq<Meter>, a: Model, b: Model)
    requires MetersCover(meters, a) && MetersCover(meters, b) && KindsDiffer(meters) && multiset(a.meters) == multiset(b.meters)
    ensures ModelDivergence(log2, meters, a, |a.meters|) == ModelDivergence(log2, meters, b, |b.meters|)
  {
    hide MetersCover, KindsDiffer, ModelDivergence, Sum, Shares;
    ScoreIsTheSumOfShares(log2, meters, a);
    ScoreIsTheSumOfShares(log2, meters, b);
    SharesInAnyOrder(log2, meters, a, b);
  }

  // ---------- the scores of a packet ----------

  /** The scores of the enabled models in some order. */
  ghost function ScoresInOrder(env: Env, meters: seq<Meter>, order: seq<nat>): seq<Score>
    requires AllCovered(env, meters) && forall i :: 0 <= i < |order| ==> order[i] < |env.db.order|
  {
    if order == [] then []
    else
      var model := env.db.order[order[|order| - 1]];
      ScoresInOrder(env, meters, order[..|order| - 1])
      + if model.enabled then [Score(model.name, Sum(Shares(env.log2, meters, model)))] else []
  }

  lemma ScannedModelsExist(db: Db, port: nat)
    requires db.portOrder == PortOrder(db.order)
    ensures forall i :: 0 <= i < |ScanOrder(db, port)| ==> ScanOrder(db, port)[i] < |db.order|
  {
    hide ScanOrder, PortOrder;
    forall i | 0 <= i < |ScanOrder(db, port)| ensures ScanOrder(db, port)[i] < |db.order| {
      ScanReadsTheList(db, port, i);
      ListedModelsExist(db, i, port);
    }
  }

  lemma {:induction false} ScoresFollowTheScan(env: Env, meters: seq<Meter>, port: nat, n: nat)
    requires env.db.portOrder == PortOrder(env.db.order) && n <= |env.db.order| && AllCovered(env, meters) && KindsDiffer(meters)
    ensures forall i :: 0 <= i < n ==> ScanOrder(env.db, port)[i] < |env.db.order|
    ensures Scores(env, meters, port, n) == ScoresInOrder(env, meters, ScanOrder(env.db, port)[..n])
  {
    hide ScanOrder, PortOrder, KindsDiffer, MetersCover, ModelDivergence, Shares, Sum;
    ScannedModelsExist(env.db, port);
    if n > 0 {
      ScoresFollowTheScan(env, meters, port, n - 1);
      ScanReadsTheList(env.db, port, n - 1);
      var order := ScanOrder(env.db, port)[..n];
      assert order[..n - 1] == ScanOrder(env.db, port)[..n - 1] && order[n - 1] == ScanOrder(env.db, port)[n - 1];
      var model := env.db.order[order[n - 1]];
      if model.enabled {
        ScoreIsTheSumOfShares(env.log2, meters, model);
      }
    }
  }

  lemma MetersDiffer(env: Env, f: FlowData)
    requires env.Valid() && ValidFlow(env, f)
    ensures KindsDiffer(f.meters)
  {
    hide Kind.Name, CoversMeter;
    assert forall k :: 0 <= k < |f.meters| ==> f.meters[k].kind == env.kinds[k];
  }

  /** A data packet that is looked at is scored by every enabled model, in the order of the destination port,
      or in the main order if port hints are not used; each score is a sum of shares. */
  lemma PacketScores(env: Env, f: FlowData, p: Packet)
    requires env.Valid() && ValidFlow(env, f) && Measures(env, f, p)
    ensures env.db.portOrder == PortOrder(env.db.order)
    ensures var order := ScanOrder(env.db, if env.config.usePortHints then f.control.tuple.dstPort as nat else 0);
            && (forall i :: 0 <= i < |order| ==> order[i] < |env.db.order|)
            && AllCovered(env, FlowStep(env, f, p).meters)
            && ScoresAfter(env, f, p) == ScoresInOrder(env, FlowStep(env, f, p).meters, order)
  {
    hide ScanOrder, PortOrder, KindsDiffer, AllCovered, Scores, ScoresAfter, ScoresInOrder, FlowStep, Measures, ValidMeters, Covers, KindsApart;
    var r, port := FlowStep(env, f, p), HintPort(env, f.control.tuple);
    ScoresAfterMeasuring(env, f, p);
    MetersDiffer(env, r);
    ScannedModelsExist(env.db, port);
    ScoresFollowTheScan(env, r.meters, port, |env.db.order|);
    assert ScanOrder(env.db, port)[..|env.db.order|] == ScanOrder(env.db, port);
  }

  // ---------- a meter that has seen nothing ----------

  lemma ZeroTermIsNegative(log2: real -> real, c: real, q: real, n: nat)
    requires IsLog2(log2, c) && q >= 0.0
    ensures LogTerm(log2, 0.0, q, n) <= 0.0
    ensures q > 0.0 ==> LogTerm(log2, 0.0, q, n) < 0.0
  {
    var k, x := 1.0 / (n + 1) as real, 1.0 / (q + 1.0);
    QuotientIsPositive(1.0, (n + 1) as real);
    QuotientIsPositive(1.0, q + 1.0);
    assert x * (q + 1.0) == 1.0;
    if q > 0.0 {
      assert x < 1.0;
      ProductIsNegative(c, x - 1.0);
      assert log2(x) < 0.0;
      ProductIsNegative(k, log2(x));
    } else {
      assert x == 1.0;
    }
  }

  lemma ProductIsNegative(k: real, y: real)
    requires k > 0.0 && y < 0.0
    ensures k * y < 0.0
  {
  }

  lemma {:induction false} NegativeSum(v: seq<real>)
    requires forall i :: 0 <= i < |v| ==> v[i] <= 0.0
    ensures Sum(v) <= 0.0
    ensures (exists i :: 0 <= i < |v| && v[i] < 0.0) ==> Sum(v) < 0.0
  {
    if v != [] {
      NegativeSum(v[..|v| - 1]);
      assert forall i :: 0 <= i < |v| - 1 ==> v[..|v| - 1][i] == v[i];
    }
  }

  lemma {:induction false} SomePositive(v: seq<real>) returns (i: nat)
    requires IsDistribution(v) || Sum(v) > 0.0
    ensures i < |v| && v[i] > 0.0
  {
    var n := |v| - 1;
    if v[n] > 0.0 {
      i := n;
    } else {
      i := SomePositive(v[..n]);
    }
  }

  /** Against a meter that reads all zero the sum is negative for every model, and the sign is dropped: the
      meter adds a positive amount. */
  lemma ZeroMeterDiverges(log2: real -> real, c: real, model: seq<real>)
    requires IsLog2(log2, c) && IsDistribution(model)
    ensures var zeros := Zeros(|model|);
            && Sum(LogTerms(log2, zeros, model)) < 0.0
            && MeterDivergence(log2, zeros, model) == -Sum(LogTerms(log2, zeros, model)) > 0.0
  {
    hide IsLog2, LogTerm;
    var zeros := Zeros(|model|);
    var v := LogTerms(log2, zeros, model);
    forall i | 0 <= i < |v| ensures v[i] <= 0.0 && (model[i] > 0.0 ==> v[i] < 0.0) {
      ZeroTermIsNegative(log2, c, model[i], |model|);
    }
    var i := SomePositive(model);
    NegativeSum(v);
    DivergenceIsAMagnitude(log2, zeros, model);
  }
}
