/** Theorems about whole packet histories of a flow: when its meters are called, what they end
    up holding, and how its label comes about. */
module FlowLaws {
  import opened Packets
  import opened FlowKey
  import opened FlowControl
  import opened Meters
  import opened MeterLaws
  import opened Classifier
  import opened Divergence
  import opened ProtocolDb
  import opened FlowModel

  ghost predicate IsFresh(f: FlowData) {
    && f.control.state == New && f.control.pktCount == 0 && f.verdict == FRESH_MATCH
    && f.control.firstData == [] && f.control.currentDirection == Unknown
  }

  /** The flow will look at its next data packet, should there be room under the limit. */
  predicate StillLooking(env: Env, f: FlowData) {
    !f.verdict.classified && f.control.pktCount <= env.db.cutoffLimit
  }

  ghost predicate Chained(calls: seq<Call>) {
    && (calls != [] ==> calls[0].flow.lastDirection == Unknown)
    && forall j, k :: 0 <= j < |calls| && 0 <= k < |calls| && k == j + 1 ==>
                        calls[k].flow.lastDirection == calls[j].flow.currentDirection
  }

  lemma StepMeasures(env: Env, f: FlowData, p: Packet)
    requires env.Valid() && ValidFlow(env, f)
    ensures var r := FlowStep(env, f, p);
            && r.control == FlowControl.Step(f.control, p)
            && (!Measures(env, f, p) ==> r.meters == f.meters && r.verdict == f.verdict)
            && (Measures(env, f, p) ==> r.meters == MeasureEach(f.meters, Seen(f.control, p), p) && r.control.pktCount == f.control.pktCount + 1)
            && (f.verdict.classified ==> r.verdict == f.verdict)
            && r.queueId == f.queueId && r.pktsInQueue == f.pktsInQueue
  {
    hide MeasureEach, ScoresAfter, Round;
    DataPacketsAreCounted(f.control, p);
  }

  /** The calls so far were made at data packets 1, 2, 3, ...; if the flow is still looking, at all of
      them.  Each call remembers the direction of the one before. */
  ghost predicate CallsKeptUp(env: Env, f: FlowData, calls: seq<Call>) {
    && Consecutive(calls) && Chained(calls)
    && |calls| <= f.control.pktCount
    && (StillLooking(env, f) ==>
          && |calls| == f.control.pktCount
          && f.control.currentDirection == if calls == [] then Unknown else calls[|calls| - 1].flow.currentDirection)
  }

  lemma ChainGrows(calls: seq<Call>, call: Call)
    requires Chained(calls) && call.flow.lastDirection == if calls == [] then Unknown else calls[|calls| - 1].flow.currentDirection
    ensures Chained(calls + [call])
  {
  }

  lemma CallsKeepUp(env: Env, f: FlowData, calls: seq<Call>, p: Packet)
    requires env.Valid() && ValidFlow(env, f) && CallsKeptUp(env, f, calls)
    ensures CallsKeptUp(env, FlowStep(env, f, p), calls + if Measures(env, f, p) then [Call(Seen(f.control, p), p)] else [])
  {
    hide FlowStep, FlowControl.Step, ValidFlow, IsData, PacketDirection;
    StepMeasures(env, f, p);
    DataPacketsAreCounted(f.control, p);
    if Measures(env, f, p) {
      var call := Call(Seen(f.control, p), p);
      assert call.flow.lastDirection == f.control.currentDirection;
      ChainGrows(calls, call);
    } else {
      assert calls + [] == calls;
    }
  }

  /** Meters are called at consecutive data packets until the flow is classified or past the
      cut-off limit, and never again. */
  lemma {:induction false} CallsAreConsecutive(env: Env, f: FlowData, ps: seq<Packet>)
    requires env.Valid() && ValidFlow(env, f) && IsFresh(f)
    ensures CallsKeptUp(env, FlowRun(env, f, ps), Calls(env, f, ps))
  {
    hide FlowStep, FlowControl.Step, ValidFlow, Measures;
    if ps != [] {
      var n := |ps| - 1;
      CallsAreConsecutive(env, f, ps[..n]);
      CallsKeepUp(env, FlowRun(env, f, ps[..n]), Calls(env, f, ps[..n]), ps[n]);
    }
  }

  /** Each meter holds what its calls make of it. */
  lemma {:induction false} MetersHoldTheirCalls(env: Env, f: FlowData, ps: seq<Packet>, k: nat)
    requires env.Valid() && ValidFlow(env, f) && IsFresh(f) && k < |f.meters|
    ensures Counted(Calls(env, f, ps)) && f.meters[k].Valid()
    ensures FlowRun(env, f, ps).meters[k] == MeasureAll(f.meters[k], Calls(env, f, ps))
  {
    hide FlowStep, FlowControl.Step, IsData, Measure;
    CallsAreConsecutive(env, f, ps);
    if ps != [] {
      var n := |ps| - 1;
      MetersHoldTheirCalls(env, f, ps[..n], k);
      var before := FlowRun(env, f, ps[..n]);
      StepMeasures(env, before, ps[n]);
      if Measures(env, before, ps[n]) {
        MeasureOneMore(f.meters[k], Calls(env, f, ps[..n]), Call(Seen(before.control, ps[n]), ps[n]));
      } else {
        assert Calls(env, f, ps[..n]) + [] == Calls(env, f, ps[..n]);
      }
    }
  }

  lemma MeasureOneMore(m: Meter, calls: seq<Call>, call: Call)
    requires m.Valid() && Counted(calls) && call.flow.pktCount > 0
    ensures Counted(calls + [call])
    ensures MeasureAll(m, calls + [call]) == Measure(MeasureAll(m, calls), call.flow, call.packet)
  {
    hide Measure;
    assert (calls + [call])[..|calls|] == calls;
  }

  // ---------- a histogram meets the hypothesis of the divergence ----------

  lemma ObservedIsAllProbabilities(m: Meter)
    ensures Observed(m, |m.fingerprint|) == m.Probabilities()
  {
  }

  /** Once a flow has shown a payload byte, its byte histogram meets the hypothesis of the divergence:
      against any model distribution the sum is not negative, and 0 exactly when the two agree. */
  lemma FlowByteHistogram(env: Env, c: real, p: Packet, junk: Junk, ps: seq<Packet>, k: nat, model: seq<real>)
    requires env.Valid() && k < |env.kinds| && env.kinds[k] == ByteFrequency
    requires IsLog2(env.log2, c) && |model| == 256 && IsDistribution(model)
    requires Payloads(Calls(env, FreshFlow(env, p, junk), ps)) != []
    ensures var seen := Observed(FlowRun(env, FreshFlow(env, p, junk), ps).meters[k], 256);
            && IsDistribution(seen)
            && MeterDivergence(env.log2, seen, model) == KlSum(env.log2, Smoothed(seen), Smoothed(model))
            && (MeterDivergence(env.log2, seen, model) == 0.0 <==> seen == model)
  {
    hide FlowRun, Calls, Measure, IsLog2, MeterDivergence, IsDistribution, Observed;
    var f := FreshFlow(env, p, junk);
    FreshFlowIsValid(env, p, junk);
    MetersHoldTheirCalls(env, f, ps, k);
    var m := FlowRun(env, f, ps).meters[k];
    ByteFrequencyIsTheHistogram(junk, Calls(env, f, ps));
    ObservedIsAllProbabilities(m);
    DivergenceOfDistributions(env.log2, c, Observed(m, 256), model);
  }

  // ---------- classification ----------

  lemma {:induction false} VerdictFollowsRounds(env: Env, f: FlowData, ps: seq<Packet>)
    requires env.Valid() && ValidFlow(env, f) && IsFresh(f)
    ensures var r := FlowRun(env, f, ps);
            && |Rounds(env, f, ps)| == r.control.pktCount
            && r.verdict == Classifier.Run(env.Cfg(), Rounds(env, f, ps))
  {
    hide FlowControl.Step, ScoresAfter, MeasureEach, Round, ValidFlow, IsData, LooksAt;
    if ps != [] {
      var n := |ps| - 1;
      VerdictFollowsRounds(env, f, ps[..n]);
      var before := FlowRun(env, f, ps[..n]);
      var rounds := Rounds(env, f, ps[..n]);
      StepMeasures(env, before, ps[n]);
      DataPacketsAreCounted(before.control, ps[n]);
      if IsData(before.control, ps[n]) {
        var scores := ScoresAfter(env, before, ps[n]);
        RunOneMore(env.Cfg(), rounds, scores);
      } else {
        assert rounds + [] == rounds;
      }
    }
  }

  lemma RunOneMore(cfg: Settings, rounds: seq<seq<Score>>, scores: seq<Score>)
    ensures Classifier.Run(cfg, rounds + [scores]) == Round(cfg, |rounds| + 1, Classifier.Run(cfg, rounds), scores)
    ensures !LooksAt(cfg, |rounds| + 1, Classifier.Run(cfg, rounds)) ==>
              Classifier.Run(cfg, rounds + [scores]) == Classifier.Run(cfg, rounds)
  {
    assert (rounds + [scores])[..|rounds|] == rounds;
  }

  /** A flow is classified exactly when one of its data packets was decisive: at or past the defining
      limit, within the cut-off limit, some enabled model scored under the threshold, or the defining
      limit was reached with a best match under it. */
  lemma FlowIsClassifiedExactly(env: Env, p: Packet, junk: Junk, ps: seq<Packet>)
    requires env.Valid() && !env.config.learning
    ensures var rounds, r := Rounds(env, FreshFlow(env, p, junk), ps), FlowRun(env, FreshFlow(env, p, junk), ps);
            var cfg := Settings(env.config.threshold, env.config.useBestMatch, env.config.learning, env.config.usePortHints,
                                env.db.definingLimit, env.db.cutoffLimit);
            && (r.verdict.classified <==> exists k :: 0 <= k <= |rounds| && Decides(cfg, rounds[..k]))
            && (forall k :: 0 <= k <= |rounds| && DecidesFirst(cfg, rounds, k) ==> Names(cfg, rounds[..k], r.verdict))
  {
    hide FlowRun, Rounds, Decides, Names, Classifier.Run;
    FreshFlowIsValid(env, p, junk);
    VerdictFollowsRounds(env, FreshFlow(env, p, junk), ps);
    ClassificationIsExact(env.Cfg(), Rounds(env, FreshFlow(env, p, junk), ps));
    ClassifiedIffSomeRoundDecides(env.Cfg(), Rounds(env, FreshFlow(env, p, junk), ps));
  }

  /** While learning a flow is never classified, nor is any model looked at. */
  lemma LearningClassifiesNothing(env: Env, p: Packet, junk: Junk, ps: seq<Packet>)
    requires env.Valid() && env.config.learning
    ensures FlowRun(env, FreshFlow(env, p, junk), ps).verdict == FreshFlow(env, p, junk).verdict
    ensures !FreshFlow(env, p, junk).verdict.classified
  {
    hide FlowRun, Rounds;
    FreshFlowIsValid(env, p, junk);
    VerdictFollowsRounds(env, FreshFlow(env, p, junk), ps);
    LearningIsIdle(env.Cfg(), Rounds(env, FreshFlow(env, p, junk), ps));
  }

  lemma {:induction false} LearningIsIdle(cfg: Settings, rounds: seq<seq<Score>>)
    requires cfg.learning
    ensures Classifier.Run(cfg, rounds) == FRESH_MATCH
  {
    if rounds != [] {
      LearningIsIdle(cfg, rounds[..|rounds| - 1]);
    }
  }

  // ---------- the score of a perfect match ----------

  /** Observation and model agree on every enabled meter. */
  ghost predicate Agrees(meters: seq<Meter>, model: Model, n: nat)
    requires n <= |model.meters| && MetersCover(meters, model)
  {
    forall a :: 0 <= a < n && model.meters[a].enabled ==>
                  Observed(meters[FindMeter(meters, model.meters[a].name)], |model.meters[a].fingerprint|) == model.meters[a].fingerprint
  }

  ghost predicate AllDistributions(meters: seq<Meter>, model: Model, n: nat)
    requires n <= |model.meters| && MetersCover(meters, model)
  {
    forall a :: 0 <= a < n && model.meters[a].enabled ==>
                  && IsDistribution(model.meters[a].fingerprint)
                  && IsDistribution(Observed(meters[FindMeter(meters, model.meters[a].name)], |model.meters[a].fingerprint|))
  }

  /** Between distributions a model scores zero exactly when it agrees with the flow. */
  lemma {:induction false} ZeroScoreMeansAgreement(log2: real -> real, c: real, meters: seq<Meter>, model: Model, n: nat)
    requires IsLog2(log2, c) && n <= |model.meters| && MetersCover(meters, model) && AllDistributions(meters, model, n)
    ensures ModelDivergence(log2, meters, model, n) == 0.0 <==> Agrees(meters, model, n)
  {
    hide IsLog2, MeterDivergence, IsDistribution, Observed, FindMeter, MetersCover;
    if n > 0 {
      ZeroScoreMeansAgreement(log2, c, meters, model, n - 1);
      var m := model.meters[n - 1];
      if m.enabled {
        DivergenceOfDistributions(log2, c, Observed(meters[FindMeter(meters, m.name)], |m.fingerprint|), m.fingerprint);
      }
    }
  }

  lemma TermOfEquals(log2: real -> real, p: real)
    requires log2(1.0) == 0.0
    ensures Term(log2, p, p) == 0.0
  {
    if p > 0.0 {
      QuotientIsOne(p, p);
    }
  }

  lemma {:induction false} KlSumOfEquals(log2: real -> real, v: seq<real>)
    requires log2(1.0) == 0.0
    ensures KlSum(log2, v, v) == 0.0
  {
    hide Term;
    if v != [] {
      KlSumOfEquals(log2, v[..|v| - 1]);
      TermOfEquals(log2, v[|v| - 1]);
    }
  }

  /** Whatever the vectors, a model that agrees with the flow scores zero. */
  lemma {:induction false} AgreementScoresZero(log2: real -> real, meters: seq<Meter>, model: Model, n: nat)
    requires log2(1.0) == 0.0 && n <= |model.meters| && MetersCover(meters, model) && Agrees(meters, model, n)
    ensures ModelDivergence(log2, meters, model, n) == 0.0
  {
    hide KlSum, Smoothed, Observed, FindMeter, MetersCover;
    if n > 0 {
      AgreementScoresZero(log2, meters, model, n - 1);
      if model.meters[n - 1].enabled {
        KlSumOfEquals(log2, Smoothed(model.meters[n - 1].fingerprint));
      }
    }
  }

  // ---------- where a label comes from ----------

  /** At its packet `n` the flow scored model `i`, by the name of `name`, at `d`, with the meters it then had. */
  ghost predicate ScoredAt(env: Env, f: FlowData, ps: seq<Packet>, n: nat, i: nat, name: string, d: real)
    requires env.Valid() && ValidFlow(env, f)
  {
    && n < |ps| && Measures(env, FlowRun(env, f, ps[..n]), ps[n])
    && i < |env.db.order| && env.db.order[i].enabled && env.db.order[i].name == name && d > 0.0
    && var meters := FlowRun(env, f, ps[..n + 1]).meters;
    && MetersCover(meters, env.db.order[i])
    && ModelDivergence(env.log2, meters, env.db.order[i], |env.db.order[i].meters|) == d
  }

  ghost predicate Scored(env: Env, f: FlowData, ps: seq<Packet>, name: string, d: real)
    requires env.Valid() && ValidFlow(env, f)
  {
    exists n: nat, i: nat :: ScoredAt(env, f, ps, n, i, name, d)
  }

  lemma ScoredBefore(env: Env, f: FlowData, ps: seq<Packet>, k: nat, name: string, d: real)
    requires env.Valid() && ValidFlow(env, f) && k <= |ps| && Scored(env, f, ps[..k], name, d)
    ensures Scored(env, f, ps, name, d)
  {
    hide FlowRun, Measures, MetersCover, ModelDivergence, Env.Valid;
    var n: nat, i: nat :| ScoredAt(env, f, ps[..k], n, i, name, d);
    assert ps[..k][..n] == ps[..n] && ps[..k][..n + 1] == ps[..n + 1] && ps[..k][n] == ps[n];
    assert ScoredAt(env, f, ps, n, i, name, d);
  }

  /** Every score of a scan is that of an enabled model. */
  lemma {:induction false} ScoreHasModel(env: Env, meters: seq<Meter>, port: nat, n: nat, k: nat) returns (i: nat)
    requires env.db.portOrder == PortOrder(env.db.order) && n <= |env.db.order| && AllCovered(env, meters)
    requires k < |Scores(env, meters, port, n)|
    ensures i < |env.db.order| && env.db.order[i].enabled && MetersCover(meters, env.db.order[i])
    ensures var model := env.db.order[i];
            Scores(env, meters, port, n)[k] == Score(model.name, ModelDivergence(env.log2, meters, model, |model.meters|))
  {
    hide ModelDivergence, PortOrder, MetersCover;
    ListedModelsExist(env.db, n - 1, port);
    if k < |Scores(env, meters, port, n - 1)| {
      i := ScoreHasModel(env, meters, port, n - 1, k);
    } else {
      i := At(env.db, n - 1, port).value;
    }
  }

  ghost predicate IsAmong(scores: seq<Score>, name: string, d: real) {
    d > 0.0 && exists k :: 0 <= k < |scores| && scores[k] == Score(name, d)
  }

  /** A scan's label, and its new best match, are among its scores. */
  lemma {:induction false} ScanTakesFromScores(cfg: Settings, n: nat, m: Match, scores: seq<Score>)
    requires !m.classified
    ensures var r := Scan(cfg, n, m, scores);
            && (r.classified ==> IsAmong(scores, r.name, r.divergence))
            && ((r.bestName == m.bestName && r.bestDivergence == m.bestDivergence) || IsAmong(scores, r.bestName, r.bestDivergence))
  {
    hide IsAmong;
    if scores != [] {
      var k := |scores| - 1;
      var r, s := Scan(cfg, n, m, scores[..k]), scores[k];
      ScanTakesFromScores(cfg, n, m, scores[..k]);
      AmongMore(scores, r.name, r.divergence);
      AmongMore(scores, r.bestName, r.bestDivergence);
      LastIsAmong(scores);
    }
  }

  lemma AmongMore(scores: seq<Score>, name: string, d: real)
    requires scores != []
    ensures IsAmong(scores[..|scores| - 1], name, d) ==> IsAmong(scores, name, d)
  {
    var front := scores[..|scores| - 1];
    if IsAmong(front, name, d) {
      var k :| 0 <= k < |front| && front[k] == Score(name, d);
      assert scores[k] == Score(name, d);
    }
  }

  lemma LastIsAmong(scores: seq<Score>)
    requires scores != []
    ensures var s := scores[|scores| - 1]; s.divergence > 0.0 ==> IsAmong(scores, s.name, s.divergence)
  {
  }

  /** The best match, and the label, each come from a positive score of some round, or are nobody's. */
  ghost predicate HasOrigin(env: Env, f: FlowData, ps: seq<Packet>, v: Match)
    requires env.Valid() && ValidFlow(env, f)
  {
    && ((v.bestName == "" && v.bestDivergence == 100.0) || Scored(env, f, ps, v.bestName, v.bestDivergence))
    && (v.classified ==> (v.name == "" && v.divergence == 100.0) || Scored(env, f, ps, v.name, v.divergence))
  }

  /** The scores of a measured packet are those of the meters as the packet leaves them. */
  lemma ScoresAfterMeasuring(env: Env, f: FlowData, p: Packet)
    requires env.Valid() && ValidFlow(env, f) && Measures(env, f, p)
    ensures var r := FlowStep(env, f, p);
            AllCovered(env, r.meters) && ScoresAfter(env, f, p) == Scores(env, r.meters, HintPort(env, f.control.tuple), |env.db.order|)
  {
    hide Scores, MeasureEach, FlowControl.Step, IsData, ValidMeters, CoversMeter, PortOrder, KindsApart, AllCovered, Round;
    StepMeasures(env, f, p);
    SeenTuple(f.control, p);
    FlowsCoverTheDatabase(env, FlowStep(env, f, p));
  }

  lemma AmongScoresHasModel(env: Env, meters: seq<Meter>, port: nat, name: string, d: real) returns (i: nat)
    requires env.db.portOrder == PortOrder(env.db.order) && AllCovered(env, meters)
    requires IsAmong(Scores(env, meters, port, |env.db.order|), name, d)
    ensures i < |env.db.order| && env.db.order[i].enabled && env.db.order[i].name == name && d > 0.0
    ensures MetersCover(meters, env.db.order[i])
    ensures ModelDivergence(env.log2, meters, env.db.order[i], |env.db.order[i].meters|) == d
  {
    hide ModelDivergence, MetersCover, PortOrder, Scores, AllCovered;
    var scores := Scores(env, meters, port, |env.db.order|);
    var k :| 0 <= k < |scores| && scores[k] == Score(name, d);
    i := ScoreHasModel(env, meters, port, |env.db.order|, k);
  }

  lemma LastRoundScored(env: Env, f: FlowData, ps: seq<Packet>, i: nat, name: string, d: real)
    requires env.Valid() && ValidFlow(env, f) && ps != []
    requires Measures(env, FlowRun(env, f, ps[..|ps| - 1]), ps[|ps| - 1])
    requires i < |env.db.order| && env.db.order[i].enabled && env.db.order[i].name == name && d > 0.0
    requires var meters := FlowRun(env, f, ps).meters;
             MetersCover(meters, env.db.order[i]) && ModelDivergence(env.log2, meters, env.db.order[i], |env.db.order[i].meters|) == d
    ensures Scored(env, f, ps, name, d)
  {
    hide ModelDivergence, MetersCover, Measures, FlowRun, Env.Valid;
    var n := |ps| - 1;
    assert ps[..n + 1] == ps;
    assert ScoredAt(env, f, ps, n, i, name, d);
  }

  lemma ScoresAreScored(env: Env, f: FlowData, ps: seq<Packet>, name: string, d: real)
    requires env.Valid() && ValidFlow(env, f) && ps != []
    requires var before := FlowRun(env, f, ps[..|ps| - 1]);
             Measures(env, before, ps[|ps| - 1]) && IsAmong(ScoresAfter(env, before, ps[|ps| - 1]), name, d)
    ensures Scored(env, f, ps, name, d)
  {
    hide ModelDivergence, MetersCover, ScoresAfter, FlowStep, Measures, ValidMeters, Covers, PortOrder, KindsApart, Scores, AllCovered, Scored, IsAmong;
    var n := |ps| - 1;
    var before := FlowRun(env, f, ps[..n]);
    ScoresAfterMeasuring(env, before, ps[n]);
    var i := AmongScoresHasModel(env, FlowRun(env, f, ps).meters, HintPort(env, before.control.tuple), name, d);
    LastRoundScored(env, f, ps, i, name, d);
  }

  lemma SeenTuple(c: Control, p: Packet)
    ensures FlowControl.Step(c, p).tuple == c.tuple
  {
    StepFollowsArrival(c, p);
  }

  lemma {:induction false} LabelsHaveOrigins(env: Env, f: FlowData, ps: seq<Packet>)
    requires env.Valid() && ValidFlow(env, f) && IsFresh(f)
    ensures HasOrigin(env, f, ps, FlowRun(env, f, ps).verdict)
  {
    hide ScoresAfter, MeasureEach, FlowControl.Step, IsData, Scored, IsAmong, Scan, ValidFlow, Env.Valid;
    if ps != [] {
      var n := |ps| - 1;
      LabelsHaveOrigins(env, f, ps[..n]);
      var before, v := FlowRun(env, f, ps[..n]), FlowRun(env, f, ps[..n]).verdict;
      StepMeasures(env, before, ps[n]);
      forall name, d | Scored(env, f, ps[..n], name, d) ensures Scored(env, f, ps, name, d) {
        ScoredBefore(env, f, ps, n, name, d);
      }
      if Measures(env, before, ps[n]) {
        var scores := ScoresAfter(env, before, ps[n]);
        forall name, d | IsAmong(scores, name, d) ensures Scored(env, f, ps, name, d) {
          ScoresAreScored(env, f, ps, name, d);
        }
        ScanTakesFromScores(env.Cfg(), FlowControl.Step(before.control, ps[n]).pktCount, v, scores);
      }
    }
  }

  /** A model labels a flow only by a round in which the flow's meters did not agree with it: a perfect match
      scores zero, and zero does not count.  (The flow may have agreed with it in another round.)  The one
      other label is nobody's, the best match of a flow that never had one. */
  lemma LabelsComeFromDisagreement(env: Env, p: Packet, junk: Junk, ps: seq<Packet>)
    requires env.Valid() && env.log2(1.0) == 0.0 && FlowRun(env, FreshFlow(env, p, junk), ps).verdict.classified
    ensures var f := FreshFlow(env, p, junk);
            var v := FlowRun(env, f, ps).verdict;
            || (v.name == "" && v.divergence == 100.0)
            || exists n: nat, i: nat :: ScoredAt(env, f, ps, n, i, v.name, v.divergence)
                                        && !Agrees(FlowRun(env, f, ps[..n + 1]).meters, env.db.order[i], |env.db.order[i].meters|)
  {
    hide FlowRun, Measures, MetersCover, ModelDivergence, Agrees, Env.Valid;
    var f := FreshFlow(env, p, junk);
    FreshFlowIsValid(env, p, junk);
    LabelsHaveOrigins(env, f, ps);
    var v := FlowRun(env, f, ps).verdict;
    if !(v.name == "" && v.divergence == 100.0) {
      var n: nat, i: nat :| ScoredAt(env, f, ps, n, i, v.name, v.divergence);
      var meters, model := FlowRun(env, f, ps[..n + 1]).meters, env.db.order[i];
      if Agrees(meters, model, |model.meters|) {
        AgreementScoresZero(env.log2, meters, model, |model.meters|);
        assert false;
      }
    }
  }
}
