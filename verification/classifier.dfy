/**
  How a flow gets its name (the classification block of Flow::addPacket in
  src/common/src/Flow.cpp).  Every data packet brings a round of scores, one per
  enabled model in lookup order; the flow keeps a running best match, and is
  classified by the first model under the threshold or, once, by the best match.
*/
module Classifier {

  datatype Settings = Settings(threshold: real, useBestMatch: bool, learning: bool, usePortHints: bool,
                               definingLimit: nat, cutoffLimit: nat)

  datatype Score = Score(name: string, divergence: real)

  datatype Match = Match(classified: bool, name: string, divergence: real, bestDivergence: real, bestName: string)

  const FRESH_MATCH := Match(false, "", 0.0, 100.0, "")

  /** One model of the scan; after a classification the scan has been left. */
  function Consider(cfg: Settings, n: nat, m: Match, s: Score): Match {
    if m.classified then m
    else if s.divergence > 0.0 && n >= cfg.definingLimit && s.divergence < cfg.threshold then
      m.(classified := true, name := s.name, divergence := s.divergence)
    else if s.divergence > 0.0 && s.divergence < m.bestDivergence then
      m.(bestDivergence := s.divergence, bestName := s.name)
    else m
  }

  function Scan(cfg: Settings, n: nat, m: Match, scores: seq<Score>): Match {
    if scores == [] then m else Consider(cfg, n, Scan(cfg, n, m, scores[..|scores| - 1]), scores[|scores| - 1])
  }

  function TryBestMatch(cfg: Settings, n: nat, m: Match): Match {
    if cfg.useBestMatch && !m.classified && n == cfg.definingLimit && m.bestDivergence < cfg.threshold then
      m.(classified := true, name := m.bestName, divergence := m.bestDivergence)
    else m
  }

  /** Whether the flow still looks at its `n`-th data packet. */
  predicate LooksAt(cfg: Settings, n: nat, m: Match) {
    !m.classified && n <= cfg.cutoffLimit
  }

  /** The `n`-th data packet, whose scores are `scores`. */
  function Round(cfg: Settings, n: nat, m: Match, scores: seq<Score>): Match {
    if LooksAt(cfg, n, m) && !cfg.learning then TryBestMatch(cfg, n, Scan(cfg, n, m, scores)) else m
  }

  function Run(cfg: Settings, rounds: seq<seq<Score>>): Match {
    if rounds == [] then FRESH_MATCH
    else Round(cfg, |rounds|, Run(cfg, rounds[..|rounds| - 1]), rounds[|rounds| - 1])
  }

  // ---------- what classification is meant to be ----------

  /** A score good enough to classify on its own. */
  predicate IsHit(cfg: Settings, s: Score) {
    0.0 < s.divergence < cfg.threshold
  }

  ghost predicate HasHit(cfg: Settings, scores: seq<Score>) {
    exists i :: 0 <= i < |scores| && IsHit(cfg, scores[i])
  }

  /** `name` and `divergence` are those of the first hit. */
  ghost predicate IsFirstHit(cfg: Settings, scores: seq<Score>, name: string, divergence: real) {
    exists i :: 0 <= i < |scores| && IsHit(cfg, scores[i]) && scores[i] == Score(name, divergence)
                && forall j :: 0 <= j < i ==> !IsHit(cfg, scores[j])
  }

  function Flatten(rounds: seq<seq<Score>>): seq<Score> {
    if rounds == [] then [] else Flatten(rounds[..|rounds| - 1]) + rounds[|rounds| - 1]
  }

  /** `d` is the least positive score below 100 and `name` its earliest holder; with no
      such score it is 100 and nobody's. */
  ghost predicate IsBest(scores: seq<Score>, d: real, name: string) {
    && (forall i :: 0 <= i < |scores| && scores[i].divergence > 0.0 ==> d <= scores[i].divergence)
    && if d < 100.0 then
         exists i :: 0 <= i < |scores| && scores[i] == Score(name, d) && d > 0.0
                     && forall j :: 0 <= j < i && scores[j].divergence > 0.0 ==> scores[j].divergence > d
       else d == 100.0 && name == ""
  }

  /** The last of these rounds classifies the flow, if it is still unclassified by then. */
  ghost predicate Decides(cfg: Settings, rounds: seq<seq<Score>>) {
    && rounds != [] && |rounds| <= cfg.cutoffLimit
    && (|| (|rounds| >= cfg.definingLimit && HasHit(cfg, rounds[|rounds| - 1]))
        || (cfg.useBestMatch && |rounds| == cfg.definingLimit
            && (cfg.threshold > 100.0 || HasHit(cfg, Flatten(rounds)))))
  }

  /** Round `k` is the first that classifies the flow. */
  ghost predicate DecidesFirst(cfg: Settings, rounds: seq<seq<Score>>, k: nat) {
    && k <= |rounds| && Decides(cfg, rounds[..k])
    && forall j :: 0 <= j < k ==> !Decides(cfg, rounds[..j])
  }

  /** The name a deciding round gives: its first hit, or else the best match so far. */
  ghost predicate Names(cfg: Settings, rounds: seq<seq<Score>>, m: Match)
    requires rounds != []
  {
    var last := rounds[|rounds| - 1];
    if |rounds| >= cfg.definingLimit && HasHit(cfg, last) then IsFirstHit(cfg, last, m.name, m.divergence)
    else IsBest(Flatten(rounds), m.divergence, m.name)
  }

  // ---------- and what it is ----------

  lemma BestTakesOneMore(scores: seq<Score>, d: real, name: string, s: Score)
    requires IsBest(scores, d, name)
    ensures if 0.0 < s.divergence < d then IsBest(scores + [s], s.divergence, s.name) else IsBest(scores + [s], d, name)
  {
    var all := scores + [s];
    if 0.0 < s.divergence < d {
      assert all[|scores|] == Score(s.name, s.divergence);
    } else if d < 100.0 {
      var i :| 0 <= i < |scores| && scores[i] == Score(name, d) && forall j :: 0 <= j < i && scores[j].divergence > 0.0 ==> scores[j].divergence > d;
      assert all[i] == Score(name, d);
    }
  }

  /** The first hit stays the first; where there was none, the last score may be it. */
  lemma OneMoreMayHit(cfg: Settings, scores: seq<Score>, name: string, divergence: real)
    requires scores != []
    ensures var k := |scores| - 1;
            && (HasHit(cfg, scores) <==> HasHit(cfg, scores[..k]) || IsHit(cfg, scores[k]))
            && (IsFirstHit(cfg, scores[..k], name, divergence) ==> IsFirstHit(cfg, scores, name, divergence))
            && (!HasHit(cfg, scores[..k]) && IsHit(cfg, scores[k]) ==> IsFirstHit(cfg, scores, scores[k].name, scores[k].divergence))
  {
    var k := |scores| - 1;
    var front := scores[..k];
    assert forall i :: 0 <= i < k ==> front[i] == scores[i];
    if i :| 0 <= i < |scores| && IsHit(cfg, scores[i]) {
      assert i < k ==> IsHit(cfg, front[i]);
    }
  }

  /** A scan stops at the first hit, once hits count; otherwise it only improves the best match. */
  lemma {:induction false} ScanFindsFirstHit(cfg: Settings, n: nat, m: Match, before: seq<Score>, scores: seq<Score>)
    requires !m.classified && IsBest(before, m.bestDivergence, m.bestName)
    ensures var r := Scan(cfg, n, m, scores);
            if n >= cfg.definingLimit && HasHit(cfg, scores) then r.classified && IsFirstHit(cfg, scores, r.name, r.divergence)
            else !r.classified && IsBest(before + scores, r.bestDivergence, r.bestName)
  {
    hide IsBest, HasHit, IsFirstHit;
    if scores == [] {
      assert before + scores == before;
      NoHitInNothing(cfg);
    } else {
      var k := |scores| - 1;
      ScanFindsFirstHit(cfg, n, m, before, scores[..k]);
      var r := Scan(cfg, n, m, scores[..k]);
      OneMoreMayHit(cfg, scores, r.name, r.divergence);
      if !r.classified {
        BestTakesOneMore(before + scores[..k], r.bestDivergence, r.bestName, scores[k]);
        assert before + scores[..k] + [scores[k]] == before + scores;
      }
    }
  }

  lemma NoHitInNothing(cfg: Settings)
    ensures !HasHit(cfg, [])
  {
  }

  /** The running best is under the threshold exactly when some score was a hit, or the
      threshold is above the initial 100. */
  lemma BestIsUnderThreshold(cfg: Settings, scores: seq<Score>, d: real, name: string)
    requires IsBest(scores, d, name)
    ensures d < cfg.threshold <==> cfg.threshold > 100.0 || HasHit(cfg, scores)
  {
    if HasHit(cfg, scores) {
      var i :| 0 <= i < |scores| && IsHit(cfg, scores[i]);
    } else if d < 100.0 {
      var i :| 0 <= i < |scores| && scores[i] == Score(name, d) && d > 0.0;
      assert !IsHit(cfg, scores[i]);
    }
  }

  lemma RoundDecides(cfg: Settings, rounds: seq<seq<Score>>, m: Match)
    requires !cfg.learning && rounds != [] && |rounds| <= cfg.cutoffLimit
    requires !m.classified && IsBest(Flatten(rounds[..|rounds| - 1]), m.bestDivergence, m.bestName)
    ensures var r := Round(cfg, |rounds|, m, rounds[|rounds| - 1]);
            if Decides(cfg, rounds) then r.classified && Names(cfg, rounds, r)
            else !r.classified && IsBest(Flatten(rounds), r.bestDivergence, r.bestName)
  {
    hide IsBest, Scan, HasHit, IsFirstHit;
    var n := |rounds|;
    var before, scores := Flatten(rounds[..n - 1]), rounds[n - 1];
    ScanFindsFirstHit(cfg, n, m, before, scores);
    var s := Scan(cfg, n, m, scores);
    if !s.classified {
      BestIsUnderThreshold(cfg, before + scores, s.bestDivergence, s.bestName);
    }
  }

  /** Once set, name and divergence never change. */
  lemma {:induction false} ClassificationIsFinal(cfg: Settings, rounds: seq<seq<Score>>, k: nat)
    requires k <= |rounds| && Run(cfg, rounds[..k]).classified
    ensures Run(cfg, rounds) == Run(cfg, rounds[..k])
  {
    if k < |rounds| {
      assert rounds[..|rounds| - 1][..k] == rounds[..k];
      ClassificationIsFinal(cfg, rounds[..|rounds| - 1], k);
    } else {
      assert rounds[..k] == rounds;
    }
  }

  /** The flow is classified by the first deciding round, with the name that round names;
      until then the best match is the best of all scores looked at. */
  lemma {:induction false} ClassificationIsExact(cfg: Settings, rounds: seq<seq<Score>>)
    requires !cfg.learning
    ensures var m := Run(cfg, rounds);
            && (m.classified <==> exists k :: 0 <= k <= |rounds| && DecidesFirst(cfg, rounds, k))
            && (forall k :: 0 <= k <= |rounds| && DecidesFirst(cfg, rounds, k) ==> Names(cfg, rounds[..k], m))
            && (!m.classified ==>
                  var looked := if |rounds| <= cfg.cutoffLimit then rounds else rounds[..cfg.cutoffLimit];
                  IsBest(Flatten(looked), m.bestDivergence, m.bestName))
  {
    hide IsBest, Round, Names;
    if rounds == [] {
      BestOfNothing();
    } else {
      var n := |rounds|;
      var front := rounds[..n - 1];
      ClassificationIsExact(cfg, front);
      assert forall k :: 0 <= k < n ==> front[..k] == rounds[..k];
      assert rounds[..n] == rounds;
      assert forall k :: 0 <= k < n ==> DecidesFirst(cfg, front, k) == DecidesFirst(cfg, rounds, k);
      var m := Run(cfg, front);
      if m.classified || n > cfg.cutoffLimit {
        RoundIsIdle(cfg, n, m, rounds[n - 1]);
        if n > cfg.cutoffLimit && !m.classified {
          assert front[..cfg.cutoffLimit] == rounds[..cfg.cutoffLimit];
          assert n - 1 == cfg.cutoffLimit ==> front == rounds[..cfg.cutoffLimit];
        }
      } else {
        RoundDecides(cfg, rounds, m);
        FirstAmongDeciding(cfg, rounds);
      }
    }
  }

  lemma BestOfNothing()
    ensures IsBest([], 100.0, "")
  {
  }

  lemma RoundIsIdle(cfg: Settings, n: nat, m: Match, scores: seq<Score>)
    requires m.classified || n > cfg.cutoffLimit
    ensures Round(cfg, n, m, scores) == m
  {
  }

  lemma FirstAmongDeciding(cfg: Settings, rounds: seq<seq<Score>>)
    requires rounds != []
    ensures DecidesFirst(cfg, rounds, |rounds|) <==>
              Decides(cfg, rounds) && forall k :: 0 <= k < |rounds| ==> !DecidesFirst(cfg, rounds, k)
  {
    hide Decides;
    assert rounds[..|rounds|] == rounds;
    if exists j :: 0 <= j < |rounds| && Decides(cfg, rounds[..j]) {
      var j :| 0 <= j < |rounds| && Decides(cfg, rounds[..j]);
      LeastDeciding(cfg, rounds, j);
    }
  }

  lemma {:induction false} LeastDeciding(cfg: Settings, rounds: seq<seq<Score>>, j: nat)
    requires j <= |rounds| && Decides(cfg, rounds[..j])
    ensures exists k :: 0 <= k <= j && DecidesFirst(cfg, rounds, k)
    decreases j
  {
    hide Decides;
    if i :| 0 <= i < j && Decides(cfg, rounds[..i]) {
      LeastDeciding(cfg, rounds, i);
    } else {
      assert DecidesFirst(cfg, rounds, j);
    }
  }

  /** A flow is classified at all exactly when some round within the limits is decisive. */
  lemma ClassifiedIffSomeRoundDecides(cfg: Settings, rounds: seq<seq<Score>>)
    requires !cfg.learning
    ensures Run(cfg, rounds).classified <==> exists k :: 0 <= k <= |rounds| && Decides(cfg, rounds[..k])
  {
    hide Decides, Run, Names, IsBest;
    ClassificationIsExact(cfg, rounds);
    if k :| 0 <= k <= |rounds| && Decides(cfg, rounds[..k]) {
      LeastDeciding(cfg, rounds, k);
    }
  }

  /** The best match can name a flow with the empty name: exactly when the threshold is above
      100 and no model ever scored between 0 and 100. */
  lemma BestMatchIsNobody(cfg: Settings, rounds: seq<seq<Score>>, scores: seq<Score>)
    requires scores == Flatten(rounds)
    requires !cfg.learning && cfg.useBestMatch && 0 < |rounds| == cfg.definingLimit <= cfg.cutoffLimit
    requires !Run(cfg, rounds[..|rounds| - 1]).classified && !HasHit(cfg, rounds[|rounds| - 1])
    requires forall i :: 0 <= i < |scores| ==> scores[i].name != ""
    ensures Run(cfg, rounds).classified && Run(cfg, rounds).name == "" <==>
              cfg.threshold > 100.0 && forall i :: 0 <= i < |scores| ==> !(0.0 < scores[i].divergence < 100.0)
  {
    hide Decides, Round, HasHit;
    var n := |rounds|;
    var front := rounds[..n - 1];
    ClassificationIsExact(cfg, front);
    RoundDecides(cfg, rounds, Run(cfg, front));
    DecidesByBestMatch(cfg, rounds);
    var m := Run(cfg, rounds);
    if m.classified {
      NobodyIsBest(cfg, scores, m.divergence, m.name);
    }
  }

  lemma NobodyIsBest(cfg: Settings, scores: seq<Score>, d: real, name: string)
    requires IsBest(scores, d, name)
    requires forall i :: 0 <= i < |scores| ==> scores[i].name != ""
    requires cfg.threshold > 100.0 || HasHit(cfg, scores)
    ensures name == "" <==> cfg.threshold > 100.0 && forall i :: 0 <= i < |scores| ==> !(0.0 < scores[i].divergence < 100.0)
  {
    if d < 100.0 {
      var i :| 0 <= i < |scores| && scores[i] == Score(name, d) && d > 0.0;
      assert 0.0 < scores[i].divergence < 100.0;
    } else if HasHit(cfg, scores) {
      var i :| 0 <= i < |scores| && IsHit(cfg, scores[i]);
    }
  }

  lemma DecidesByBestMatch(cfg: Settings, rounds: seq<seq<Score>>)
    requires cfg.useBestMatch && 0 < |rounds| == cfg.definingLimit <= cfg.cutoffLimit && !HasHit(cfg, rounds[|rounds| - 1])
    ensures Decides(cfg, rounds) <==> cfg.threshold > 100.0 || HasHit(cfg, Flatten(rounds))
  {
  }

  /** With a threshold of 200, a flow that agrees with a model completely is classified, as nobody. */
  lemma CompleteAgreementNamesNobody()
    ensures var cfg := Settings(200.0, true, false, false, 1, 100);
            Run(cfg, [[Score("HTTP", 0.0)]]) == Match(true, "", 100.0, 100.0, "")
  {
    var cfg, rounds := Settings(200.0, true, false, false, 1, 100), [[Score("HTTP", 0.0)]];
    assert rounds[..0] == [];
    assert Scan(cfg, 1, FRESH_MATCH, rounds[0]) == FRESH_MATCH by {
      assert rounds[0][..0] == [];
    }
  }
}
