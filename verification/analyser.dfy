/**
  The analyser as objects (tools/analyse_results.py): one `ProtocolResult` for each
  protocol, whose counters and tables `gather_results` updates in place.  It is
  proved to keep the books of `Analyse`.
*/
module Analysers {
  import opened Wrappers
  import opened Analyse

  function LeftAside(c: Counts): Counts {
    c.(trueNegative := c.trueNegative + 1)
  }

  class ProtocolResult {
    var truePositive: nat
    var falsePositive: nat
    var trueNegative: nat
    var falseNegative: nat
    var notClassified: nat
    var underDefiningLimit: nat
    var falsePositiveProtocols: map<Protocol, nat>
    var falseNegativeProtocols: map<Protocol, nat>

    function View(): Counts
      reads this
    {
      Counts(truePositive, falsePositive, trueNegative, falseNegative, notClassified, underDefiningLimit,
             falsePositiveProtocols, falseNegativeProtocols)
    }

    constructor ()
      ensures View() == NO_COUNTS
    {
      truePositive, falsePositive, trueNegative, falseNegative, notClassified, underDefiningLimit := 0, 0, 0, 0, 0, 0;
      falsePositiveProtocols, falseNegativeProtocols := map[], map[];
    }

    method IncreaseTruePositive()
      modifies this
      ensures View() == old(View()).(truePositive := old(View()).truePositive + 1)
    {
      truePositive := truePositive + 1;
    }

    method IncreaseTrueNegative()
      modifies this
      ensures View() == LeftAside(old(View()))
    {
      trueNegative := trueNegative + 1;
    }

    /** A flow of this protocol was called something else. */
    method AddFalseNegative(protocol: Protocol)
      modifies this
      ensures var c := old(View());
              View() == c.(falseNegative := c.falseNegative + 1, falseNegativeProtocols := OneMore(c.falseNegativeProtocols, protocol))
    {
      falseNegative := falseNegative + 1;
      if protocol in falseNegativeProtocols {
        falseNegativeProtocols := falseNegativeProtocols[protocol := falseNegativeProtocols[protocol] + 1];
      } else {
        falseNegativeProtocols := falseNegativeProtocols[protocol := 1];
      }
    }

    /** A flow of another protocol was called this. */
    method AddFalsePositive(protocol: Protocol)
      modifies this
      ensures var c := old(View());
              View() == c.(falsePositive := c.falsePositive + 1, falsePositiveProtocols := OneMore(c.falsePositiveProtocols, protocol))
    {
      falsePositive := falsePositive + 1;
      if protocol in falsePositiveProtocols {
        falsePositiveProtocols := falsePositiveProtocols[protocol := falsePositiveProtocols[protocol] + 1];
      } else {
        falsePositiveProtocols := falsePositiveProtocols[protocol := 1];
      }
    }

    method IncreaseNotClassified(underLimit: bool)
      modifies this
      ensures var c := old(View());
              View() == c.(notClassified := c.notClassified + 1, underDefiningLimit := c.underDefiningLimit + if underLimit then 1 else 0)
    {
      notClassified := notClassified + 1;
      if underLimit {
        underDefiningLimit := underDefiningLimit + 1;
      }
    }

    /** Recall, precision and F-measure in percent. */
    method CalculateAnalysis() returns (recall: real, precision: real, fmeasure: real)
      ensures (recall, precision, fmeasure) == Analysis(truePositive, falsePositive, falseNegative)
    {
      hide Share;
      ShareIsPositive(truePositive, falseNegative);
      ShareIsPositive(truePositive, falsePositive);
      recall := Share(truePositive, falseNegative);
      precision := Share(truePositive, falsePositive);
      if precision == 0.0 && recall == 0.0 {
        fmeasure := 0.0;
      } else {
        fmeasure := 2.0 * precision * recall / (precision + recall);
      }
      assert fmeasure == FMeasure(precision, recall);
      recall, precision, fmeasure := recall * 100.0, precision * 100.0, fmeasure * 100.0;
    }
  }

  /** The flows whose protocol is known, if a file was given, and the protocol of all others. */
  datatype Oracle = Oracle(hasFlows: bool, flows: map<string, Protocol>, default: Protocol) {
    function Expected(flow: string): Protocol {
      if hasFlows && flow in flows then flows[flow] else default
    }
  }

  /** An entry of the results file. */
  datatype RawResult = RawResult(flow: string, classified: bool, mention: Mention, underLimit: bool) {
    function Judged(oracle: Oracle): Result {
      Result(oracle.Expected(flow), classified, mention, underLimit)
    }
  }

  function JudgeAll(raws: seq<RawResult>, oracle: Oracle): (rs: seq<Result>)
    ensures |rs| == |raws| && forall i :: 0 <= i < |rs| ==> rs[i] == raws[i].Judged(oracle)
  {
    seq(|raws|, i requires 0 <= i < |raws| => raws[i].Judged(oracle))
  }

  /** How gathering ends: well; with exit(1); because an unknown default protocol is looked up under an
      undefined name; because a classified result names no protocol; or, all counts made, because there is
      no flows file whose flows could be visited. */
  datatype Ending = Done | Exit | UndefinedName | MissingProtocol | NoFlows

  class Analyser {
    var protocolResults: map<Protocol, ProtocolResult>
    ghost var since: map<Protocol, nat>
    ghost var seen: nat

    ghost function Objects(): set<object>
      reads this
    {
      set p | p in protocolResults :: protocolResults[p]
    }

    ghost predicate Valid()
      reads this
    {
      && this !in Objects()
      && forall p, q :: p in protocolResults && q in protocolResults && p != q ==> protocolResults[p] != protocolResults[q]
    }

    ghost function View(): Books
      reads this, Objects()
    {
      Books(map p | p in protocolResults :: protocolResults[p].View(), since, seen)
    }

    constructor ()
      ensures Valid() && protocolResults == map[] && View() == Books(map[], map[], 0)
    {
      protocolResults, since, seen := map[], map[], 0;
    }

    method Enter(p: Protocol)
      requires Valid()
      modifies this
      ensures Valid() && fresh(Objects() - old(Objects())) && p in protocolResults && old(protocolResults.Keys) <= protocolResults.Keys
      ensures View() == AddEntry(old(View()), p)
    {
      hide ProtocolResult.View;
      if p in protocolResults {
        return;
      }
      var pr := new ProtocolResult();
      ghost var before := View();
      protocolResults := protocolResults[p := pr];
      since := since[p := seen];
      assert View().counts == before.counts[p := NO_COUNTS];
    }

    /** Every protocol that the result does not concern has rightly not been named. */
    method LeaveAside(concerned: set<Protocol>)
      requires Valid()
      modifies Objects()
      ensures forall p :: p in protocolResults ==>
                            var c := old(protocolResults[p].View());
                            protocolResults[p].View() == if p in concerned then c else LeftAside(c)
    {
      hide ProtocolResult.View;
      var todo := protocolResults.Keys;
      while todo != {}
        invariant todo <= protocolResults.Keys
        invariant forall p :: p in protocolResults ==>
                                var c := old(protocolResults[p].View());
                                protocolResults[p].View() == if p in concerned || p in todo then c else LeftAside(c)
        decreases todo
      {
        var p :| p in todo;
        if p !in concerned {
          protocolResults[p].IncreaseTrueNegative();
        }
        todo := todo - {p};
      }
    }

    /** The entries that the result concerns are counted up, if it can be read. */
    method CountUp(r: Result) returns (good: bool)
      requires Valid() && r.expected in protocolResults && (r.mention.As? ==> r.mention.protocol in protocolResults)
      modifies Objects()
      ensures good == r.Readable()
      ensures forall p :: p in protocolResults ==>
                            var c := old(protocolResults[p].View());
                            protocolResults[p].View() == if good then Bump(c, p, r) else c
    {
      hide ProtocolResult.View;
      if r.classified {
        if r.mention.Nobody? {
          return false;
        }
        var named := r.mention.protocol;
        if named == r.expected {
          protocolResults[r.expected].IncreaseTruePositive();
          LeaveAside({r.expected});
        } else {
          protocolResults[r.expected].AddFalseNegative(named);
          protocolResults[named].AddFalsePositive(r.expected);
          LeaveAside({r.expected, named});
        }
      } else {
        protocolResults[r.expected].IncreaseNotClassified(r.underLimit);
        LeaveAside({r.expected});
      }
      good := true;
    }

    /** The protocols that a result names are known from now on. */
    method EnterResult(r: Result)
      requires Valid()
      modifies this
      ensures Valid() && fresh(Objects() - old(Objects())) && View() == Analyse.Enter(old(View()), r)
      ensures r.expected in protocolResults && (r.mention.As? ==> r.mention.protocol in protocolResults)
    {
      hide ProtocolResult.View, AddEntry;
      Enter(r.expected);
      if r.mention.As? {
        Enter(r.mention.protocol);
      }
    }

    /** One result.  One that cannot be read leaves no more than the entry of the protocol it should have been. */
    method GatherResult(r: Result) returns (good: bool)
      requires Valid()
      modifies this, Objects()
      ensures Valid() && fresh(Objects() - old(Objects())) && good == r.Readable()
      ensures View() == if good then Gather(old(View()), r) else Analyse.Enter(old(View()), r)
    {
      hide ProtocolResult.View, Bump, Analyse.Enter, Result.Readable;
      EnterResult(r);
      ghost var e := View();
      good := CountUp(r);
      if good {
        seen := seen + 1;
        assert View().counts == map p | p in e.counts :: Bump(e.counts[p], p, r);
      } else {
        assert View().counts == e.counts;
      }
    }

    /** All results up to the first that cannot be read, unless gathering cannot begin. */
    method GatherResults(results: Option<seq<RawResult>>, oracle: Oracle) returns (ending: Ending)
      requires Valid()
      modifies this, Objects()
      ensures Valid()
      ensures ending.Exit? <==> results.None? || (!oracle.hasFlows && oracle.default == Nameless)
      ensures ending.UndefinedName? <==> !ending.Exit? && oracle.default != Nameless && oracle.default !in old(protocolResults)
      ensures ending.Exit? || ending.UndefinedName? ==> View() == old(View())
      ensures !ending.Exit? && !ending.UndefinedName? ==>
                var rs := JudgeAll(results.value, oracle);
                var n := ReadableUpTo(rs);
                && (ending.MissingProtocol? <==> n < |rs|)
                && (ending.NoFlows? <==> n == |rs| && !oracle.hasFlows)
                && View() == if n < |rs| then Analyse.Enter(GatherAll(old(View()), rs[..n]), rs[n]) else GatherAll(old(View()), rs)
    {
      hide ProtocolResult.View, Gather, Result.Readable;
      if results.None? {
        return Exit;
      }
      if !oracle.hasFlows && oracle.default == Nameless {
        return Exit;
      }
      if oracle.default != Nameless && oracle.default !in protocolResults {
        return UndefinedName;
      }
      var raws := results.value;
      ghost var rs := JudgeAll(raws, oracle);
      for i := 0 to |raws|
        invariant Valid() && fresh(Objects() - old(Objects()))
        invariant forall k :: 0 <= k < i ==> rs[k].Readable()
        invariant View() == GatherAll(old(View()), rs[..i])
      {
        assert rs[..i + 1][..i] == rs[..i];
        var good := GatherResult(raws[i].Judged(oracle));
        if !good {
          ReadableUntil(rs, i);
          return MissingProtocol;
        }
      }
      assert rs[..|rs|] == rs;
      ReadableUntil(rs, |rs|);
      ending := if oracle.hasFlows then Done else NoFlows;
    }
  }

  // ---------- the two calls that fail ----------

  /** A default protocol that neither the database nor the flows file knows: the name is looked up where
      there is none. */
  method UnknownDefaultFails(name: string, raws: seq<RawResult>) returns (ending: Ending)
    ensures ending == UndefinedName
  {
    var analyser := new Analyser();
    ending := analyser.GatherResults(Some(raws), Oracle(true, map[], Named(name)));
  }

  /** A default protocol alone, known from the database: a flow that was called by it is counted, and then
      the flows file is missed. */
  method DefaultAloneFails(name: string) returns (ending: Ending, truePositives: nat)
    ensures ending == NoFlows && truePositives == 1
  {
    var analyser := new Analyser();
    analyser.Enter(Named(name));
    var raws := [RawResult("flow", true, As(Named(name)), false)];
    var oracle := Oracle(false, map[], Named(name));
    ghost var before, rs := analyser.View(), JudgeAll(raws, oracle);
    ending := analyser.GatherResults(Some(raws), oracle);
    assert rs == [Result(Named(name), true, As(Named(name)), false)];
    assert rs[..0] == [] && GatherAll(before, []) == before;
    assert analyser.View() == Gather(before, rs[0]);
    assert Named(name) in analyser.View().counts;
    truePositives := analyser.protocolResults[Named(name)].truePositive;
    assert analyser.View().counts[Named(name)].truePositive == truePositives;
  }
}
