/**
  A flow as an object (src/common/src/Flow.cpp, src/common/inc/Flow.h).  Its
  methods update its fields as the source does and are proved to do what
  `FlowModel` says; the theorems of `FlowLaws` are about that.
*/
module Flows {
  import opened Wrappers
  import opened Packets
  import opened FlowKey
  import opened FlowControl
  import opened Meters
  import opened AttributeMeters
  import opened MeterLaws
  import opened Divergence
  import opened Classifier
  import opened ProtocolDb
  import opened FlowModel
  import opened IPv4Packets

  /** Once a scan has classified, more scores change nothing. */
  lemma {:induction false} ScanIsOver(cfg: Settings, n: nat, m: Match, scores: seq<Score>, k: nat)
    requires k <= |scores| && Scan(cfg, n, m, scores[..k]).classified
    ensures Scan(cfg, n, m, scores) == Scan(cfg, n, m, scores[..k])
  {
    if k < |scores| {
      assert scores[..|scores| - 1][..k] == scores[..k];
      ScanIsOver(cfg, n, m, scores[..|scores| - 1], k);
    } else {
      assert scores[..k] == scores;
    }
  }

  lemma ScanOfNothing(cfg: Settings, n: nat, m: Match)
    ensures Scan(cfg, n, m, []) == m
  {
  }

  lemma ScanOneMore(cfg: Settings, n: nat, m: Match, scores: seq<Score>, s: Score)
    ensures Scan(cfg, n, m, scores + [s]) == Consider(cfg, n, Scan(cfg, n, m, scores), s)
  {
    assert (scores + [s])[..|scores|] == scores;
  }

  lemma {:induction false} ScoresGrow(env: Env, meters: seq<Meter>, port: nat, k: nat, n: nat)
    requires env.db.portOrder == PortOrder(env.db.order) && k <= n <= |env.db.order| && AllCovered(env, meters)
    ensures Scores(env, meters, port, k) <= Scores(env, meters, port, n)
    decreases n
  {
    hide AllCovered, ModelDivergence;
    if k < n {
      ScoresGrow(env, meters, port, k, n - 1);
    }
  }

  lemma KlSumOneMore(log2: real -> real, p: seq<real>, q: seq<real>, i: nat)
    requires |p| == |q| && i < |p|
    ensures KlSum(log2, p[..i + 1], q[..i + 1]) == KlSum(log2, p[..i], q[..i]) + Term(log2, p[i], q[i])
  {
    assert p[..i + 1][..i] == p[..i] && q[..i + 1][..i] == q[..i];
  }

  lemma {:induction false} LastOfThatName(meters: seq<Meter>, name: string, k: nat)
    requires k < |meters| && meters[k].kind.Name() == name
    requires forall j :: k < j < |meters| ==> meters[j].kind.Name() != name
    ensures FindMeter(meters, name) == k
  {
    if k < |meters| - 1 {
      LastOfThatName(meters[..|meters| - 1], name, k);
    }
  }

  /** Where names do not repeat, the meter of a name has the size on record. */
  lemma CoveredByThatName(kinds: seq<Kind>, pm: MeterModel, k: nat)
    requires KindsApart(kinds) && CoversMeter(kinds, pm) && k < |kinds| && kinds[k].Name() == pm.name
    ensures kinds[k].Slots() == |pm.fingerprint|
  {
    hide Kind.Name, Kind.Slots;
    var j :| 0 <= j < |kinds| && kinds[j].Name() == pm.name && kinds[j].Slots() == |pm.fingerprint|;
    assert j == k;
  }

  lemma KindsAreApart(env: Env)
    requires env.Valid()
    ensures KindsApart(env.kinds)
  {
  }

  lemma KlSumOfNothing(log2: real -> real)
    ensures KlSum(log2, [], []) == 0.0
  {
  }

  lemma UncountedPacketsLeaveNoTime(c: Control, p: Packet)
    ensures Step(c, p).lastSeconds == if IsData(c, p) then p.seconds else c.lastSeconds
  {
    hide Arrive;
  }

  lemma UnmeasuredStep(env: Env, f: FlowData, p: Packet, r: FlowData)
    requires env.Valid() && ValidFlow(env, f) && !Measures(env, f, p) && r == f.(control := Step(f.control, p))
    ensures FlowStep(env, f, p) == r
  {
    hide Step, Measures, ValidMeters, Env.Valid;
  }

  lemma AnalysedStep(env: Env, f: FlowData, p: Packet, r: FlowData)
    requires env.Valid() && ValidFlow(env, f) && ValidFlow(env, r) && Measures(env, f, p) && AllCovered(env, r.meters)
    requires r.control == Step(f.control, p) && r.control.pktCount > 0
    requires r.meters == MeasureEach(f.meters, Seen(f.control, p), p)
    requires r.verdict ==
               if env.config.learning then f.verdict
               else Round(env.Cfg(), r.control.pktCount, f.verdict, Scores(env, r.meters, HintPort(env, r.control.tuple), |env.db.order|))
    requires r.queueId == f.queueId && r.pktsInQueue == f.pktsInQueue
    ensures FlowStep(env, f, p) == r
  {
    hide Scores, MeasureEach, Step, IsData, ValidMeters;
  }

  class Flow {
    const env: Env
    const tuple: Tuple
    const meters: seq<AttributeMeter>

    var state: State
    var pktCount: nat
    var overallPktCount: nat
    var isFirstPacket: bool
    var firstData: seq<Byte>
    var currentDirection: Direction
    var lastDirection: Direction
    var lastSeconds: int
    var flowClassified: bool
    var classifiedProtocol: string
    var classifiedDivergence: real
    var bestMatchDivergence: real
    var bestMatchProtocol: string
    var threadQueueId: int
    var pktsInQueue: int

    ghost const parts: set<object>

    ghost predicate Valid()
      reads parts
    {
      && env.Valid() && this !in parts
      && |meters| == |env.kinds|
      && (forall k :: 0 <= k < |meters| ==>
                        && meters[k] in parts && meters[k].lastPacket in parts
                        && meters[k].Valid() && meters[k].kind == env.kinds[k])
      && (forall j, k :: 0 <= j < k < |meters| ==>
                        meters[j] != meters[k] && meters[j].lastPacket != meters[k].lastPacket)
    }

    /** A packet object is no part of the flow, nor is what it answers to. */
    ghost predicate Clear(packet: IPv4Packet) {
      packet !in parts && (packet.answersTo != null ==> packet.answersTo !in parts)
    }

    ghost function ControlView(): Control
      reads this
    {
      Control(tuple, state, pktCount, overallPktCount, isFirstPacket, firstData, currentDirection, lastDirection, lastSeconds)
    }

    ghost function MatchView(): Match
      reads this
    {
      Match(flowClassified, classifiedProtocol, classifiedDivergence, bestMatchDivergence, bestMatchProtocol)
    }

    ghost function MeterViews(): (ms: seq<Meter>)
      requires Valid()
      reads parts
      ensures |ms| == |meters|
      ensures ValidMeters(env, ms)
    {
      seq(|meters|, k requires 0 <= k < |meters| reads parts requires Valid() => meters[k].View())
    }

    /** The flow as a value. */
    ghost function View(): (f: FlowData)
      requires Valid()
      reads this, parts
      ensures ValidFlow(env, f)
    {
      FlowData(ControlView(), MeterViews(), MatchView(), threadQueueId, pktsInQueue)
    }

    lemma FlowIsNoPart()
      requires Valid()
      ensures this !in parts && env.Valid()
    {
    }

    lemma FieldsAreViewed()
      requires Valid()
      ensures View().control == ControlView() && View().verdict == MatchView()
      ensures View().queueId == threadQueueId && View().pktsInQueue == pktsInQueue
    {
    }

    lemma MeterIsViewed(k: nat)
      requires Valid() && k < |meters|
      ensures meters[k].Valid() && MeterViews()[k] == meters[k].View() && meters[k].kind == MeterViews()[k].kind
    {
    }

    constructor (env: Env, packet: Packet, junk: Junk)
      requires env.Valid()
      ensures Valid() && fresh(parts) && this.env == env && tuple == packet.tuple
      ensures View() == FreshFlow(env, packet, junk)
    {
      var ms: seq<AttributeMeter> := [];
      ghost var ps: set<object> := {};
      for k := 0 to |env.kinds|
        invariant |ms| == k
        invariant forall j :: 0 <= j < k ==>
                                && fresh(ms[j]) && fresh(ms[j].lastPacket) && ms[j] in ps && ms[j].lastPacket in ps
                                && ms[j].Valid() && ms[j].kind == env.kinds[j]
                                && ms[j].View() == FreshMeter(env.kinds[j], junk)
        invariant fresh(ps)
        invariant forall i, j :: 0 <= i < j < k ==> ms[i] != ms[j] && ms[i].lastPacket != ms[j].lastPacket
      {
        var m := new AttributeMeter(env.kinds[k], junk);
        ms := ms + [m];
        ps := ps + {m, m.lastPacket};
      }
      this.env, this.tuple, this.meters, this.parts := env, packet.tuple, ms, ps;
      state, pktCount, overallPktCount, isFirstPacket, firstData := New, 0, 0, false, [];
      currentDirection, lastDirection, lastSeconds := Unknown, Unknown, packet.seconds;
      flowClassified, classifiedProtocol, classifiedDivergence := false, "", 0.0;
      bestMatchDivergence, bestMatchProtocol := 100.0, "";
      threadQueueId, pktsInQueue := -1, 0;
    }

    method RememberFirstPacket(packet: Packet)
      modifies this`firstData, this`isFirstPacket
      ensures firstData == Truncated(packet.payload) && isFirstPacket
    {
      firstData := if PACKET_MAX_BUFFER_SIZE < packet.Size() then packet.payload[..PACKET_MAX_BUFFER_SIZE] else packet.payload;
      isFirstPacket := true;
    }

    /** What the state machine does with a packet. */
    twostate predicate Arrived(packet: IPv4Packet, stops: bool)
      reads this, packet, packet.answersTo
    {
      var c, a := old(ControlView()), Arrive(old(ControlView()), packet.data);
      && stops == a.stops
      && ControlView() == c.(overallPktCount := c.overallPktCount + 1, state := a.state, isFirstPacket := a.isFirst,
                             firstData := if a.isFirst then Truncated(packet.data.payload) else c.firstData)
      && if stops then packet.Gave(NF_ACCEPT) else packet.Silent()
    }

    method ArrivesInNew(packet: IPv4Packet) returns (stops: bool)
      requires packet.Valid() && state == New
      modifies this`overallPktCount, this`isFirstPacket, this`state, this`firstData, packet, packet.verdictSetter
      ensures packet.Valid() && Arrived(packet, stops)
    {
      hide IPv4Packet.Valid, PacketDirection, Truncated;
      overallPktCount := overallPktCount + 1;
      isFirstPacket := false;
      state := Establishing;
      if packet.data.IsUdp() {
        RememberFirstPacket(packet.data);
      } else if packet.data.flags.fin || packet.data.flags.rst {
        state := Finished;
        packet.SetVerdict();
        return true;
      } else if !packet.data.flags.syn {
        state := Finished;
      }
      stops := false;
    }

    method ArrivesInEstablishing(packet: IPv4Packet) returns (stops: bool)
      requires packet.Valid() && state == Establishing
      modifies this`overallPktCount, this`isFirstPacket, this`state, this`firstData, packet, packet.verdictSetter
      ensures packet.Valid() && Arrived(packet, stops)
    {
      hide IPv4Packet.Valid, PacketDirection, Truncated;
      overallPktCount := overallPktCount + 1;
      isFirstPacket := false;
      if packet.data.IsUdp() {
        if PacketDirection(tuple, packet.data.tuple) == DestToOrig {
          state := Established;
        }
      } else if packet.data.flags.fin || packet.data.flags.rst {
        state := Finished;
        packet.SetVerdict();
        return true;
      } else if packet.data.flags.syn {
        state := Establishing;
      } else {
        state := Established;
      }
      stops := false;
    }

    method ArrivesInEstablished(packet: IPv4Packet) returns (stops: bool)
      requires packet.Valid() && state == Established
      modifies this`overallPktCount, this`isFirstPacket, this`state, this`firstData, packet, packet.verdictSetter
      ensures packet.Valid() && Arrived(packet, stops)
    {
      hide IPv4Packet.Valid, PacketDirection, Truncated;
      overallPktCount := overallPktCount + 1;
      isFirstPacket := false;
      if packet.data.IsTcp() {
        if packet.data.flags.fin {
          state := Finished;
          packet.SetVerdict();
          return true;
        } else if packet.data.flags.rst {
          state := Finished;
          packet.SetVerdict();
          return true;
        } else if |firstData| == 0 && PacketDirection(tuple, packet.data.tuple) == OrigToDest {
          RememberFirstPacket(packet.data);
        }
      }
      stops := false;
    }

    /** FINISHING, FINISHED and FINISHED_NOTIFIED. */
    method ArrivesLate(packet: IPv4Packet) returns (stops: bool)
      requires packet.Valid() && state in {Finishing, Finished, FinishedNotified}
      modifies this`overallPktCount, this`isFirstPacket, this`state, this`firstData, packet, packet.verdictSetter
      ensures packet.Valid() && Arrived(packet, stops)
    {
      hide IPv4Packet.Valid, PacketDirection, Truncated;
      overallPktCount := overallPktCount + 1;
      isFirstPacket := false;
      if state == Finishing {
        if packet.data.IsTcp() && (packet.data.flags.fin || packet.data.flags.rst) {
          state := Finished;
          packet.SetVerdict();
          return true;
        }
        return false;
      } else {
        packet.SetVerdict();
        return true;
      }
    }

    /** The state machine; a packet that goes no further is accepted here. */
    method Arrives(packet: IPv4Packet) returns (stops: bool)
      requires packet.Valid()
      modifies this`overallPktCount, this`isFirstPacket, this`state, this`firstData, packet, packet.verdictSetter
      ensures packet.Valid() && Arrived(packet, stops)
    {
      hide IPv4Packet.Valid, Arrived;
      match state
      case New => stops := ArrivesInNew(packet);
      case Establishing => stops := ArrivesInEstablishing(packet);
      case Established => stops := ArrivesInEstablished(packet);
      case _ => stops := ArrivesLate(packet);
    }

    /** Every meter is shown the packet. */
    method MeasurePacket(packet: Packet)
      requires Valid() && pktCount > 0
      modifies parts
      ensures Valid() && MeterViews() == MeasureEach(old(MeterViews()), ControlView(), packet)
    {
      ghost var c := ControlView();
      var control := Control(tuple, state, pktCount, overallPktCount, isFirstPacket, firstData, currentDirection, lastDirection, lastSeconds);
      for k := 0 to |meters|
        invariant Valid()
        invariant forall j :: 0 <= j < k ==> meters[j].View() == Measure(old(MeterViews())[j], c, packet)
        invariant forall j :: k <= j < |meters| ==> meters[j].View() == old(MeterViews())[j]
      {
        meters[k].CalculateMeasurement(control, packet);
      }
    }

    /** The divergence of one meter from a model's. */
    method MeterScore(am: AttributeMeter, pm: MeterModel) returns (sum: real)
      requires am.Valid() && am.kind.Slots() == |pm.fingerprint|
      ensures sum == MeterDivergence(env.log2, Observed(am.View(), |pm.fingerprint|), pm.fingerprint)
    {
      hide KlSum, Smooth;
      ghost var p, q := Smoothed(Observed(am.View(), |pm.fingerprint|)), Smoothed(pm.fingerprint);
      KlSumOfNothing(env.log2);
      sum := 0.0;
      for fp := 0 to |pm.fingerprint|
        invariant sum == KlSum(env.log2, p[..fp], q[..fp])
      {
        var observed := Smooth(am.At(fp), am.kind.Slots());
        var model := Smooth(pm.fingerprint[fp], |pm.fingerprint|);
        KlSumOneMore(env.log2, p, q, fp);
        if model > 0.0 {
          sum := sum + observed * env.log2(observed / model);
        }
      }
      assert p[..|p|] == p && q[..|q|] == q;
      if sum < 0.0 {
        sum := sum * -1.0;
      }
    }

    /** The meter a model's meter is compared with: the last one registered under its name. */
    method FindAttributeMeter(pm: MeterModel) returns (am: AttributeMeter, ghost at: nat)
      requires Valid() && CoversMeter(env.kinds, pm)
      ensures at < |meters| && am == meters[at] && am.kind.Slots() == |pm.fingerprint|
      ensures var ms := MeterViews();
              (exists k :: 0 <= k < |ms| && ms[k].kind.Name() == pm.name) && at == FindMeter(ms, pm.name)
    {
      hide Kind.Name, Kind.Slots, Env.Valid;
      ghost var ms := MeterViews();
      forall k | 0 <= k < |meters| ensures ms[k].kind == meters[k].kind == env.kinds[k] {
      }
      var k := |meters| - 1;
      while meters[k].kind.Name() != pm.name
        invariant 0 <= k < |meters|
        invariant forall j :: k < j < |meters| ==> ms[j].kind.Name() != pm.name
        invariant exists j :: 0 <= j <= k && ms[j].kind.Name() == pm.name
        decreases k
      {
        k := k - 1;
      }
      LastOfThatName(ms, pm.name, k);
      KindsAreApart(env);
      CoveredByThatName(env.kinds, pm, k);
      am, at := meters[k], k;
    }

    /** The divergence of the flow from a model: a sum over the model's enabled meters. */
    method ModelScore(model: Model) returns (klDivergence: real)
      requires Valid() && Covers(env.kinds, model) && MetersCover(MeterViews(), model)
      ensures klDivergence == ModelDivergence(env.log2, MeterViews(), model, |model.meters|)
    {
      hide MeterDivergence, Env.Valid, Observed, Kind.Name, Kind.Slots, CoversMeter, FindMeter;
      ghost var ms := MeterViews();
      klDivergence := 0.0;
      for a := 0 to |model.meters|
        invariant klDivergence == ModelDivergence(env.log2, ms, model, a)
      {
        var pm := model.meters[a];
        if pm.enabled {
          var am, at := FindAttributeMeter(pm);
          var sum := MeterScore(am, pm);
          klDivergence := klDivergence + sum;
        }
      }
    }

    /** One model in the scan: it classifies the flow, or improves the best match, or neither. */
    method ConsiderModel(name: string, klDivergence: real)
      requires !flowClassified
      modifies this`flowClassified, this`classifiedProtocol, this`classifiedDivergence, this`bestMatchDivergence, this`bestMatchProtocol
      ensures MatchView() == Consider(env.Cfg(), pktCount, old(MatchView()), Score(name, klDivergence))
    {
      if klDivergence > 0.0 && pktCount >= env.db.definingLimit && klDivergence < env.config.threshold {
        flowClassified := true;
        classifiedProtocol := name;
        classifiedDivergence := klDivergence;
        return;
      }
      if klDivergence > 0.0 && klDivergence < bestMatchDivergence {
        bestMatchDivergence := klDivergence;
        bestMatchProtocol := name;
      }
    }

    /** The models are tried in the lookup order of the flow's port, until one classifies. */
    method ScanModels()
      requires Valid() && !flowClassified
      modifies this`flowClassified, this`classifiedProtocol, this`classifiedDivergence, this`bestMatchDivergence, this`bestMatchProtocol
      ensures AllCovered(env, MeterViews())
      ensures MatchView() == Scan(env.Cfg(), pktCount, old(MatchView()), Scores(env, MeterViews(), HintPort(env, tuple), |env.db.order|))
    {
      hide Scan, Consider, ModelDivergence, Covers, PortOrder, ValidMeters, MeasureEach;
      ghost var ms, cfg, m0, port := MeterViews(), env.Cfg(), MatchView(), HintPort(env, tuple);
      FlowsCoverTheDatabase(env, View());
      ScanOfNothing(cfg, pktCount, m0);
      var i := 0;
      while i < |env.db.order|
        invariant i <= |env.db.order| && !flowClassified
        invariant MatchView() == Scan(cfg, pktCount, m0, Scores(env, ms, port, i))
      {
        var hintPort := if env.config.usePortHints then tuple.dstPort as nat else 0;
        ListedModelsExist(env.db, i, hintPort);
        var found := At(env.db, i, hintPort);
        i := i + 1;
        if found.None? {
          continue;
        }
        var model := env.db.order[found.value];
        if !model.enabled {
          continue;
        }
        var klDivergence := ModelScore(model);
        ScanOneMore(cfg, pktCount, m0, Scores(env, ms, port, i - 1), Score(model.name, klDivergence));
        ConsiderModel(model.name, klDivergence);
        if flowClassified {
          break;
        }
      }
      if flowClassified {
        ScoresGrow(env, ms, port, i, |env.db.order|);
        assert Scores(env, ms, port, |env.db.order|)[..|Scores(env, ms, port, i)|] == Scores(env, ms, port, i);
        ScanIsOver(cfg, pktCount, m0, Scores(env, ms, port, |env.db.order|), |Scores(env, ms, port, i)|);
      }
    }

    /** The classification block: a scan, then, at the defining limit, the best match so far. */
    method Classify()
      requires Valid() && !flowClassified && !env.config.learning && pktCount <= env.db.cutoffLimit
      modifies this`flowClassified, this`classifiedProtocol, this`classifiedDivergence, this`bestMatchDivergence, this`bestMatchProtocol
      ensures AllCovered(env, MeterViews())
      ensures MatchView() == Round(env.Cfg(), pktCount, old(MatchView()), Scores(env, MeterViews(), HintPort(env, tuple), |env.db.order|))
    {
      hide Scan, Scores, AllCovered;
      ScanModels();
      if env.config.useBestMatch {
        if !flowClassified && pktCount == env.db.definingLimit && bestMatchDivergence < env.config.threshold {
          flowClassified := true;
          classifiedProtocol := bestMatchProtocol;
          classifiedDivergence := bestMatchDivergence;
        }
      }
    }

    /** The packet meets the state machine, and is counted if it is data; otherwise it is accepted here. */
    method Admit(packet: IPv4Packet) returns (isData: bool)
      requires packet.Valid()
      modifies this`overallPktCount, this`isFirstPacket, this`state, this`firstData, this`pktCount, this`lastDirection, this`currentDirection
      modifies packet, packet.verdictSetter
      ensures packet.Valid() && if isData then packet.Silent() else packet.Gave(NF_ACCEPT)
      ensures isData == IsData(old(ControlView()), packet.data)
      ensures ControlView() == Seen(old(ControlView()), packet.data)
    {
      hide Arrive, PacketDirection, IPv4Packet.Valid;
      var direction := PacketDirection(tuple, packet.data.tuple);
      var stops := Arrives(packet);
      if stops {
        return false;
      }
      if packet.data.IsTcp() {
        // No need to look at an empty SYN, nor at an empty ACK.
        if packet.data.flags.syn && packet.data.Size() <= 0 {
          packet.SetVerdict();
          return false;
        }
        if packet.data.flags.ack && packet.data.Size() <= 0 {
          packet.SetVerdict();
          return false;
        }
      }
      pktCount := pktCount + 1;
      lastDirection := currentDirection;
      currentDirection := direction;
      isData := true;
    }

    /** The packet is shown to the meters, and then the flow to the classifier, unless the tracker is learning. */
    method Analyse(packet: Packet)
      requires Valid() && pktCount > 0 && !flowClassified && pktCount <= env.db.cutoffLimit
      modifies this, parts
      ensures Valid() && AllCovered(env, MeterViews())
      ensures ControlView() == old(ControlView()).(lastSeconds := packet.seconds)
      ensures MeterViews() == MeasureEach(old(MeterViews()), old(ControlView()), packet)
      ensures MatchView() ==
                if env.config.learning then old(MatchView())
                else Round(env.Cfg(), pktCount, old(MatchView()), Scores(env, MeterViews(), HintPort(env, tuple), |env.db.order|))
      ensures threadQueueId == old(threadQueueId) && pktsInQueue == old(pktsInQueue)
    {
      hide Scores, Round, MeasureEach, AllCovered, ValidMeters, Measure;
      MeasurePacket(packet);
      lastSeconds := packet.seconds;
      FlowsCoverTheDatabase(env, View());
      if !env.config.learning && !flowClassified {
        Classify();
      }
    }

    /** The paths a data packet can take; each accepts it. */
    method HandleData(packet: IPv4Packet)
      requires Valid() && pktCount > 0 && packet.Valid() && Clear(packet)
      modifies this, parts, packet, packet.verdictSetter
      ensures Valid() && AllCovered(env, MeterViews())
      ensures packet.Valid() && packet.Gave(NF_ACCEPT)
      ensures ControlView() == old(ControlView()).(lastSeconds := packet.data.seconds)
      ensures threadQueueId == old(threadQueueId) && pktsInQueue == old(pktsInQueue)
      ensures var looks := LooksAt(env.Cfg(), old(pktCount), old(MatchView()));
              && MeterViews() == (if looks then MeasureEach(old(MeterViews()), old(ControlView()), packet.data) else old(MeterViews()))
              && MatchView() ==
                   if env.config.learning || !looks then old(MatchView())
                   else Round(env.Cfg(), pktCount, old(MatchView()), Scores(env, MeterViews(), HintPort(env, tuple), |env.db.order|))
    {
      hide Scores, Round, MeasureEach, AllCovered, ValidMeters, MeterViews, IPv4Packet.Valid;
      packet.AnswersToItsSetter();
      FlowsCoverTheDatabase(env, View());
      if flowClassified {
        lastSeconds := packet.data.seconds;
        packet.SetVerdict();
        return;
      }
      if pktCount > env.db.cutoffLimit {
        lastSeconds := packet.data.seconds;
        packet.SetVerdict();
        return;
      }
      Analyse(packet.data);
      packet.SetVerdict();
    }

    /** The paths any packet can take. */
    method Handle(packet: IPv4Packet)
      requires Valid() && packet.Valid() && Clear(packet)
      modifies this, parts, packet, packet.verdictSetter
      ensures Valid() && View() == FlowStep(env, old(View()), packet.data)
      ensures packet.Valid() && packet.Gave(NF_ACCEPT)
    {
      hide Scores, Round, MeasureEach, Step, IsData, AllCovered, ValidMeters, MeterViews, IPv4Packet.Valid, Flow.Valid, FlowStep;
      ghost var before := View();
      DataPacketsAreCounted(ControlView(), packet.data);
      UncountedPacketsLeaveNoTime(ControlView(), packet.data);
      packet.AnswersToItsSetter();
      FlowIsNoPart();
      var isData := Admit(packet);
      if !isData {
        UnmeasuredStep(env, before, packet.data, View());
        return;
      }
      HandleData(packet);
      if Measures(env, before, packet.data) {
        AnalysedStep(env, before, packet.data, View());
      } else {
        UnmeasuredStep(env, before, packet.data, View());
      }
    }

    /** A packet of the flow: counted, and analysed as long as the flow is unclassified and within the limit.
        It is accepted on whatever path it takes, and then destroyed. */
    method AddPacket(packet: IPv4Packet)
      requires Valid() && packet.Valid() && Clear(packet)
      modifies this, parts, packet, packet.verdictSetter
      ensures Valid() && View() == FlowStep(env, old(View()), packet.data)
      ensures packet.Valid() && packet.Gave(NF_ACCEPT)
    {
      hide FlowStep, Flow.Valid, IPv4Packet.Valid;
      Handle(packet);
      packet.Destroy();
    }

    method IncPktsInQueue()
      requires Valid()
      modifies this`pktsInQueue
      ensures Valid() && View() == old(View()).(pktsInQueue := old(pktsInQueue) + 1)
    {
      pktsInQueue := pktsInQueue + 1;
    }

    method DecPktsInQueue()
      requires Valid()
      modifies this`pktsInQueue
      ensures Valid() && View() == old(View()).(pktsInQueue := old(pktsInQueue) - 1)
    {
      pktsInQueue := pktsInQueue - 1;
    }

    method SetFinishedAndNotified()
      requires Valid()
      modifies this`state
      ensures Valid() && View() == old(View()).(control := old(View()).control.(state := FinishedNotified))
    {
      state := FinishedNotified;
    }

    method SetThreadQueueId(id: int)
      requires Valid()
      modifies this`threadQueueId
      ensures Valid() && View() == old(View()).(queueId := id)
    {
      threadQueueId := id;
    }
  }
}
