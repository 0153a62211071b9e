/**
  A flow as a value: control, meters and classification together
  (src/common/src/Flow.cpp), and what holds of any packet history.
*/
module FlowModel {
  import opened Wrappers
  import opened Packets
  import opened FlowKey
  import opened FlowControl
  import opened Meters
  import opened MeterLaws
  import opened Classifier
  import opened Divergence
  import opened ProtocolDb
  import opened ProtocolDbLaws

  datatype Config = Config(threshold: real, useBestMatch: bool, learning: bool, usePortHints: bool)

  /** What a flow is judged by: the configuration, the protocol database, the logarithm, and
      the kinds of meter that reading the database has enabled. */
  datatype Env = Env(config: Config, db: Db, log2: real -> real, kinds: seq<Kind>) {
    function Cfg(): Settings {
      Settings(config.threshold, config.useBestMatch, config.learning, config.usePortHints, db.definingLimit, db.cutoffLimit)
    }

    /** Every meter that a classification consults exists in every flow, once, and with as many slots. */
    ghost predicate Valid() {
      && db.portOrder == PortOrder(db.order)
      && KindsApart(kinds)
      && forall i :: 0 <= i < |db.order| && db.order[i].enabled ==> Covers(kinds, db.order[i])
    }
  }

  predicate CoversMeter(kinds: seq<Kind>, m: MeterModel) {
    exists k :: 0 <= k < |kinds| && kinds[k].Name() == m.name && kinds[k].Slots() == |m.fingerprint|
  }

  predicate Covers(kinds: seq<Kind>, model: Model) {
    forall a :: 0 <= a < |model.meters| && model.meters[a].enabled ==> CoversMeter(kinds, model.meters[a])
  }

  datatype FlowData = FlowData(control: Control, meters: seq<Meter>, verdict: Match, queueId: int, pktsInQueue: int)

  ghost predicate ValidMeters(env: Env, meters: seq<Meter>) {
    && |meters| == |env.kinds|
    && forall k :: 0 <= k < |meters| ==> meters[k].Valid() && meters[k].kind == env.kinds[k]
  }

  ghost predicate ValidFlow(env: Env, f: FlowData) {
    ValidMeters(env, f.meters)
  }

  function FreshMeters(env: Env, junk: Junk): seq<Meter> {
    seq(|env.kinds|, k requires 0 <= k < |env.kinds| => FreshMeter(env.kinds[k], junk))
  }

  /** A new flow, its meters in memory that holds `junk`. */
  function FreshFlow(env: Env, p: Packet, junk: Junk): FlowData {
    FlowData(Fresh(p), FreshMeters(env, junk), FRESH_MATCH, -1, 0)
  }

  // ---------- scores ----------

  /** The position of the meter with a given name. */
  function FindMeter(meters: seq<Meter>, name: string): (k: nat)
    requires exists k :: 0 <= k < |meters| && meters[k].kind.Name() == name
    ensures k < |meters| && meters[k].kind.Name() == name
  {
    if meters[|meters| - 1].kind.Name() == name then |meters| - 1 else FindMeter(meters[..|meters| - 1], name)
  }

  function Observed(m: Meter, n: nat): (v: seq<real>)
    ensures |v| == n
  {
    seq(n, i requires i >= 0 => m.At(i))
  }

  ghost predicate MetersCover(meters: seq<Meter>, model: Model) {
    forall a :: 0 <= a < |model.meters| && model.meters[a].enabled ==>
                  exists k :: 0 <= k < |meters| && meters[k].kind.Name() == model.meters[a].name
  }

  /** The divergence of a flow's meters from the first `n` meters of a model: a sum over the enabled ones. */
  function ModelDivergence(log2: real -> real, meters: seq<Meter>, model: Model, n: nat): (d: real)
    requires n <= |model.meters| && MetersCover(meters, model)
    ensures d >= 0.0
  {
    if n == 0 then 0.0
    else
      var front := ModelDivergence(log2, meters, model, n - 1);
      var m := model.meters[n - 1];
      if !m.enabled then front
      else front + MeterDivergence(log2, Observed(meters[FindMeter(meters, m.name)], |m.fingerprint|), m.fingerprint)
  }

  function HintPort(env: Env, t: Tuple): nat {
    if env.config.usePortHints then t.dstPort as nat else 0
  }

  ghost predicate AllCovered(env: Env, meters: seq<Meter>) {
    forall i :: 0 <= i < |env.db.order| && env.db.order[i].enabled ==> MetersCover(meters, env.db.order[i])
  }

  lemma FlowsCoverTheDatabase(env: Env, f: FlowData)
    requires env.Valid() && ValidFlow(env, f)
    ensures AllCovered(env, f.meters)
  {
    forall i, a | 0 <= i < |env.db.order| && env.db.order[i].enabled && 0 <= a < |env.db.order[i].meters| && env.db.order[i].meters[a].enabled
      ensures exists k :: 0 <= k < |f.meters| && f.meters[k].kind.Name() == env.db.order[i].meters[a].name
    {
      assert CoversMeter(env.kinds, env.db.order[i].meters[a]);
      var k :| 0 <= k < |env.kinds| && env.kinds[k].Name() == env.db.order[i].meters[a].name;
      assert f.meters[k].kind == env.kinds[k];
    }
  }

  /** The scores of the first `n` models in the lookup order of a port, enabled ones only. */
  function Scores(env: Env, meters: seq<Meter>, port: nat, n: nat): seq<Score>
    requires env.db.portOrder == PortOrder(env.db.order) && n <= |env.db.order| && AllCovered(env, meters)
  {
    if n == 0 then []
    else
      var front := Scores(env, meters, port, n - 1);
      ListedModelsExist(env.db, n - 1, port);
      match At(env.db, n - 1, port)
      case None => front
      case Some(i) =>
        var model := env.db.order[i];
        if !model.enabled then front
        else front + [Score(model.name, ModelDivergence(env.log2, meters, model, |model.meters|))]
  }

  lemma ListedModelsExist(db: Db, pos: nat, port: nat)
    requires db.portOrder == PortOrder(db.order)
    ensures At(db, pos, port).Some? ==> At(db, pos, port).value < |db.order|
  {
    PortListsHoldPositions(db.order, port);
  }

  // ---------- one packet, and all of them ----------

  function MeasureEach(meters: seq<Meter>, c: Control, p: Packet): (r: seq<Meter>)
    requires c.pktCount > 0 && forall k :: 0 <= k < |meters| ==> meters[k].Valid()
    ensures |r| == |meters|
    ensures forall k :: 0 <= k < |meters| ==> r[k] == Measure(meters[k], c, p) && r[k].Valid() && r[k].kind == meters[k].kind
  {
    seq(|meters|, k requires 0 <= k < |meters| => Measure(meters[k], c, p))
  }

  /** The flow as its meters see it: the packet is counted, the clock is not yet set. */
  function Seen(c: Control, p: Packet): Control {
    Step(c, p).(lastSeconds := c.lastSeconds)
  }

  /** The packet is measured: it is data, and the flow still looks at its data. */
  predicate Measures(env: Env, f: FlowData, p: Packet) {
    IsData(f.control, p) && LooksAt(env.Cfg(), f.control.pktCount + 1, f.verdict)
  }

  ghost function ScoresAfter(env: Env, f: FlowData, p: Packet): seq<Score>
    requires env.Valid() && ValidFlow(env, f)
  {
    var c := Step(f.control, p);
    if Measures(env, f, p) then
      var meters := MeasureEach(f.meters, Seen(f.control, p), p);
      FlowsCoverTheDatabase(env, f.(meters := meters));
      Scores(env, meters, HintPort(env, c.tuple), |env.db.order|)
    else []
  }

  /** What `Flow::addPacket` makes of a flow. */
  ghost function FlowStep(env: Env, f: FlowData, p: Packet): (r: FlowData)
    requires env.Valid() && ValidFlow(env, f)
    ensures ValidFlow(env, r)
  {
    var c := Step(f.control, p);
    if Measures(env, f, p) then
      f.(control := c, meters := MeasureEach(f.meters, Seen(f.control, p), p),
         verdict := Round(env.Cfg(), c.pktCount, f.verdict, ScoresAfter(env, f, p)))
    else f.(control := c)
  }

  ghost function FlowRun(env: Env, f: FlowData, ps: seq<Packet>): (r: FlowData)
    requires env.Valid() && ValidFlow(env, f)
    ensures ValidFlow(env, r)
  {
    if ps == [] then f else FlowStep(env, FlowRun(env, f, ps[..|ps| - 1]), ps[|ps| - 1])
  }

  /** The meter calls made along the way. */
  ghost function Calls(env: Env, f: FlowData, ps: seq<Packet>): seq<Call>
    requires env.Valid() && ValidFlow(env, f)
  {
    if ps == [] then []
    else
      var n := |ps| - 1;
      var before := FlowRun(env, f, ps[..n]);
      Calls(env, f, ps[..n]) + if Measures(env, before, ps[n]) then [Call(Seen(before.control, ps[n]), ps[n])] else []
  }

  /** The scores of every data packet, empty for those no longer looked at. */
  ghost function Rounds(env: Env, f: FlowData, ps: seq<Packet>): seq<seq<Score>>
    requires env.Valid() && ValidFlow(env, f)
  {
    if ps == [] then []
    else
      var n := |ps| - 1;
      var before := FlowRun(env, f, ps[..n]);
      Rounds(env, f, ps[..n]) + if IsData(before.control, ps[n]) then [ScoresAfter(env, before, ps[n])] else []
  }

  lemma FreshFlowIsValid(env: Env, p: Packet, junk: Junk)
    ensures ValidFlow(env, FreshFlow(env, p, junk))
  {
  }

  lemma DataPacketsAreCounted(c: Control, p: Packet)
    ensures Step(c, p).pktCount == c.pktCount + if IsData(c, p) then 1 else 0
    ensures IsData(c, p) ==> Step(c, p).lastDirection == c.currentDirection && Step(c, p).currentDirection == PacketDirection(c.tuple, p.tuple)
    ensures !IsData(c, p) ==> Step(c, p).currentDirection == c.currentDirection && Step(c, p).lastDirection == c.lastDirection
    ensures Step(c, p).tuple == c.tuple
    ensures Step(c, p).overallPktCount == c.overallPktCount + 1
  {
    hide Arrive, CarriesData;
  }

  /** Measuring and classifying never touch the control part. */
  lemma {:induction false} ControlRunsAlone(env: Env, f: FlowData, ps: seq<Packet>)
    requires env.Valid() && ValidFlow(env, f)
    ensures FlowRun(env, f, ps).control == FlowControl.Run(f.control, ps)
  {
    hide FlowControl.Step, MeasureEach, ScoresAfter, Measures, ValidFlow;
    if ps != [] {
      ControlRunsAlone(env, f, ps[..|ps| - 1]);
    }
  }
}
