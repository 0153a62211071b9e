/**
  The trainer as an object (src/training/src/ProtocolModelUpdater.cpp): it hears of
  finished flows and merges those named in the training file into the database.
*/
module ProtocolModelUpdaters {
  import opened Wrappers
  import opened Packets
  import opened FlowKey
  import opened Meters
  import opened AttributeMeters
  import opened ProtocolDb
  import opened ProtocolDbLaws
  import opened ProtocolModelDbs
  import opened Flows
  import opened Training

  /** A line of the training file: a flow and the protocol it is known to speak. */
  datatype TrainingFlow = TrainingFlow(tuple: Tuple, protocol: string)

  // ---------- what a finished flow does to the database ----------

  /** The first meter of a name. */
  function FindIn(meters: seq<MeterModel>, name: string): (r: Option<nat>)
    ensures r.Some? ==> r.value < |meters| && meters[r.value].name == name && forall j :: 0 <= j < r.value ==> meters[j].name != name
    ensures r.None? ==> forall j :: 0 <= j < |meters| ==> meters[j].name != name
  {
    if meters == [] then None
    else
      var front := FindIn(meters[..|meters| - 1], name);
      if front.Some? then front else if meters[|meters| - 1].name == name then Some(|meters| - 1) else None
  }

  ghost predicate HasRoom(meters: seq<MeterModel>, n: nat) {
    forall j :: 0 <= j < |meters| ==> meters[j].flowCount + n < TWO_TO_THE_32
  }

  /** The meters of a model once the meters of a flow have been merged into those of their names. */
  ghost function TrainMeters(meters: seq<MeterModel>, others: seq<Meter>): (r: seq<MeterModel>)
    requires HasRoom(meters, |others|)
    ensures |r| == |meters| && forall j :: 0 <= j < |r| ==> r[j].name == meters[j].name && r[j].flowCount <= meters[j].flowCount + |others|
  {
    if others == [] then meters
    else
      var n := |others| - 1;
      var front := TrainMeters(meters, others[..n]);
      match FindIn(front, others[n].kind.Name())
      case None => front
      case Some(j) => front[j := Merged(front[j], others[n])]
  }

  ghost function TrainModel(m: Model, others: seq<Meter>): Model
    requires HasRoom(m.meters, |others|)
  {
    m.(flowCount := (m.flowCount + 1) % TWO_TO_THE_32, meters := TrainMeters(m.meters, others))
  }

  /** A line of the training file and a flow are matched by their hashes. */
  predicate Matches(line: TrainingFlow, flow: Tuple) {
    FlowHash(line.tuple) == FlowHash(flow)
  }

  /** The first line of the training file for a flow. */
  function LineOf(file: seq<TrainingFlow>, flow: Tuple): Option<nat> {
    if file == [] then None
    else
      var front := LineOf(file[..|file| - 1], flow);
      if front.Some? then front else if Matches(file[|file| - 1], flow) then Some(|file| - 1) else None
  }

  lemma {:induction false} LineIsTheFirst(file: seq<TrainingFlow>, flow: Tuple)
    ensures var r := LineOf(file, flow);
            if r.Some? then
              && r.value < |file| && FlowHash(file[r.value].tuple) == FlowHash(flow)
              && forall k :: 0 <= k < r.value ==> FlowHash(file[k].tuple) != FlowHash(flow)
            else forall k :: 0 <= k < |file| ==> FlowHash(file[k].tuple) != FlowHash(flow)
  {
    hide FlowHash;
    if file != [] {
      var front := file[..|file| - 1];
      LineIsTheFirst(front, flow);
      assert forall k :: 0 <= k < |front| ==> front[k] == file[k];
    }
  }

  ghost predicate AllHaveRoom(models: seq<Model>, n: nat) {
    forall i :: 0 <= i < |models| ==> HasRoom(models[i].meters, n)
  }

  /** The first line of the training file for a flow names this protocol. */
  predicate Names(file: seq<TrainingFlow>, flow: Tuple, protocol: string) {
    LineOf(file, flow).Some? && LineOf(file, flow).value < |file| && file[LineOf(file, flow).value].protocol == protocol
  }

  /** Some meter of the flow is one of the model's. */
  ghost predicate Shares(meters: seq<MeterModel>, others: seq<Meter>) {
    exists k :: 0 <= k < |others| && FindIn(meters, others[k].kind.Name()).Some?
  }

  /** A flow that has finished, as the trainer sees it. */
  datatype FinishedFlow = FinishedFlow(tuple: Tuple, meters: seq<Meter>)

  /** It trains the model that its line names, if there is one. */
  ghost function TrainOnce(models: seq<Model>, file: seq<TrainingFlow>, flow: FinishedFlow): (r: seq<Model>)
    requires AllHaveRoom(models, |flow.meters|)
    ensures |r| == |models|
  {
    seq(|models|, i requires 0 <= i < |models| && HasRoom(models[i].meters, |flow.meters|) =>
          if Names(file, flow.tuple, models[i].name) then TrainModel(models[i], flow.meters) else models[i])
  }

  // ---------- what training comes to ----------

  /** The meters of a name. */
  function OfName(others: seq<Meter>, name: string): (r: seq<Meter>)
    ensures |r| <= |others| && AllNamed(r, name)
  {
    if others == [] then []
    else OfName(others[..|others| - 1], name) + if others[|others| - 1].kind.Name() == name then [others[|others| - 1]] else []
  }

  lemma NothingOfName(name: string)
    ensures OfName([], name) == []
  {
  }

  lemma OneMerge(m: MeterModel, others: seq<Meter>, other: Meter)
    requires m.flowCount + |others| + 1 < TWO_TO_THE_32
    ensures MergeAll(m, others + [other]) == Merged(MergeAll(m, others), other)
  {
    assert (others + [other])[..|others|] == others;
  }

  lemma {:induction false} MergesCompose(m: MeterModel, a: seq<Meter>, b: seq<Meter>)
    requires m.flowCount + |a| + |b| < TWO_TO_THE_32
    ensures MergeAll(m, a + b) == MergeAll(MergeAll(m, a), b)
  {
    hide MergeAll;
    if b == [] {
      assert a + b == a;
      NothingMerged(MergeAll(m, a));
    } else {
      var n := |b| - 1;
      MergesCompose(m, a, b[..n]);
      assert a + b == a + b[..n] + [b[n]] && b == b[..n] + [b[n]];
      OneMerge(m, a + b[..n], b[n]);
      OneMerge(MergeAll(m, a), b[..n], b[n]);
    }
  }

  lemma OneOfName(m: MeterModel, others: seq<Meter>, n: nat)
    requires n + 1 == |others| && m.flowCount + |others| < TWO_TO_THE_32
    ensures var r := MergeAll(m, OfName(others[..n], m.name));
            r.flowCount + 1 < TWO_TO_THE_32 && MergeAll(m, OfName(others, m.name)) == Merged(r, others[n])
  {
    hide Kind.Name, Merged, MergeAll;
    var front := OfName(others[..n], m.name);
    OneMerge(m, front, others[n]);
    assert front + [] == front;
    OtherNamesDoNotMerge(MergeAll(m, front), others[n]);
  }

  lemma OtherNamesDoNotMerge(m: MeterModel, other: Meter)
    requires m.flowCount + 1 < TWO_TO_THE_32
    ensures other.kind.Name() != m.name ==> Merged(m, other) == m
  {
    hide Kind.Name;
  }

  lemma TakenByTheFirst(meters: seq<MeterModel>, front: seq<MeterModel>, other: Meter, j: nat)
    requires HasRoom(front, 1) && j < |front| == |meters| && forall i :: 0 <= i < |meters| ==> meters[i].name == front[i].name
    ensures (match FindIn(front, other.kind.Name()) case None => front case Some(i) => front[i := Merged(front[i], other)])[j] ==
              if FindIn(meters, meters[j].name) == Some(j) then Merged(front[j], other) else front[j]
  {
    hide Kind.Name, FindIn;
    SameNamesSameFind(meters, front, other.kind.Name());
  }

  /** The first meter of each name takes in all the flow's meters of that name, one after the other;
      another meter of the same name is left alone. */
  lemma {:induction false} EachMeterTakesItsName(meters: seq<MeterModel>, others: seq<Meter>, j: nat)
    requires HasRoom(meters, |others|) && j < |meters|
    ensures meters[j].flowCount + |OfName(others, meters[j].name)| < TWO_TO_THE_32
    ensures TrainMeters(meters, others)[j] ==
              if FindIn(meters, meters[j].name) == Some(j) then MergeAll(meters[j], OfName(others, meters[j].name)) else meters[j]
  {
    hide Kind.Name, FindIn, Merged, MergeAll, OfName;
    if others == [] {
      NothingMerged(meters[j]);
      NothingOfName(meters[j].name);
    } else {
      var n := |others| - 1;
      EachMeterTakesItsName(meters, others[..n], j);
      TakenByTheFirst(meters, TrainMeters(meters, others[..n]), others[n], j);
      OneOfName(meters[j], others, n);
    }
  }

  /** All the meters that a number of flows bring. */
  function MeterCount(flows: seq<FinishedFlow>): nat {
    if flows == [] then 0 else MeterCount(flows[..|flows| - 1]) + |flows[|flows| - 1].meters|
  }

  /** The models after flows have finished, one after the other. */
  ghost function TrainFlows(models: seq<Model>, file: seq<TrainingFlow>, flows: seq<FinishedFlow>): (r: seq<Model>)
    requires AllHaveRoom(models, MeterCount(flows))
    ensures |r| == |models|
    ensures forall i :: 0 <= i < |r| ==>
                          r[i].name == models[i].name && |r[i].meters| == |models[i].meters|
                          && forall j :: 0 <= j < |r[i].meters| ==>
                                           r[i].meters[j].name == models[i].meters[j].name
                                           && r[i].meters[j].flowCount <= models[i].meters[j].flowCount + MeterCount(flows)
  {
    if flows == [] then models else TrainOnce(TrainFlows(models, file, flows[..|flows| - 1]), file, flows[|flows| - 1])
  }

  /** What a meter of a model is shown: the meters of its name, of the flows whose first line names the model. */
  function Shown(file: seq<TrainingFlow>, flows: seq<FinishedFlow>, protocol: string, name: string): (r: seq<Meter>)
    ensures |r| <= MeterCount(flows) && AllNamed(r, name)
  {
    if flows == [] then []
    else
      var last := flows[|flows| - 1];
      Shown(file, flows[..|flows| - 1], protocol, name) + if Names(file, last.tuple, protocol) then OfName(last.meters, name) else []
  }

  lemma {:induction false} FlowsAreMerged(models: seq<Model>, file: seq<TrainingFlow>, flows: seq<FinishedFlow>, i: nat, j: nat)
    requires AllHaveRoom(models, MeterCount(flows)) && i < |models| && j < |models[i].meters|
    requires FindIn(models[i].meters, models[i].meters[j].name) == Some(j)
    ensures var m := models[i].meters[j];
            && m.flowCount + |Shown(file, flows, models[i].name, m.name)| < TWO_TO_THE_32
            && TrainFlows(models, file, flows)[i].meters[j] == MergeAll(m, Shown(file, flows, models[i].name, m.name))
  {
    hide Kind.Name, FindIn, MergeAll, Names, OfName, TrainMeters;
    var m := models[i].meters[j];
    if flows == [] {
      NothingMerged(m);
    } else {
      var n := |flows| - 1;
      FlowsAreMerged(models, file, flows[..n], i, j);
      var before, shown := TrainFlows(models, file, flows[..n]), Shown(file, flows[..n], models[i].name, m.name);
      assert HasRoom(before[i].meters, |flows[n].meters|);
      SameNamesSameFind(models[i].meters, before[i].meters, m.name);
      EachMeterTakesItsName(before[i].meters, flows[n].meters, j);
      MergesCompose(m, shown, OfName(flows[n].meters, m.name));
      assert shown + [] == shown;
    }
  }

  /** After any flows have finished, a meter of the database is the mean of what it was, as often as it
      counted then, and of every meter of its name of the flows whose first line names its model. */
  lemma TrainingIsAveraging(models: seq<Model>, file: seq<TrainingFlow>, flows: seq<FinishedFlow>, i: nat, j: nat, x: nat)
    requires AllHaveRoom(models, MeterCount(flows)) && i < |models| && j < |models[i].meters|
    requires FindIn(models[i].meters, models[i].meters[j].name) == Some(j) && x < |models[i].meters[j].fingerprint|
    ensures var m := models[i].meters[j];
            var shown, r := Shown(file, flows, models[i].name, m.name), TrainFlows(models, file, flows)[i].meters[j];
            var n := m.flowCount + |shown|;
            && r.flowCount == n && |r.fingerprint| == |m.fingerprint|
            && (n > 0 ==> r.fingerprint[x] == Mean(m.fingerprint[x], m.flowCount, SumAt(shown, x), n))
  {
    hide FindIn, TrainFlows, Shown, MergeAll, SumAt, Mean, Kind.Name;
    var m := models[i].meters[j];
    FlowsAreMerged(models, file, flows, i, j);
    MergingIsAveraging(m, Shown(file, flows, models[i].name, m.name), x);
  }

  /** The flows whose first line names a protocol. */
  function Named(file: seq<TrainingFlow>, flows: seq<FinishedFlow>, protocol: string): nat {
    if flows == [] then 0 else Named(file, flows[..|flows| - 1], protocol) + if Names(file, flows[|flows| - 1].tuple, protocol) then 1 else 0
  }

  lemma CountWraps(a: nat, b: nat)
    ensures (a % TWO_TO_THE_32 + b) % TWO_TO_THE_32 == (a + b) % TWO_TO_THE_32
  {
  }

  lemma OneFlowCounts(models: seq<Model>, file: seq<TrainingFlow>, flow: FinishedFlow, i: nat)
    requires AllHaveRoom(models, |flow.meters|) && i < |models|
    ensures var r, m := TrainOnce(models, file, flow)[i], models[i];
            && r.flowCount == (if Names(file, flow.tuple, m.name) then (m.flowCount + 1) % TWO_TO_THE_32 else m.flowCount)
            && r == m.(flowCount := r.flowCount, meters := r.meters)
  {
    hide Names, TrainMeters;
    assert HasRoom(models[i].meters, |flow.meters|);
  }

  /** Each model counts the flows whose first line names it, in 32 bits; its name, its flag and its hints stay. */
  lemma {:induction false} TrainingCountsFlows(models: seq<Model>, file: seq<TrainingFlow>, flows: seq<FinishedFlow>, i: nat)
    requires AllHaveRoom(models, MeterCount(flows)) && i < |models| && models[i].flowCount < TWO_TO_THE_32
    ensures var r, m := TrainFlows(models, file, flows)[i], models[i];
            && r.flowCount == (m.flowCount + Named(file, flows, m.name)) % TWO_TO_THE_32
            && r == m.(flowCount := r.flowCount, meters := r.meters)
  {
    hide Names, TrainOnce;
    if flows != [] {
      var n := |flows| - 1;
      TrainingCountsFlows(models, file, flows[..n], i);
      OneFlowCounts(TrainFlows(models, file, flows[..n]), file, flows[n], i);
      CountWraps(models[i].flowCount + Named(file, flows[..n], models[i].name), 1);
    }
  }

  /** Training keeps a database valid: names, sizes, hints and orders stay, counters stay in range. */
  lemma TrainingKeepsDbValid(factory: map<string, nat>, db: Db, i: nat, others: seq<Meter>)
    requires ValidDb(factory, db) && i < |db.order| && HasRoom(db.order[i].meters, |others|)
    ensures ValidDb(factory, db.(order := db.order[i := TrainModel(db.order[i], others)]))
  {
    hide PortOrder, Merged, FindIn;
    var order := db.order[i := TrainModel(db.order[i], others)];
    TrainedMetersAreValid(factory, db.order[i].meters, others);
    SameHintsSameOrder(db.order, order);
  }

  lemma {:induction false} TrainedMetersAreValid(factory: map<string, nat>, meters: seq<MeterModel>, others: seq<Meter>)
    requires HasRoom(meters, |others|) && forall j :: 0 <= j < |meters| ==> ValidMeter(factory, meters[j])
    ensures forall j :: 0 <= j < |meters| ==> ValidMeter(factory, TrainMeters(meters, others)[j])
  {
    hide Blend, Kind.Name, FindIn;
    if others != [] {
      TrainedMetersAreValid(factory, meters, others[..|others| - 1]);
    }
  }

  lemma TrainingOneMore(m: Model, others: seq<Meter>, n: nat)
    requires n < |others| && HasRoom(m.meters, |others|)
    ensures HasRoom(m.meters, n) && HasRoom(m.meters, n + 1)
    ensures var front := TrainMeters(m.meters, others[..n]);
            && HasRoom(front, 1)
            && TrainMeters(m.meters, others[..n + 1]) ==
                 (match FindIn(front, others[n].kind.Name()) case None => front case Some(j) => front[j := Merged(front[j], others[n])])
            && (Shares(m.meters, others[..n + 1]) <==> Shares(m.meters, others[..n]) || FindIn(front, others[n].kind.Name()).Some?)
  {
    hide Kind.Name, FindIn, Merged;
    var few, more := others[..n], others[..n + 1];
    assert more[..n] == few;
    SameNamesSameFind(m.meters, TrainMeters(m.meters, few), others[n].kind.Name());
    assert forall k :: 0 <= k < n ==> few[k] == more[k];
    assert more[n] == others[n];
  }

  lemma NothingTrained(m: Model, others: seq<Meter>)
    requires HasRoom(m.meters, |others|)
    ensures others[..0] == [] && TrainMeters(m.meters, []) == m.meters && !Shares(m.meters, [])
  {
  }

  /** Merging does not rename meters, so it does not change which are found. */
  lemma {:induction false} SameNamesSameFind(a: seq<MeterModel>, b: seq<MeterModel>, name: string)
    requires |a| == |b| && forall j :: 0 <= j < |a| ==> a[j].name == b[j].name
    ensures FindIn(a, name) == FindIn(b, name)
  {
    if a != [] {
      SameNamesSameFind(a[..|a| - 1], b[..|b| - 1], name);
    }
  }

  class ProtocolModelUpdater {
    const database: ProtocolModelDb
    var currentFile: seq<TrainingFlow>
    var updated: bool

    constructor (database: ProtocolModelDb, file: seq<TrainingFlow>)
      ensures this.database == database && currentFile == file && !updated
    {
      this.database, currentFile, updated := database, file, false;
    }

    method FindMeter(meters: seq<MeterModel>, name: string) returns (r: Option<nat>)
      ensures r == FindIn(meters, name)
    {
      for j := 0 to |meters|
        invariant forall i :: 0 <= i < j ==> meters[i].name != name
      {
        if meters[j].name == name {
          return Some(j);
        }
      }
      r := None;
    }

    /** One meter of the flow is merged into the model's meter of its name, if there is one. */
    method TrainOne(at: nat, am: AttributeMeter)
      requires database.Valid() && am.Valid() && at < |database.protocolModelOrder| && HasRoom(database.protocolModelOrder[at].meters, 1)
      modifies this`updated, database`protocolModelOrder
      ensures database.Valid()
      ensures var m, found := old(database.protocolModelOrder)[at], FindIn(old(database.protocolModelOrder)[at].meters, am.kind.Name());
              && updated == (old(updated) || found.Some?)
              && database.protocolModelOrder == match found
                   case None => old(database.protocolModelOrder)
                   case Some(j) => old(database.protocolModelOrder)[at := m.(meters := m.meters[j := Merged(m.meters[j], am.View())])]
    {
      hide Merged, Kind.Name, FindIn, ProtocolModelDb.Valid, AttributeMeter.View;
      var found := FindMeter(database.protocolModelOrder[at].meters, am.kind.Name());
      if found.Some? {
        updated := true;
        database.MergeMeter(at, found.value, am);
      }
    }

    /** All of them are merged. */
    method TrainAll(at: nat, ams: seq<AttributeMeter>, ghost others: seq<Meter>)
      requires database.Valid() && at < |database.protocolModelOrder| && |ams| == |others|
      requires forall k :: 0 <= k < |ams| ==> ams[k].Valid() && ams[k].View() == others[k] && ams[k].kind == others[k].kind
      requires HasRoom(database.protocolModelOrder[at].meters, |others|)
      modifies this`updated, database`protocolModelOrder
      ensures database.Valid()
      ensures var m := old(database.protocolModelOrder)[at];
              && database.protocolModelOrder == old(database.protocolModelOrder)[at := m.(meters := TrainMeters(m.meters, others))]
              && updated == (old(updated) || Shares(m.meters, others))
    {
      hide Merged, Kind.Name, FindIn, ProtocolModelDb.Valid, AttributeMeter.View, AttributeMeter.Valid, Shares, TrainMeters;
      ghost var models, m := database.protocolModelOrder, database.protocolModelOrder[at];
      NothingTrained(m, others);
      for n := 0 to |ams|
        invariant database.Valid() && HasRoom(m.meters, n)
        invariant database.protocolModelOrder == models[at := m.(meters := TrainMeters(m.meters, others[..n]))]
        invariant updated == (old(updated) || Shares(m.meters, others[..n]))
      {
        TrainingOneMore(m, others, n);
        ghost var before := TrainMeters(m.meters, others[..n]);
        assert database.protocolModelOrder[at].meters == before;
        TrainOne(at, ams[n]);
        assert database.protocolModelOrder[at].meters == TrainMeters(m.meters, others[..n + 1]);
        assert forall i :: 0 <= i < |models| && i != at ==> database.protocolModelOrder[i] == models[i];
      }
      assert others[..|others|] == others;
    }

    /** The flow counts for the model, and its meters are merged into the model's, by name. */
    method Train(at: nat, flow: Flow)
      requires database.Valid() && flow.Valid() && database !in flow.parts && this !in flow.parts && at < |database.protocolModelOrder|
      requires HasRoom(database.protocolModelOrder[at].meters, |flow.meters|)
      modifies this`updated, database`protocolModelOrder
      ensures database.Valid() && flow.Valid()
      ensures var m, others := old(database.protocolModelOrder)[at], flow.MeterViews();
              && database.protocolModelOrder == old(database.protocolModelOrder)[at := TrainModel(m, others)]
              && updated == (old(updated) || Shares(m.meters, others))
    {
      hide Flow.Valid, Flow.MeterViews, FindIn, ProtocolModelDb.Valid, AttributeMeter.View, AttributeMeter.Valid, TrainMeters, Shares;
      ghost var models := database.protocolModelOrder;
      database.IncreaseFlowCount(at);
      forall k | 0 <= k < |flow.meters|
        ensures flow.meters[k].Valid() && flow.meters[k].View() == flow.MeterViews()[k] && flow.meters[k].kind == flow.MeterViews()[k].kind
      {
        flow.MeterIsViewed(k);
      }
      TrainAll(at, flow.meters, flow.MeterViews());
      assert forall i :: 0 <= i < |models| && i != at ==> database.protocolModelOrder[i] == models[i];
    }

    /** A finished flow: the first line of the training file that matches it decides, if any does. */
    method FlowFinished(flow: Flow)
      requires database.Valid() && flow.Valid() && database !in flow.parts && this !in flow.parts
      requires AllHaveRoom(database.protocolModelOrder, |flow.meters|)
      modifies this`updated, database`protocolModelOrder
      ensures database.Valid() && flow.Valid()
      ensures var models, others := old(database.protocolModelOrder), flow.MeterViews();
              && database.protocolModelOrder == TrainOnce(models, currentFile, FinishedFlow(flow.tuple, others))
              && updated == (old(updated) || exists i :: 0 <= i < |models| && Names(currentFile, flow.tuple, models[i].name) && Shares(models[i].meters, others))
    {
      hide Flow.Valid, Flow.MeterViews, ProtocolModelDb.Valid, FlowHash, TrainModel, Shares;
      LineIsTheFirst(currentFile, flow.tuple);
      for k := 0 to |currentFile|
        invariant forall j :: 0 <= j < k ==> !Matches(currentFile[j], flow.tuple)
      {
        if Matches(currentFile[k], flow.tuple) {
          assert LineOf(currentFile, flow.tuple) == Some(k);
          var at := database.Find(currentFile[k].protocol);
          ghost var models := database.protocolModelOrder;
          database.NamesAreDistinct();
          if at.Some? {
            assert forall i :: 0 <= i < |models| ==> (Names(currentFile, flow.tuple, models[i].name) <==> i == at.value);
            Train(at.value, flow);
          }
          return;
        }
      }
    }
  }
}
