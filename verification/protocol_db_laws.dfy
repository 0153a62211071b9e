/** Theorems about the protocol database: what reading guarantees, the round trip
    through a file, and the order in which each port sees the models. */
module ProtocolDbLaws {
  import opened Wrappers
  import opened ProtocolDb

  // ---------- reading yields valid databases ----------

  lemma ClampIsIdempotent(cutoff: nat, defining: nat)
    requires defining < TWO_TO_THE_32
    ensures Clamp(Clamp(cutoff, defining), defining) == Clamp(cutoff, defining)
    ensures cutoff < TWO_TO_THE_32 ==> Clamp(cutoff, defining) < TWO_TO_THE_32
  {
  }

  /** The limits of a file: a cut-off limit that is not above the defining limit becomes the next number after
      it, which is 0 after the last; 0 stays 0. */
  lemma LimitsAreRead(c: Codec, factory: map<string, nat>, config: Node, db: Db, defining: nat, cutoff: nat)
    requires ReadDb(c, factory, config) == Value(db)
    requires Sub(config, "DefiningLimit").Value? && AsNat(c, Sub(config, "DefiningLimit").value, TWO_TO_THE_32) == Value(defining)
    requires Sub(config, "CutoffLimit").Value? && AsNat(c, Sub(config, "CutoffLimit").value, TWO_TO_THE_32) == Value(cutoff)
    ensures db.definingLimit == defining
    ensures db.cutoffLimit == if cutoff == 0 || cutoff > defining then cutoff else if defining == 0xffff_ffff then 0 else defining + 1
  {
    hide Sub, Items, AsText, ReadModels, PortOrder;
    NumbersAreBounded(c, Sub(config, "DefiningLimit").value, TWO_TO_THE_32);
  }

  lemma NumbersAreBounded(c: Codec, node: Option<Node>, bound: nat)
    ensures AsNat(c, node, bound).Value? ==> AsNat(c, node, bound).value < bound
  {
  }

  lemma {:induction false} ReadHintsAreSmall(c: Codec, nodes: seq<Node>)
    ensures var r := ReadHints(c, nodes);
            r.Value? ==> forall i :: 0 <= i < |r.value| ==> r.value[i] < TWO_TO_THE_16
  {
    if nodes != [] {
      ReadHintsAreSmall(c, nodes[..|nodes| - 1]);
    }
  }

  lemma {:induction false} ReadMetersAreValid(c: Codec, factory: map<string, nat>, nodes: seq<Node>)
    ensures var r := ReadMeters(c, factory, nodes);
            r.Value? && r.value.Some? ==>
              |r.value.value| == |nodes| && forall i :: 0 <= i < |r.value.value| ==> ValidMeter(factory, r.value.value[i])
  {
    if nodes != [] {
      ReadMetersAreValid(c, factory, nodes[..|nodes| - 1]);
      ReadMeterIsValid(c, factory, nodes[|nodes| - 1]);
      hide ReadMeter, ValidMeter;
    }
  }

  lemma ReadMeterIsValid(c: Codec, factory: map<string, nat>, node: Node)
    ensures var r := ReadMeter(c, factory, node);
            r.Value? && r.value.Some? ==> ValidMeter(factory, r.value.value)
  {
  }

  /** What a meter's node says: its name and its fingerprint are there; it counts for as many flows as the node says,
      else for none; it is enabled only if the node says so and tells a count. */
  lemma MeterDefaults(c: Codec, factory: map<string, nat>, entries: map<string, Node>, m: MeterModel)
    requires ReadMeter(c, factory, Table(entries)) == Value(Some(m))
    ensures if "FlowCount" in entries then AsNat(c, Some(entries["FlowCount"]), TWO_TO_THE_32) == Value(m.flowCount) else m.flowCount == 0
    ensures m.enabled <==> "FlowCount" in entries && "Enabled" in entries && AsBool(c, Some(entries["Enabled"])) == Value(true)
    ensures "AttributeName" in entries && AsText(Some(entries["AttributeName"])) == Value(m.name)
    ensures "FingerPrint" in entries && Items(entries["FingerPrint"]).Value? && ReadReals(c, Items(entries["FingerPrint"]).value) == Value(m.fingerprint)
  {
    hide AsNat, AsBool, AsText, Items, Size, ReadReals;
  }

  /** What a model's node says: its name and its meters are there; it counts for no flows, is disabled and hints no
      port, unless the node says otherwise. */
  lemma ModelDefaults(c: Codec, factory: map<string, nat>, entries: map<string, Node>, m: Model)
    requires ReadModel(c, factory, Table(entries)) == Value(Some(m))
    ensures if "FlowCount" in entries then AsNat(c, Some(entries["FlowCount"]), TWO_TO_THE_32) == Value(m.flowCount) else m.flowCount == 0
    ensures m.enabled <==> "Enabled" in entries && AsBool(c, Some(entries["Enabled"])) == Value(true)
    ensures "PortHints" !in entries ==> m.portHints == []
    ensures "ProtocolName" in entries && AsText(Some(entries["ProtocolName"])) == Value(m.name)
    ensures "AttributeMeters" in entries && Items(entries["AttributeMeters"]).Value?
            && ReadMeters(c, factory, Items(entries["AttributeMeters"]).value) == Value(Some(m.meters))
  {
    hide AsNat, AsBool, AsText, Items, ReadMeters;
  }

  /** A file without a version is of version 0.1; one without models holds none. */
  lemma FileDefaults(c: Codec, factory: map<string, nat>, entries: map<string, Node>, db: Db)
    requires ReadDb(c, factory, Table(entries)) == Value(db)
    ensures if "Version" in entries then AsText(Some(entries["Version"])) == Value(db.version) else db.version == "0.1"
    ensures "ProtocolModels" !in entries ==> db.order == []
  {
    hide AsNat, AsText, Items, PortOrder;
  }

  lemma ReadModelIsValid(c: Codec, factory: map<string, nat>, node: Node)
    ensures var r := ReadModel(c, factory, node);
            r.Value? && r.value.Some? ==> ValidModel(factory, r.value.value)
  {
    hide ReadMeters, ReadHints;
    forall nodes
      ensures ReadHints(c, nodes).Value? ==> forall i :: 0 <= i < |ReadHints(c, nodes).value| ==> ReadHints(c, nodes).value[i] < TWO_TO_THE_16
    {
      ReadHintsAreSmall(c, nodes);
    }
    forall nodes
      ensures var r := ReadMeters(c, factory, nodes);
              r.Value? && r.value.Some? ==> forall i :: 0 <= i < |r.value.value| ==> ValidMeter(factory, r.value.value[i])
    {
      ReadMetersAreValid(c, factory, nodes);
    }
  }

  lemma {:induction false} ReadModelsAreValid(c: Codec, factory: map<string, nat>, nodes: seq<Node>)
    ensures var r := ReadModels(c, factory, nodes);
            r.Value? ==> DistinctNames(r.value) && forall i :: 0 <= i < |r.value| ==> ValidModel(factory, r.value[i])
  {
    hide ReadModel, ValidModel;
    if nodes != [] {
      ReadModelsAreValid(c, factory, nodes[..|nodes| - 1]);
      ReadModelIsValid(c, factory, nodes[|nodes| - 1]);
    }
  }

  /** Whatever the file holds, a database that could be read is valid. */
  lemma ReadDbIsValid(c: Codec, factory: map<string, nat>, config: Node)
    ensures var r := ReadDb(c, factory, config);
            r.Value? ==> ValidDb(factory, r.value)
  {
    hide ReadModels, PortOrder, ValidModel, DistinctNames;
    forall nodes
      ensures var r := ReadModels(c, factory, nodes);
              r.Value? ==> DistinctNames(r.value) && forall i :: 0 <= i < |r.value| ==> ValidModel(factory, r.value[i])
    {
      ReadModelsAreValid(c, factory, nodes);
    }
  }

  // ---------- reading onto what is there ----------

  /** The models of other names than those that are there. */
  function NewAmong(there: seq<Model>, models: seq<Model>): seq<Model> {
    if models == [] then []
    else NewAmong(there, models[..|models| - 1]) + if HasName(there, models[|models| - 1].name) then [] else [models[|models| - 1]]
  }

  lemma {:induction false} NewAmongHasName(there: seq<Model>, models: seq<Model>, name: string)
    ensures HasName(there + NewAmong(there, models), name) <==> HasName(there, name) || HasName(models, name)
  {
    hide HasName;
    if models == [] {
      assert there + [] == there;
      NobodyHasName(name);
    } else {
      var front, last := models[..|models| - 1], models[|models| - 1];
      NewAmongHasName(there, front, name);
      assert front + [last] == models;
      OneMoreName(front, last, name);
      OneMoreName(there + NewAmong(there, front), last, name);
      assert there + NewAmong(there, front) + [last] == there + (NewAmong(there, front) + [last]);
      assert NewAmong(there, front) + [] == NewAmong(there, front);
    }
  }

  lemma NobodyHasName(name: string)
    ensures !HasName([], name)
  {
  }

  lemma OneMoreName(models: seq<Model>, m: Model, name: string)
    ensures HasName(models + [m], name) <==> HasName(models, name) || m.name == name
  {
    if i :| 0 <= i < |models| && models[i].name == name {
      assert (models + [m])[i].name == name;
    }
    assert (models + [m])[|models|] == m;
  }

  lemma {:induction false} NewAmongNothing(models: seq<Model>)
    ensures NewAmong([], models) == models
  {
    hide HasName;
    if models != [] {
      NewAmongNothing(models[..|models| - 1]);
      NobodyHasName(models[|models| - 1].name);
    }
  }

  /** One model more, in the file and in the database. */
  lemma OneMoreRead(there: seq<Model>, front: seq<Model>, m: Model)
    ensures HasName(there + NewAmong(there, front), m.name) <==> HasName(there, m.name) || HasName(front, m.name)
    ensures there + NewAmong(there, front + [m]) ==
              if HasName(there, m.name) then there + NewAmong(there, front) else there + NewAmong(there, front) + [m]
  {
    hide HasName;
    NewAmongHasName(there, front, m.name);
    assert (front + [m])[..|front|] == front;
    assert NewAmong(there, front) + [] == NewAmong(there, front);
    assert there + NewAmong(there, front) + [m] == there + (NewAmong(there, front) + [m]);
  }

  /** Reading stops, or not, whatever is there already; what is there stays, and the file's models of other
      names come after it. */
  lemma {:induction false} ReadingKeepsWhatIsThere(c: Codec, factory: map<string, nat>, there: seq<Model>, nodes: seq<Node>)
    ensures var r, models := ReadOnto(c, factory, there, nodes), ReadModels(c, factory, nodes);
            && there <= r.models && r.good == models.Value?
            && (r.good ==> r.models == there + NewAmong(there, models.value))
  {
    hide ReadModel, HasName, NewAmong;
    if nodes == [] {
      NothingIsNew(there);
    } else {
      var n := |nodes| - 1;
      ReadingKeepsWhatIsThere(c, factory, there, nodes[..n]);
      var front := ReadModels(c, factory, nodes[..n]);
      if front.Value? && ReadModel(c, factory, nodes[n]).Value? && ReadModel(c, factory, nodes[n]).value.Some? {
        OneMoreRead(there, front.value, ReadModel(c, factory, nodes[n]).value.value);
      }
    }
  }

  lemma NothingIsNew(there: seq<Model>)
    ensures NewAmong(there, []) == []
  {
  }

  lemma ReadOntoNothing(c: Codec, factory: map<string, nat>, config: Node)
    ensures var head, db := ReadHead(c, config), ReadDb(c, factory, config);
            if head.Throw? then db.Throw?
            else
              var r := ReadOnto(c, factory, [], head.value.items);
              db == if r.good then Value(Db(head.value.defining, head.value.cutoff, head.value.version, r.models, PortOrder(r.models))) else Throw
  {
    hide ReadHead, ReadModels, ReadOnto, PortOrder;
    var head := ReadHead(c, config);
    if head.Value? {
      ReadingKeepsWhatIsThere(c, factory, [], head.value.items);
      if ReadModels(c, factory, head.value.items).Value? {
        var models := ReadModels(c, factory, head.value.items).value;
        NewAmongNothing(models);
        assert [] + models == models;
      }
    }
  }

  // ---------- reading enables what it will need ----------

  ghost predicate EnabledAreIn(meters: seq<MeterModel>, names: set<string>) {
    forall a :: 0 <= a < |meters| && meters[a].enabled ==> meters[a].name in names
  }

  lemma EnabledMeterIsEnabled(c: Codec, factory: map<string, nat>, node: Node)
    ensures var r := ReadMeter(c, factory, node);
            r.Value? && r.value.Some? && r.value.value.enabled ==> r.value.value.name in MeterEnables(c, factory, node)
  {
    hide ReadReals;
  }

  lemma {:induction false} EnabledMetersAreEnabled(c: Codec, factory: map<string, nat>, nodes: seq<Node>)
    ensures var r := ReadMeters(c, factory, nodes);
            r.Value? && r.value.Some? ==> EnabledAreIn(r.value.value, MetersEnable(c, factory, nodes))
  {
    hide ReadMeter, MeterEnables;
    if nodes != [] {
      EnabledMetersAreEnabled(c, factory, nodes[..|nodes| - 1]);
      EnabledMeterIsEnabled(c, factory, nodes[|nodes| - 1]);
    }
  }

  lemma ModelEnablesItsMeters(c: Codec, factory: map<string, nat>, node: Node)
    ensures var r := ReadModel(c, factory, node);
            r.Value? && r.value.Some? ==> EnabledAreIn(r.value.value.meters, ModelEnables(c, factory, node))
  {
    hide ReadModelHead, ReadMeters, MetersEnable, EnabledAreIn;
    var metersNode := Sub(node, "AttributeMeters");
    if metersNode.Value? && metersNode.value.Some? {
      var items := Items(metersNode.value.value);
      if items.Value? {
        EnabledMetersAreEnabled(c, factory, items.value);
      }
    }
  }

  lemma {:induction false} ModelsEnableTheirMeters(c: Codec, factory: map<string, nat>, nodes: seq<Node>)
    ensures var r := ReadModels(c, factory, nodes);
            r.Value? ==> forall i :: 0 <= i < |r.value| ==> EnabledAreIn(r.value[i].meters, ModelsEnable(c, factory, nodes))
  {
    hide ReadModel, ModelEnables, HasName;
    if nodes != [] {
      ModelsEnableTheirMeters(c, factory, nodes[..|nodes| - 1]);
      ModelEnablesItsMeters(c, factory, nodes[|nodes| - 1]);
    }
  }

  /** A meter's node has this name, and its flag is set. */
  predicate Flags(c: Codec, node: Node, name: string) {
    && Sub(node, "AttributeName").Value? && AsText(Sub(node, "AttributeName").value) == Value(name)
    && Sub(node, "Enabled").Value? && AsBool(c, Sub(node, "Enabled").value) == Value(true)
  }

  lemma {:induction false} MetersEnableOnlyFlagged(c: Codec, factory: map<string, nat>, nodes: seq<Node>, name: string)
    ensures name in MetersEnable(c, factory, nodes) ==> name in factory && exists j :: 0 <= j < |nodes| && Flags(c, nodes[j], name)
  {
    hide ReadMeters, AsText, AsBool, Sub;
    if nodes != [] && name in MetersEnable(c, factory, nodes) {
      var n := |nodes| - 1;
      MetersEnableOnlyFlagged(c, factory, nodes[..n], name);
      if name in MetersEnable(c, factory, nodes[..n]) {
        var j :| 0 <= j < n && Flags(c, nodes[..n][j], name);
        assert Flags(c, nodes[j], name);
      } else {
        assert Flags(c, nodes[n], name);
      }
    }
  }

  /** One of the meters in a model's node has this name, and its flag is set. */
  ghost predicate HasFlagged(c: Codec, node: Node, name: string) {
    var meters := Sub(node, "AttributeMeters");
    && meters.Value? && meters.value.Some? && Items(meters.value.value).Value?
    && var nodes := Items(meters.value.value).value;
    exists j :: 0 <= j < |nodes| && Flags(c, nodes[j], name)
  }

  lemma {:induction false} ModelsEnableOnlyFlagged(c: Codec, factory: map<string, nat>, nodes: seq<Node>, name: string)
    ensures name in ModelsEnable(c, factory, nodes) ==> name in factory && exists i :: 0 <= i < |nodes| && HasFlagged(c, nodes[i], name)
  {
    hide ReadModels, ReadModelHead, MetersEnable, Items, Sub, Flags;
    if nodes != [] && name in ModelsEnable(c, factory, nodes) {
      var n := |nodes| - 1;
      ModelsEnableOnlyFlagged(c, factory, nodes[..n], name);
      if name in ModelsEnable(c, factory, nodes[..n]) {
        var i :| 0 <= i < n && HasFlagged(c, nodes[..n][i], name);
        assert HasFlagged(c, nodes[i], name);
      } else {
        MetersEnableOnlyFlagged(c, factory, Items(Sub(nodes[n], "AttributeMeters").value.value).value, name);
        assert HasFlagged(c, nodes[n], name);
      }
    }
  }

  /** Reading enables known meters only, and of these only such as some model's node flags. */
  lemma ReadingEnablesOnlyFlagged(c: Codec, factory: map<string, nat>, config: Node, name: string)
    requires name in DbEnables(c, factory, config)
    ensures name in factory && ReadHead(c, config).Value?
    ensures var nodes := ReadHead(c, config).value.items;
            exists i :: 0 <= i < |nodes| && HasFlagged(c, nodes[i], name)
  {
    hide ReadHead, ModelsEnable, HasFlagged;
    ModelsEnableOnlyFlagged(c, factory, ReadHead(c, config).value.items, name);
  }

  /** Every enabled meter of a database that was read has been enabled in the factory, and has the factory's size. */
  lemma ReadingEnablesMeters(c: Codec, factory: map<string, nat>, config: Node, db: Db, i: nat, a: nat)
    requires ReadDb(c, factory, config) == Value(db) && i < |db.order| && a < |db.order[i].meters| && db.order[i].meters[a].enabled
    ensures var m := db.order[i].meters[a];
            m.name in DbEnables(c, factory, config) && m.name in factory && |m.fingerprint| == factory[m.name]
  {
    hide ReadModels, ReadHead, PortOrder, ModelsEnable, DistinctNames;
    var items := ReadHead(c, config).value.items;
    ModelsEnableTheirMeters(c, factory, items);
    assert EnabledAreIn(db.order[i].meters, ModelsEnable(c, factory, items));
    ReadDbIsValid(c, factory, config);
    assert ValidModel(factory, db.order[i]) && ValidMeter(factory, db.order[i].meters[a]);
  }

  // ---------- the round trip ----------

  lemma NatRoundTrip(c: Codec, n: nat, bound: nat)
    requires Faithful(c) && n < bound <= TWO_TO_THE_32
    ensures AsNat(c, Some(Scalar(c.showNat(n))), bound) == Value(n)
  {
  }

  /** A probability as it is after it was written and read. */
  function Respelt(c: Codec, x: real): real {
    if Legible(c, x) then c.readReal(c.showReal(x)).value else x
  }

  function RespeltReals(c: Codec, v: seq<real>): (r: seq<real>)
    ensures |r| == |v|
  {
    seq(|v|, i requires 0 <= i < |v| => Respelt(c, v[i]))
  }

  function RespeltMeter(c: Codec, m: MeterModel): MeterModel {
    m.(fingerprint := RespeltReals(c, m.fingerprint))
  }

  function RespeltMeters(c: Codec, meters: seq<MeterModel>): (r: seq<MeterModel>)
    ensures |r| == |meters|
  {
    seq(|meters|, i requires 0 <= i < |meters| => RespeltMeter(c, meters[i]))
  }

  function RespeltModel(c: Codec, m: Model): Model {
    m.(meters := RespeltMeters(c, m.meters))
  }

  predicate LegibleReals(c: Codec, v: seq<real>) {
    forall i :: 0 <= i < |v| ==> Legible(c, v[i])
  }

  predicate LegibleMeters(c: Codec, meters: seq<MeterModel>) {
    forall i :: 0 <= i < |meters| ==> LegibleReals(c, meters[i].fingerprint)
  }

  predicate LegibleModels(c: Codec, models: seq<Model>) {
    forall i :: 0 <= i < |models| ==> LegibleMeters(c, models[i].meters)
  }

  predicate SpeltMeter(c: Codec, m: MeterModel) {
    forall i :: 0 <= i < |m.fingerprint| ==> Spelt(c, m.fingerprint[i])
  }

  predicate SpeltModel(c: Codec, m: Model) {
    forall i :: 0 <= i < |m.meters| ==> SpeltMeter(c, m.meters[i])
  }

  predicate SpeltModels(c: Codec, models: seq<Model>) {
    forall i :: 0 <= i < |models| ==> SpeltModel(c, models[i])
  }

  lemma RealRoundTrip(c: Codec, x: real)
    ensures AsReal(c, Some(Scalar(c.showReal(x)))) == if Legible(c, x) then Value(Respelt(c, x)) else Throw
  {
  }

  lemma {:induction false} RealsRoundTrip(c: Codec, v: seq<real>)
    ensures ReadReals(c, WriteReals(c, v)) == if LegibleReals(c, v) then Value(RespeltReals(c, v)) else Throw
  {
    hide AsReal, Legible, Respelt;
    if v != [] {
      var n := |v| - 1;
      RealRoundTrip(c, v[n]);
      assert WriteReals(c, v)[..n] == WriteReals(c, v[..n]);
      RealsRoundTrip(c, v[..n]);
      assert v == v[..n] + [v[n]];
      assert LegibleReals(c, v) <==> LegibleReals(c, v[..n]) && Legible(c, v[n]);
      assert RespeltReals(c, v) == RespeltReals(c, v[..n]) + [Respelt(c, v[n])];
    }
  }

  lemma {:induction false} HintsRoundTrip(c: Codec, hints: seq<nat>)
    requires Faithful(c) && forall i :: 0 <= i < |hints| ==> hints[i] < TWO_TO_THE_16
    ensures ReadHints(c, WriteHints(c, hints)) == Value(hints)
  {
    hide Faithful;
    if hints != [] {
      var n := |hints| - 1;
      assert WriteHints(c, hints)[..n] == WriteHints(c, hints[..n]);
      HintsRoundTrip(c, hints[..n]);
      assert hints == hints[..n] + [hints[n]];
      NatRoundTrip(c, hints[n], TWO_TO_THE_16);
    }
  }

  lemma PushedItems(nodes: seq<Node>)
    ensures Items(Pushed(nodes)) == Value(nodes) && Size(Pushed(nodes)) == |nodes|
  {
  }

  /** A meter comes back with its probabilities as they are spelt; one that is not legible is refused. */
  lemma MeterRoundTrip(c: Codec, factory: map<string, nat>, m: MeterModel)
    requires Faithful(c) && ValidMeter(factory, m)
    ensures ReadMeter(c, factory, WriteMeter(c, m)) ==
              if LegibleReals(c, m.fingerprint) then Value(Some(RespeltMeter(c, m))) else Throw
  {
    hide ReadReals, WriteReals, Pushed, LegibleReals, RespeltReals;
    NatRoundTrip(c, m.flowCount, TWO_TO_THE_32);
    RealsRoundTrip(c, m.fingerprint);
    PushedItems(WriteReals(c, m.fingerprint));
  }

  lemma {:induction false} MetersRoundTrip(c: Codec, factory: map<string, nat>, meters: seq<MeterModel>)
    requires Faithful(c) && forall i :: 0 <= i < |meters| ==> ValidMeter(factory, meters[i])
    ensures ReadMeters(c, factory, WriteMeters(c, meters)) ==
              if LegibleMeters(c, meters) then Value(Some(RespeltMeters(c, meters))) else Throw
  {
    hide Faithful, ReadMeter, WriteMeter, ValidMeter, LegibleReals, RespeltMeter;
    if meters != [] {
      var n := |meters| - 1;
      assert WriteMeters(c, meters)[..n] == WriteMeters(c, meters[..n]);
      MetersRoundTrip(c, factory, meters[..n]);
      assert meters == meters[..n] + [meters[n]];
      MeterRoundTrip(c, factory, meters[n]);
      assert LegibleMeters(c, meters) <==> LegibleMeters(c, meters[..n]) && LegibleReals(c, meters[n].fingerprint);
      assert RespeltMeters(c, meters) == RespeltMeters(c, meters[..n]) + [RespeltMeter(c, meters[n])];
    }
  }

  /** A model comes back from the file exactly when it has a meter, as its probabilities are spelt; without
      a meter its node is not valid. */
  lemma ModelRoundTrip(c: Codec, factory: map<string, nat>, m: Model)
    requires Faithful(c) && ValidModel(factory, m)
    ensures ReadModel(c, factory, WriteModel(c, m)) ==
              if m.meters == [] then Value(None) else if LegibleMeters(c, m.meters) then Value(Some(RespeltModel(c, m))) else Throw
  {
    hide ReadMeters, WriteMeters, ReadHints, WriteHints, Pushed, LegibleMeters, RespeltMeters;
    NatRoundTrip(c, m.flowCount, TWO_TO_THE_32);
    HintsRoundTrip(c, m.portHints);
    PushedItems(WriteHints(c, m.portHints));
    MetersRoundTrip(c, factory, m.meters);
  }

  /** The models that have a meter, in order, as their probabilities are spelt. */
  function ComingBack(c: Codec, models: seq<Model>): seq<Model> {
    if models == [] then []
    else
      var last := models[|models| - 1];
      ComingBack(c, models[..|models| - 1]) + if last.meters == [] then [] else [RespeltModel(c, last)]
  }

  lemma {:induction false} ComingBackFromModels(c: Codec, models: seq<Model>, name: string)
    requires HasName(ComingBack(c, models), name)
    ensures HasName(models, name)
  {
    hide RespeltMeters, HasName;
    if models == [] {
      NobodyHasName(name);
    } else {
      var n := |models| - 1;
      var front := ComingBack(c, models[..n]);
      assert models == models[..n] + [models[n]] && front + [] == front;
      OneMoreName(models[..n], models[n], name);
      OneMoreName(front, RespeltModel(c, models[n]), name);
      if HasName(front, name) {
        ComingBackFromModels(c, models[..n], name);
      }
    }
  }

  ghost predicate AllHaveMeters(models: seq<Model>) {
    forall i :: 0 <= i < |models| ==> models[i].meters != []
  }

  lemma SpellingKeepsMeter(c: Codec, m: MeterModel)
    ensures LegibleReals(c, m.fingerprint) && RespeltMeter(c, m) == m <==> SpeltMeter(c, m)
  {
    var v := m.fingerprint;
    if LegibleReals(c, v) && RespeltMeter(c, m) == m {
      forall i | 0 <= i < |v| ensures Spelt(c, v[i]) {
        assert Legible(c, v[i]) && RespeltReals(c, v)[i] == v[i];
      }
    }
    if SpeltMeter(c, m) {
      assert forall i :: 0 <= i < |v| ==> Spelt(c, v[i]) && Legible(c, v[i]);
      assert RespeltReals(c, v) == v;
    }
  }

  lemma SpellingKeepsModel(c: Codec, m: Model)
    ensures LegibleMeters(c, m.meters) && RespeltModel(c, m) == m <==> SpeltModel(c, m)
  {
    hide LegibleReals, RespeltMeter, SpeltMeter;
    forall i | 0 <= i < |m.meters|
      ensures LegibleReals(c, m.meters[i].fingerprint) && RespeltMeter(c, m.meters[i]) == m.meters[i] <==> SpeltMeter(c, m.meters[i])
    {
      SpellingKeepsMeter(c, m.meters[i]);
    }
    if RespeltModel(c, m) == m {
      assert forall i :: 0 <= i < |m.meters| ==> RespeltMeters(c, m.meters)[i] == m.meters[i];
    }
    if SpeltModel(c, m) {
      assert RespeltMeters(c, m.meters) == m.meters;
    }
  }

  /** The list of models comes back as it was exactly when each has a meter and is spelt; otherwise it comes
      back shorter or different, or cannot be read. */
  lemma {:induction false} ComingBackUnchanged(c: Codec, models: seq<Model>)
    ensures |ComingBack(c, models)| <= |models|
    ensures LegibleModels(c, models) && ComingBack(c, models) == models <==> AllHaveMeters(models) && SpeltModels(c, models)
  {
    hide RespeltModel, SpeltModel, LegibleMeters;
    if models != [] {
      var n := |models| - 1;
      ComingBackUnchanged(c, models[..n]);
      SpellingKeepsModel(c, models[n]);
      assert models == models[..n] + [models[n]];
      assert AllHaveMeters(models) <==> AllHaveMeters(models[..n]) && models[n].meters != [];
      assert SpeltModels(c, models) <==> SpeltModels(c, models[..n]) && SpeltModel(c, models[n]);
      assert LegibleModels(c, models) <==> LegibleModels(c, models[..n]) && LegibleMeters(c, models[n].meters);
      LastComesBack(c, models);
    }
  }

  lemma LastComesBack(c: Codec, models: seq<Model>)
    requires models != [] && |ComingBack(c, models[..|models| - 1])| < |models|
    ensures var n := |models| - 1;
            ComingBack(c, models) == models <==>
              ComingBack(c, models[..n]) == models[..n] && models[n].meters != [] && RespeltModel(c, models[n]) == models[n]
  {
    hide RespeltModel;
    var n := |models| - 1;
    EqualUpToLast(ComingBack(c, models[..n]), models, if models[n].meters == [] then [] else [RespeltModel(c, models[n])]);
  }

  lemma EqualUpToLast<T>(front: seq<T>, all: seq<T>, last: seq<T>)
    requires all != [] && |front| < |all| && |last| <= 1
    ensures var n := |all| - 1; front + last == all <==> front == all[..n] && last == [all[n]]
  {
    var n := |all| - 1;
    if front + last == all {
      assert |front| == n && (front + last)[..n] == front && (front + last)[n] == last[0];
    }
    assert all[..n] + [all[n]] == all;
  }

  lemma NewNameComesBack(c: Codec, models: seq<Model>)
    requires models != [] && DistinctNames(models)
    ensures var n := |models| - 1;
            DistinctNames(models[..n]) && !HasName(ComingBack(c, models[..n]), models[n].name)
  {
    hide RespeltModel;
    var n := |models| - 1;
    var kept := ComingBack(c, models[..n]);
    if HasName(kept, models[n].name) {
      ComingBackFromModels(c, models[..n], models[n].name);
    }
  }

  /** A model that does not come back does not matter, whatever its probabilities: it has none. */
  lemma {:induction false} ModelsRoundTrip(c: Codec, factory: map<string, nat>, models: seq<Model>)
    requires Faithful(c) && DistinctNames(models) && forall i :: 0 <= i < |models| ==> ValidModel(factory, models[i])
    ensures ReadModels(c, factory, WriteModels(c, models)) == if LegibleModels(c, models) then Value(ComingBack(c, models)) else Throw
  {
    hide Faithful, ReadModel, WriteModel, ValidModel, HasName, DistinctNames, LegibleMeters, RespeltModel;
    if models != [] {
      var n := |models| - 1;
      assert WriteModels(c, models)[..n] == WriteModels(c, models[..n]);
      NewNameComesBack(c, models);
      ModelsRoundTrip(c, factory, models[..n]);
      ModelRoundTrip(c, factory, models[n]);
      SameNameRespelt(c, models[n]);
      assert LegibleModels(c, models) <==> LegibleModels(c, models[..n]) && LegibleMeters(c, models[n].meters);
      assert ComingBack(c, models[..n]) + [] == ComingBack(c, models[..n]);
    }
  }

  lemma SameNameRespelt(c: Codec, m: Model)
    ensures RespeltModel(c, m).name == m.name
    ensures m.meters == [] ==> LegibleMeters(c, m.meters)
  {
    hide RespeltMeters;
  }

  /** Reading back what was written gives the models that have a meter, in order, with everything they hold,
      their probabilities as they are spelt; the version becomes the program's own.  If a probability is
      written so that it cannot be read at all, the file is refused. */
  lemma WrittenDbReadsBack(c: Codec, factory: map<string, nat>, db: Db)
    requires Faithful(c) && ValidDb(factory, db)
    ensures var kept := ComingBack(c, db.order);
            ReadDb(c, factory, WriteDb(c, db)) ==
              if LegibleModels(c, db.order) then Value(Db(db.definingLimit, db.cutoffLimit, VERSION, kept, PortOrder(kept))) else Throw
  {
    hide ReadModels, WriteModels, PortOrder, ValidModel, DistinctNames, LegibleModels, ComingBack;
    NatRoundTrip(c, db.definingLimit, TWO_TO_THE_32);
    NatRoundTrip(c, db.cutoffLimit, TWO_TO_THE_32);
    ModelsRoundTrip(c, factory, db.order);
    if db.order == [] {
      assert WriteModels(c, db.order) == [];
    }
  }

  /** The round trip loses nothing exactly when every model has a meter, every probability is spelt, and the
      versions agree. */
  lemma RoundTripIsIdentity(c: Codec, factory: map<string, nat>, db: Db)
    requires Faithful(c) && ValidDb(factory, db)
    ensures ReadDb(c, factory, WriteDb(c, db)) == Value(db) <==>
              db.version == "0.2" && AllHaveMeters(db.order) && SpeltModels(c, db.order)
  {
    hide ReadDb, WriteDb, PortOrder, LegibleModels, ComingBack, AllHaveMeters, SpeltModels;
    WrittenDbReadsBack(c, factory, db);
    ComingBackUnchanged(c, db.order);
  }

  // ---------- databases that came from a file ----------

  lemma {:induction false} ReadRealsAreSpelt(c: Codec, nodes: seq<Node>)
    requires Repeatable(c)
    ensures var r := ReadReals(c, nodes); r.Value? ==> forall i :: 0 <= i < |r.value| ==> Spelt(c, r.value[i])
  {
    hide Spelt;
    if nodes != [] {
      ReadRealsAreSpelt(c, nodes[..|nodes| - 1]);
    }
  }

  lemma ReadMeterIsSpelt(c: Codec, factory: map<string, nat>, node: Node)
    requires Repeatable(c)
    ensures var r := ReadMeter(c, factory, node); r.Value? && r.value.Some? ==> SpeltMeter(c, r.value.value)
  {
    hide Sub, AsText, AsBool, AsNat, Items, Size, ReadReals, Spelt, Repeatable;
    if ReadMeter(c, factory, node).Value? && ReadMeter(c, factory, node).value.Some? {
      var items := Items(Sub(node, "FingerPrint").value.value);
      ReadRealsAreSpelt(c, items.value);
      assert ReadMeter(c, factory, node).value.value.fingerprint == ReadReals(c, items.value).value;
    }
  }

  lemma {:induction false} ReadMetersAreSpelt(c: Codec, factory: map<string, nat>, nodes: seq<Node>)
    requires Repeatable(c)
    ensures var r := ReadMeters(c, factory, nodes);
            r.Value? && r.value.Some? ==> forall i :: 0 <= i < |r.value.value| ==> SpeltMeter(c, r.value.value[i])
  {
    hide ReadMeter, SpeltMeter, Repeatable;
    if nodes != [] {
      ReadMetersAreSpelt(c, factory, nodes[..|nodes| - 1]);
      ReadMeterIsSpelt(c, factory, nodes[|nodes| - 1]);
    }
  }

  lemma ReadModelIsSpelt(c: Codec, factory: map<string, nat>, node: Node)
    requires Repeatable(c)
    ensures var r := ReadModel(c, factory, node); r.Value? && r.value.Some? ==> SpeltModel(c, r.value.value)
  {
    hide ReadModelHead, Sub, Items, ReadMeters, SpeltMeter, Repeatable;
    if ReadModel(c, factory, node).Value? && ReadModel(c, factory, node).value.Some? {
      var items := Items(Sub(node, "AttributeMeters").value.value);
      ReadMetersAreSpelt(c, factory, items.value);
      var read, m := ReadMeters(c, factory, items.value).value.value, ReadModel(c, factory, node).value.value;
      forall i | 0 <= i < |m.meters| ensures SpeltMeter(c, m.meters[i]) {
        assert m.meters[i] == read[i];
      }
    }
  }

  lemma {:induction false} ReadModelsAreSpelt(c: Codec, factory: map<string, nat>, nodes: seq<Node>)
    requires Repeatable(c)
    ensures var r := ReadModels(c, factory, nodes); r.Value? ==> SpeltModels(c, r.value)
  {
    hide ReadModel, HasName, SpeltModel, Repeatable;
    if nodes != [] {
      ReadModelsAreSpelt(c, factory, nodes[..|nodes| - 1]);
      ReadModelIsSpelt(c, factory, nodes[|nodes| - 1]);
    }
  }

  /** A database that came from a file goes into a file and comes back the same exactly when every model has
      a meter and the version is the program's, if what can be read is written so that it reads the same. */
  lemma ReadDbRoundTrips(c: Codec, factory: map<string, nat>, config: Node, db: Db)
    requires Faithful(c) && Repeatable(c) && ReadDb(c, factory, config) == Value(db)
    ensures ReadDb(c, factory, WriteDb(c, db)) == Value(db) <==> db.version == VERSION && AllHaveMeters(db.order)
  {
    hide WriteDb, ReadHead, ReadModels, PortOrder, Repeatable, AllHaveMeters, SpeltModels, ValidDb, Faithful;
    ReadDbIsValid(c, factory, config);
    ReadModelsAreSpelt(c, factory, ReadHead(c, config).value.items);
    hide ReadDb;
    RoundTripIsIdentity(c, factory, db);
  }

  lemma {:induction false} ThoseComingBackHaveMeters(c: Codec, models: seq<Model>)
    ensures AllHaveMeters(ComingBack(c, models))
  {
    if models != [] {
      ThoseComingBackHaveMeters(c, models[..|models| - 1]);
    }
  }

  /** Whatever a database loses it loses the first time: what was written and read once stays as it is. */
  lemma OneRoundTripSettles(c: Codec, factory: map<string, nat>, db: Db)
    requires Faithful(c) && Repeatable(c) && ValidDb(factory, db) && LegibleModels(c, db.order)
    ensures var once := ReadDb(c, factory, WriteDb(c, db));
            once.Value? && ReadDb(c, factory, WriteDb(c, once.value)) == once
  {
    hide ReadDb, WriteDb, PortOrder, Repeatable, AllHaveMeters, ValidDb, Faithful, LegibleModels, ComingBack;
    WrittenDbReadsBack(c, factory, db);
    ThoseComingBackHaveMeters(c, db.order);
    ReadDbRoundTrips(c, factory, WriteDb(c, db), ReadDb(c, factory, WriteDb(c, db)).value);
  }

  // ---------- the times of changes ----------

  /** What the rest of a file says does not depend on them. */
  lemma StampsDoNotMatter(c: Codec, factory: map<string, nat>, cal: Calendar, root: Node, times: seq<nat>)
    requires root.Table?
    ensures ReadDb(c, factory, Stamped(cal, root, times)) == ReadDb(c, factory, root)
    ensures DbEnables(c, factory, Stamped(cal, root, times)) == DbEnables(c, factory, root)
  {
    hide AsNat, AsText, Items, ReadModels, ModelsEnable, PortOrder;
    assert ReadHead(c, Stamped(cal, root, times)) == ReadHead(c, root);
  }

  /** A file that tells no times has changed now. */
  lemma UntimedFileHasChangedNow(cal: Calendar, entries: map<string, Node>, now: nat)
    requires "ModifiedTime" !in entries
    ensures TimesUnder(cal, Table(entries), now) == [now]
  {
  }

  lemma {:induction false} WrittenTimes(cal: Calendar, times: seq<nat>)
    requires KeepsTimes(cal)
    ensures ReadTimes(cal, WriteTimes(cal, times)) == times
  {
    if times != [] {
      var front := times[..|times| - 1];
      WrittenTimes(cal, front);
      assert WriteTimes(cal, times)[..|front|] == WriteTimes(cal, front);
      assert times == front + [times[|front|]];
    }
  }

  /** They are read as they were written, whatever the time is now. */
  lemma TimesReadBack(cal: Calendar, root: Node, times: seq<nat>, now: nat)
    requires KeepsTimes(cal) && root.Table?
    ensures TimesUnder(cal, Stamped(cal, root, times), now) == times
  {
    hide ReadTimes, WriteTimes;
    WrittenTimes(cal, times);
  }

  /** A model without meters is written and not read back. */
  lemma ModelWithoutMetersIsLost(c: Codec, factory: map<string, nat>, model: Model)
    requires Faithful(c) && ValidModel(factory, model) && model.meters == []
    ensures var db := Db(10, 100, VERSION, [model], PortOrder([model]));
            ValidDb(factory, db) && ReadDb(c, factory, WriteDb(c, db)) == Value(Db(10, 100, VERSION, [], PortOrder([])))
  {
    hide ReadDb, WriteDb, PortOrder;
    var db := Db(10, 100, VERSION, [model], PortOrder([model]));
    WrittenDbReadsBack(c, factory, db);
    assert [model][..0] == [] && ComingBack(c, [model]) == [];
  }

  // ---------- the order a port sees ----------

  predicate Hints(m: Model, port: nat) {
    port in m.portHints
  }

  /** How often a model repeats a port hint beyond the first. */
  predicate Repeats(m: Model, port: nat) {
    multiset(m.portHints)[port] > 1
  }

  function Positions(n: nat): (r: seq<nat>)
    ensures |r| == n
  {
    seq(n, i => i)
  }

  lemma RepeatCounts(i: nat, times: nat, k: nat)
    ensures multiset(Repeat(i, times))[k] == if k == i then times else 0
  {
    if times > 0 {
      RepeatCounts(i, times - 1, k);
      assert Repeat(i, times) == Repeat(i, times - 1) + [i];
    }
  }

  lemma {:induction false} PortListCounts(models: seq<Model>, port: nat, k: nat)
    ensures multiset(Hinting(models, port))[k] == if k < |models| then multiset(models[k].portHints)[port] else 0
    ensures multiset(NotHinting(models, port))[k] == if k < |models| && !Hints(models[k], port) then 1 else 0
  {
    if models != [] {
      var n := |models| - 1;
      PortListCounts(models[..n], port, k);
      RepeatCounts(n, multiset(models[n].portHints)[port], k);
    }
  }

  lemma {:induction false} PositionsCount(n: nat, k: nat)
    ensures multiset(Positions(n))[k] == if k < n then 1 else 0
  {
    if n > 0 {
      PositionsCount(n - 1, k);
      assert Positions(n) == Positions(n - 1) + [n - 1];
    }
  }

  /** How often a port's list shows model `k`. */
  lemma PortListShows(models: seq<Model>, port: nat, k: nat)
    ensures multiset(Hinting(models, port) + NotHinting(models, port))[k] ==
              if k >= |models| then 0 else if Hints(models[k], port) then multiset(models[k].portHints)[port] else 1
  {
    PortListCounts(models, port, k);
    hide Hinting, NotHinting;
    assert multiset(Hinting(models, port) + NotHinting(models, port)) == multiset(Hinting(models, port)) + multiset(NotHinting(models, port));
  }

  lemma RepeatsMeansMoreThanOnce(m: Model, port: nat)
    ensures Repeats(m, port) <==> (if Hints(m, port) then multiset(m.portHints)[port] else 1) > 1
    ensures Hints(m, port) ==> multiset(m.portHints)[port] >= 1
  {
  }

  /** A port's list is a rearrangement of the main order exactly when no model repeats the port. */
  lemma PortListIsAPermutation(models: seq<Model>, port: nat)
    ensures multiset(Hinting(models, port) + NotHinting(models, port)) == multiset(Positions(|models|)) <==>
              forall k :: 0 <= k < |models| ==> !Repeats(models[k], port)
  {
    hide Hinting, NotHinting, Positions, Repeats, Hints;
    var list, all := multiset(Hinting(models, port) + NotHinting(models, port)), multiset(Positions(|models|));
    forall k: nat ensures list[k] == all[k] <==> k >= |models| || !Repeats(models[k], port) {
      PortListShows(models, port, k);
      PositionsCount(|models|, k);
      if k < |models| {
        RepeatsMeansMoreThanOnce(models[k], port);
      }
    }
    if forall k :: 0 <= k < |models| ==> !Repeats(models[k], port) {
      assert forall k: nat :: list[k] == all[k];
      assert list == all;
    }
  }

  /** A port's list is never shorter than the main order. */
  lemma {:induction false} PortListIsLongEnough(models: seq<Model>, port: nat)
    ensures |Hinting(models, port)| + |NotHinting(models, port)| >= |models|
  {
    if models != [] {
      PortListIsLongEnough(models[..|models| - 1], port);
    }
  }

  /** The models a classification scan visits for a port: the first `size()` positions. */
  lemma {:induction false} SameHintsSameLists(a: seq<Model>, b: seq<Model>, port: nat)
    requires |a| == |b| && forall i :: 0 <= i < |a| ==> a[i].portHints == b[i].portHints
    ensures Hinting(a, port) == Hinting(b, port) && NotHinting(a, port) == NotHinting(b, port)
  {
    if a != [] {
      SameHintsSameLists(a[..|a| - 1], b[..|b| - 1], port);
    }
  }

  lemma SameHintsSameOrder(a: seq<Model>, b: seq<Model>)
    requires |a| == |b| && forall i :: 0 <= i < |a| ==> a[i].portHints == b[i].portHints
    ensures PortOrder(a) == PortOrder(b)
  {
    forall port: nat
      ensures Hinting(a, port) == Hinting(b, port) && NotHinting(a, port) == NotHinting(b, port)
      ensures port in AllHints(a) <==> port in AllHints(b)
    {
      SameHintsSameLists(a, b, port);
    }
    hide Hinting, NotHinting;
  }

  /** A port is shown the models that hint it first, then the others, each in the main order. */
  lemma {:induction false} HintersComeFirst(models: seq<Model>, port: nat, i: nat)
    ensures var hinters, others := Hinting(models, port), NotHinting(models, port);
            && (i < |hinters| ==> hinters[i] < |models| && Hints(models[hinters[i]], port))
            && (i + 1 < |hinters| ==> hinters[i] <= hinters[i + 1])
            && (i < |others| ==> others[i] < |models| && !Hints(models[others[i]], port))
            && (i + 1 < |others| ==> others[i] < others[i + 1])
  {
    if models != [] {
      var n := |models| - 1;
      HintersComeFirst(models[..n], port, i);
      PortListsHoldPositions(models[..n], port);
    }
  }

  lemma {:induction false} PortListsHoldPositions(models: seq<Model>, port: nat)
    ensures forall j :: 0 <= j < |Hinting(models, port)| ==> Hinting(models, port)[j] < |models|
    ensures forall j :: 0 <= j < |NotHinting(models, port)| ==> NotHinting(models, port)[j] < |models|
  {
    if models != [] {
      PortListsHoldPositions(models[..|models| - 1], port);
    }
  }

  function ScanOrder(db: Db, port: nat): (r: seq<nat>)
    requires db.portOrder == PortOrder(db.order)
    ensures |r| == |db.order|
  {
    if port == 0 || port !in db.portOrder then Positions(|db.order|)
    else
      PortListIsLongEnough(db.order, port);
      db.portOrder[port][..|db.order|]
  }

  lemma ScanReadsTheList(db: Db, port: nat, i: nat)
    requires db.portOrder == PortOrder(db.order) && i < |db.order|
    ensures At(db, i, port) == Some(ScanOrder(db, port)[i])
  {
    hide Hinting, NotHinting;
    PortListIsLongEnough(db.order, port);
  }

  lemma {:induction false} HintingPrefix(models: seq<Model>, k: nat, port: nat)
    requires k <= |models|
    ensures Hinting(models[..k], port) <= Hinting(models, port)
  {
    if k < |models| {
      HintingPrefix(models[..|models| - 1], k, port);
      assert models[..|models| - 1][..k] == models[..k];
    } else {
      assert models[..k] == models;
    }
  }

  /** Without repetitions the hinting models are as many as there are. */
  lemma {:induction false} HintingLength(models: seq<Model>, port: nat)
    requires forall k :: 0 <= k < |models| ==> !Repeats(models[k], port)
    ensures |Hinting(models, port)| <= |models|
    ensures if forall k :: 0 <= k < |models| ==> Hints(models[k], port) then Hinting(models, port) == Positions(|models|)
            else |Hinting(models, port)| < |models|
  {
    if models != [] {
      var n := |models| - 1;
      assert forall k :: 0 <= k < n ==> models[..n][k] == models[k];
      HintingLength(models[..n], port);
      RepeatsMeansMoreThanOnce(models[n], port);
      assert Positions(n) + [n] == Positions(n + 1);
      assert Hints(models[n], port) ==> Repeat(n, multiset(models[n].portHints)[port]) == [n];
    }
  }

  /** A scan of `size()` positions meets every model once, unless some model repeats the port. */
  lemma ScanVisitsEachOnce(db: Db, port: nat)
    requires db.portOrder == PortOrder(db.order)
    requires forall k :: 0 <= k < |db.order| ==> !Repeats(db.order[k], port)
    ensures multiset(ScanOrder(db, port)) == multiset(Positions(|db.order|))
  {
    hide Hinting, NotHinting, Repeats;
    if port != 0 && port in db.portOrder {
      PortListIsAPermutation(db.order, port);
      var list := db.portOrder[port];
      assert |multiset(list)| == |multiset(Positions(|db.order|))|;
      assert ScanOrder(db, port) == list;
    }
  }

  /** The least model that repeats a port is scanned twice, if there is room for it. */
  lemma RepeatedModelIsScannedTwice(db: Db, port: nat, k: nat)
    requires db.portOrder == PortOrder(db.order) && port != 0 && k < |db.order|
    requires Repeats(db.order[k], port) && forall j :: 0 <= j < k ==> !Repeats(db.order[j], port)
    requires k + 1 < |db.order| || exists j :: 0 <= j < |db.order| && !Hints(db.order[j], port)
    ensures multiset(ScanOrder(db, port)) != multiset(Positions(|db.order|))
  {
    hide NotHinting, Repeats, Hints;
    var n := |db.order|;
    var before := db.order[..k];
    var r := |Hinting(before, port)|;
    HintingLength(before, port);
    RepeatSitsTogether(db.order, port, k);
    if j :| 0 <= j < n && !Hints(db.order[j], port) && k + 1 == n {
      RepeatsMeansMoreThanOnce(db.order[k], port);
      assert j != k ==> !Hints(before[j], port);
    }
    assert r + 2 <= n;
    assert port in AllHints(db.order);
    PortListIsLongEnough(db.order, port);
    PairCountsTwice(Hinting(db.order, port) + NotHinting(db.order, port), n, r);
    PositionsCount(n, k);
  }

  lemma PairCountsTwice(list: seq<nat>, n: nat, r: nat)
    requires r + 2 <= n <= |list| && list[r] == list[r + 1]
    ensures multiset(list[..n])[list[r]] >= 2
  {
    assert list[..n] == list[..r] + [list[r], list[r]] + list[r + 2..n];
  }

  lemma RepeatSitsTogether(models: seq<Model>, port: nat, k: nat)
    requires k < |models| && Repeats(models[k], port)
    ensures var r := |Hinting(models[..k], port)|;
            r + 2 <= |Hinting(models, port)| && Hinting(models, port)[r] == Hinting(models, port)[r + 1] == k
    ensures Hints(models[k], port) && port in models[k].portHints
  {
    HintingPrefix(models, k + 1, port);
    assert models[..k + 1][..k] == models[..k];
  }

  lemma {:induction false} LeastRepeating(models: seq<Model>, port: nat, k: nat) returns (i: nat)
    requires k < |models| && Repeats(models[k], port)
    ensures i <= k && Repeats(models[i], port) && forall j :: 0 <= j < i ==> !Repeats(models[j], port)
    decreases k
  {
    if j :| 0 <= j < k && Repeats(models[j], port) {
      i := LeastRepeating(models, port, j);
    } else {
      i := k;
    }
  }

  /** Only one kind of repetition does no harm: that of the last model when all models hint the port. */
  lemma LastModelMayRepeat(db: Db, port: nat)
    requires db.portOrder == PortOrder(db.order) && port != 0 && port in db.portOrder
    requires forall k :: 0 <= k < |db.order| ==> Hints(db.order[k], port)
    requires forall k :: 0 <= k < |db.order| - 1 ==> !Repeats(db.order[k], port)
    ensures ScanOrder(db, port) == Positions(|db.order|)
  {
    hide NotHinting;
    var n := |db.order| - 1;
    assert db.order != [];
    var before := db.order[..n];
    HintingLength(before, port);
    RepeatsMeansMoreThanOnce(db.order[n], port);
    assert Positions(n) + [n] == Positions(n + 1);
    assert forall i :: 0 <= i <= n ==> ScanOrder(db, port)[i] == Positions(n + 1)[i];
  }

  /** Exactly when a scan meets every model once: no model repeats the port, except possibly the
      last one when every model hints it. */
  lemma ScanVisitsEachOnceIff(db: Db, port: nat)
    requires db.portOrder == PortOrder(db.order) && port != 0 && port in db.portOrder
    ensures multiset(ScanOrder(db, port)) == multiset(Positions(|db.order|)) <==>
              forall k :: 0 <= k < |db.order| && Repeats(db.order[k], port) ==>
                            k == |db.order| - 1 && forall j :: 0 <= j < |db.order| ==> Hints(db.order[j], port)
  {
    hide ScanOrder, Repeats, Hints, PortOrder;
    if k :| 0 <= k < |db.order| && Repeats(db.order[k], port) {
      var i := LeastRepeating(db.order, port, k);
      if i < |db.order| - 1 || exists j :: 0 <= j < |db.order| && !Hints(db.order[j], port) {
        RepeatedModelIsScannedTwice(db, port, i);
      } else {
        LastModelMayRepeat(db, port);
      }
    } else {
      ScanVisitsEachOnce(db, port);
    }
  }

  /** A model that hints port 80 twice stands in that port's list twice, and a scan of the list, as long as
      there are models, never reaches the other model. */
  lemma RepeatedHintHidesAModel(a: Model, b: Model)
    requires a.portHints == [80, 80] && 80 !in b.portHints
    ensures var models := [a, b];
            && Hinting(models, 80) + NotHinting(models, 80) == [0, 0, 1]
            && ScanOrder(Db(10, 100, VERSION, models, PortOrder(models)), 80) == [0, 0]
  {
    hide Hinting, NotHinting;
    var models := [a, b];
    NothingHinted(80);
    assert multiset(a.portHints)[80] == 2 && multiset(b.portHints)[80] == 0;
    OneModelMore([], a, 80);
    OneModelMore([a], b, 80);
    assert [] + [a] == [a] && [a] + [b] == models;
    assert Repeat(0, 2) == [0, 0] && Repeat(1, 0) == [];
    assert 80 in models[0].portHints && 80 in AllHints(models);
    PortListIsLongEnough(models, 80);
    assert [0, 0, 1][..2] == [0, 0];
  }

  lemma NothingHinted(port: nat)
    ensures Hinting([], port) == [] && NotHinting([], port) == []
  {
  }

  lemma OneModelMore(models: seq<Model>, model: Model, port: nat)
    ensures Hinting(models + [model], port) == Hinting(models, port) + Repeat(|models|, multiset(model.portHints)[port])
    ensures NotHinting(models + [model], port) == NotHinting(models, port) + if port in model.portHints then [] else [|models|]
  {
    assert (models + [model])[..|models|] == models;
  }
}
