/**
  The protocol database as an object (src/protocol_model/src/ProtocolModelDb.cpp):
  reading and writing in loops over the nodes, and the loops that give each port
  its order.  They are proved to do what `ProtocolDb` says, also to the factory,
  where reading enables the meters that the database uses.
*/
module ProtocolModelDbs {
  import opened Wrappers
  import opened ProtocolDb
  import opened ProtocolDbLaws
  import opened AttributeMeters
  import opened AttributeMeterFactories
  import opened Training
  import opened Meters

  // ---------- once a loop has met a bad node, reading has failed ----------

  lemma {:induction false} BadRealSpoilsAll(c: Codec, nodes: seq<Node>, k: nat)
    requires k <= |nodes| && ReadReals(c, nodes[..k]).Throw?
    ensures ReadReals(c, nodes).Throw?
  {
    hide AsReal;
    if k < |nodes| {
      assert nodes[..|nodes| - 1][..k] == nodes[..k];
      BadRealSpoilsAll(c, nodes[..|nodes| - 1], k);
    } else {
      assert nodes[..k] == nodes;
    }
  }

  lemma {:induction false} BadHintSpoilsAll(c: Codec, nodes: seq<Node>, k: nat)
    requires k <= |nodes| && ReadHints(c, nodes[..k]).Throw?
    ensures ReadHints(c, nodes).Throw?
  {
    hide AsNat;
    if k < |nodes| {
      assert nodes[..|nodes| - 1][..k] == nodes[..k];
      BadHintSpoilsAll(c, nodes[..|nodes| - 1], k);
    } else {
      assert nodes[..k] == nodes;
    }
  }

  /** The first meter that is unreadable or not valid decides for all. */
  lemma {:induction false} BadMeterSpoilsAll(c: Codec, factory: map<string, nat>, nodes: seq<Node>, k: nat)
    requires k <= |nodes|
    ensures var r := ReadMeters(c, factory, nodes[..k]);
            r.Throw? || r.value.None? ==> ReadMeters(c, factory, nodes) == r
  {
    hide ReadMeter;
    if k < |nodes| {
      assert nodes[..|nodes| - 1][..k] == nodes[..k];
      BadMeterSpoilsAll(c, factory, nodes[..|nodes| - 1], k);
    } else {
      assert nodes[..k] == nodes;
    }
  }

  /** Nor does anything after it get enabled. */
  lemma {:induction false} BadMeterEndsReading(c: Codec, factory: map<string, nat>, nodes: seq<Node>, k: nat)
    requires k <= |nodes|
    ensures var r := ReadMeters(c, factory, nodes[..k]);
            r.Throw? || r.value.None? ==> MetersEnable(c, factory, nodes) == MetersEnable(c, factory, nodes[..k])
  {
    hide ReadMeter, MeterEnables;
    if k < |nodes| {
      assert nodes[..|nodes| - 1][..k] == nodes[..k];
      BadMeterEndsReading(c, factory, nodes[..|nodes| - 1], k);
      BadMeterSpoilsAll(c, factory, nodes[..|nodes| - 1], k);
    } else {
      assert nodes[..k] == nodes;
    }
  }

  /** The first model that cannot be read ends it all. */
  lemma {:induction false} BadModelEndsReading(c: Codec, factory: map<string, nat>, there: seq<Model>, nodes: seq<Node>, k: nat)
    requires k <= |nodes| && !ReadOnto(c, factory, there, nodes[..k]).good
    ensures ReadOnto(c, factory, there, nodes) == ReadOnto(c, factory, there, nodes[..k])
    ensures ModelsEnable(c, factory, nodes) == ModelsEnable(c, factory, nodes[..k])
  {
    hide ReadModel, HasName, ModelEnables;
    if k < |nodes| {
      assert nodes[..|nodes| - 1][..k] == nodes[..k];
      BadModelEndsReading(c, factory, there, nodes[..|nodes| - 1], k);
      ReadingKeepsWhatIsThere(c, factory, there, nodes[..|nodes| - 1]);
    } else {
      assert nodes[..k] == nodes;
    }
  }

  // ---------- the loops over nodes ----------

  method ReadFingerPrint(c: Codec, nodes: seq<Node>) returns (r: Try<seq<real>>)
    ensures r == ReadReals(c, nodes)
  {
    hide AsReal;
    var fp: seq<real> := [];
    for i := 0 to |nodes|
      invariant ReadReals(c, nodes[..i]) == Value(fp)
    {
      assert nodes[..i + 1][..i] == nodes[..i];
      var entry := AsReal(c, Some(nodes[i]));
      if entry.Throw? {
        BadRealSpoilsAll(c, nodes, i + 1);
        return Throw;
      }
      fp := fp + [entry.value];
    }
    assert nodes[..|nodes|] == nodes;
    r := Value(fp);
  }

  method ReadPortHints(c: Codec, nodes: seq<Node>) returns (r: Try<seq<nat>>)
    ensures r == ReadHints(c, nodes)
  {
    hide AsNat;
    var hints: seq<nat> := [];
    for i := 0 to |nodes|
      invariant ReadHints(c, nodes[..i]) == Value(hints)
    {
      assert nodes[..i + 1][..i] == nodes[..i];
      var hint := AsNat(c, Some(nodes[i]), TWO_TO_THE_16);
      if hint.Throw? {
        BadHintSpoilsAll(c, nodes, i + 1);
        return Throw;
      }
      hints := hints + [hint.value];
    }
    assert nodes[..|nodes|] == nodes;
    r := Value(hints);
  }

  method ReadAttributeMeter(c: Codec, factory: AttributeMeterFactory, node: Node) returns (r: Try<Option<MeterModel>>)
    requires factory.Valid()
    modifies factory`enabledAttributes
    ensures factory.Valid() && r == ReadMeter(c, factory.Sizes(), node)
    ensures factory.Enabled() == old(factory.Enabled()) + MeterEnables(c, factory.Sizes(), node)
  {
    hide Sub, AsText, AsBool, AsNat, Items, Size, Kind.Slots, AttributeMeterFactory.Enabled, AttributeMeterFactory.Valid, ReadReals;
    NothingIsNoScalar(c);
    var nameNode :- Sub(node, "AttributeName");
    if nameNode.None? {
      return Value(None);
    }
    var name :- AsText(nameNode);
    if name !in factory.factories {
      return Value(None);
    }
    var enabled, flowCount := false, 0;
    var enabledNode :- Sub(node, "Enabled");
    if enabledNode.Some? {
      enabled :- AsBool(c, enabledNode);
    }
    if enabled {
      factory.EnableAttribute(name);
    }
    var countNode :- Sub(node, "FlowCount");
    if countNode.Some? {
      flowCount :- AsNat(c, countNode, TWO_TO_THE_32);
    } else {
      enabled := false;
    }
    var printNode :- Sub(node, "FingerPrint");
    if printNode.None? {
      return Value(None);
    }
    if Size(printNode.value) != factory.factories[name].Slots() {
      return Value(None);
    }
    var items :- Items(printNode.value);
    var fingerprint :- ReadFingerPrint(c, items);
    r := Value(Some(MeterModel(name, flowCount, enabled, fingerprint)));
  }

  lemma NothingIsNoScalar(c: Codec)
    ensures AsText(None).Throw? && AsBool(c, None).Throw?
  {
  }

  method ReadAttributeMeters(c: Codec, factory: AttributeMeterFactory, nodes: seq<Node>) returns (r: Try<Option<seq<MeterModel>>>)
    requires factory.Valid()
    modifies factory`enabledAttributes
    ensures factory.Valid() && r == ReadMeters(c, factory.Sizes(), nodes)
    ensures factory.Enabled() == old(factory.Enabled()) + MetersEnable(c, factory.Sizes(), nodes)
  {
    hide ReadMeter, MeterEnables, AttributeMeterFactory.Enabled, AttributeMeterFactory.Valid, AttributeMeterFactory.Sizes;
    var meters: seq<MeterModel> := [];
    for i := 0 to |nodes|
      invariant factory.Valid() && ReadMeters(c, factory.Sizes(), nodes[..i]) == Value(Some(meters))
      invariant factory.Enabled() == old(factory.Enabled()) + MetersEnable(c, factory.Sizes(), nodes[..i])
    {
      assert nodes[..i + 1][..i] == nodes[..i];
      BadMeterSpoilsAll(c, factory.Sizes(), nodes, i + 1);
      BadMeterEndsReading(c, factory.Sizes(), nodes, i + 1);
      var am := ReadAttributeMeter(c, factory, nodes[i]);
      if am.Throw? {
        return Throw;
      }
      if am.value.None? {
        return Value(None);
      }
      meters := meters + [am.value.value];
    }
    assert nodes[..|nodes|] == nodes;
    r := Value(Some(meters));
  }

  lemma NoPortHints(c: Codec)
    ensures ReadHints(c, []) == Value([])
  {
  }

  method ReadHintsUnder(c: Codec, node: Node) returns (r: Try<seq<nat>>)
    ensures r == HintsUnder(c, node)
  {
    hide Sub, Items, ReadHints;
    NoPortHints(c);
    var hintsNode :- Sub(node, "PortHints");
    if hintsNode.None? {
      return Value([]);
    }
    var items :- Items(hintsNode.value);
    r := ReadPortHints(c, items);
  }

  /** A model up to its meters. */
  method ReadProtocolModelHead(c: Codec, node: Node) returns (r: Try<Option<Model>>)
    ensures r == ReadModelHead(c, node)
  {
    hide Sub, AsText, AsBool, AsNat, Items, HintsUnder;
    var nameNode :- Sub(node, "ProtocolName");
    if nameNode.None? {
      return Value(None);
    }
    var name :- AsText(nameNode);
    var flowCount, enabled := 0, false;
    var countNode :- Sub(node, "FlowCount");
    if countNode.Some? {
      flowCount :- AsNat(c, countNode, TWO_TO_THE_32);
    }
    var enabledNode :- Sub(node, "Enabled");
    if enabledNode.Some? {
      enabled :- AsBool(c, enabledNode);
    }
    var hints :- ReadHintsUnder(c, node);
    r := Value(Some(Model(name, flowCount, enabled, hints, [])));
  }

  method ReadProtocolModel(c: Codec, factory: AttributeMeterFactory, node: Node) returns (r: Try<Option<Model>>)
    requires factory.Valid()
    modifies factory`enabledAttributes
    ensures factory.Valid() && r == ReadModel(c, factory.Sizes(), node)
    ensures factory.Enabled() == old(factory.Enabled()) + ModelEnables(c, factory.Sizes(), node)
  {
    hide Sub, Items, ReadMeters, MetersEnable, ReadModelHead, AttributeMeterFactory.Enabled, AttributeMeterFactory.Valid, AttributeMeterFactory.Sizes;
    var head :- ReadProtocolModelHead(c, node);
    if head.None? {
      return Value(None);
    }
    var metersNode :- Sub(node, "AttributeMeters");
    if metersNode.None? {
      return Value(None);
    }
    var items :- Items(metersNode.value);
    var meters :- ReadAttributeMeters(c, factory, items);
    if meters.None? {
      return Value(None);
    }
    r := Value(Some(head.value.(meters := meters.value)));
  }

  // ---------- the order each port sees ----------

  /** The port lists after the first `k` models have put themselves first where they hint. */
  function HintOrder(models: seq<Model>): map<nat, seq<nat>> {
    map port | port in AllHints(models) :: Hinting(models, port)
  }

  /** The list of a port while a model's first `i` hints have been taken. */
  predicate HintedSoFar(order: map<nat, seq<nat>>, models: seq<Model>, hints: seq<nat>, port: nat) {
    var list := if port in order then order[port] else [];
    && (port in order <==> port in AllHints(models) || port in hints)
    && list == Hinting(models, port) + Repeat(|models|, multiset(hints)[port])
  }

  lemma SameHintsSameOrders(a: seq<Model>, b: seq<Model>)
    requires |a| == |b| && forall i :: 0 <= i < |a| ==> a[i].portHints == b[i].portHints
    ensures HintOrder(a) == HintOrder(b) && PortOrder(a) == PortOrder(b)
  {
    SameHintsSameOrder(a, b);
    forall port: nat
      ensures Hinting(a, port) == Hinting(b, port)
      ensures port in AllHints(a) <==> port in AllHints(b)
    {
      SameHintsSameLists(a, b, port);
    }
    hide Hinting;
  }

  lemma NoHintsYet(models: seq<Model>, port: nat)
    ensures HintedSoFar(HintOrder(models), models, [], port)
  {
    HintedOnlyIfListed(models, port);
  }

  lemma {:induction false} HintedOnlyIfListed(models: seq<Model>, port: nat)
    ensures port !in AllHints(models) ==> Hinting(models, port) == []
  {
    if models != [] {
      var n := |models| - 1;
      HintedOnlyIfListed(models[..n], port);
      if port !in AllHints(models) {
        assert port !in AllHints(models[..n]);
        assert port !in models[n].portHints;
      }
    }
  }

  lemma HintTaken(order: map<nat, seq<nat>>, next: map<nat, seq<nat>>, models: seq<Model>, hints: seq<nat>, hint: nat, port: nat)
    requires HintedSoFar(order, models, hints, port)
    requires next == order[hint := (if hint in order then order[hint] else []) + [|models|]]
    ensures HintedSoFar(next, models, hints + [hint], port)
  {
    hide Hinting, AllHints, Repeat;
    OneHintMore(hints, hint, port);
    if port == hint {
      RepeatOneMore(|models|, multiset(hints)[port]);
      Regroup(Hinting(models, port), Repeat(|models|, multiset(hints)[port]), [|models|]);
    }
  }

  lemma OneHintMore(hints: seq<nat>, hint: nat, port: nat)
    ensures multiset(hints + [hint])[port] == multiset(hints)[port] + if port == hint then 1 else 0
    ensures port in hints + [hint] <==> port in hints || port == hint
  {
    assert multiset(hints + [hint]) == multiset(hints) + multiset{hint};
  }

  lemma RepeatOneMore(n: nat, times: nat)
    ensures Repeat(n, times) + [n] == Repeat(n, times + 1)
  {
  }

  lemma Regroup(a: seq<nat>, b: seq<nat>, c: seq<nat>)
    ensures a + b + c == a + (b + c)
  {
  }

  lemma AllHintsTaken(order: map<nat, seq<nat>>, models: seq<Model>, model: Model)
    requires forall port: nat :: HintedSoFar(order, models, model.portHints, port)
    ensures order == HintOrder(models + [model])
  {
    var more := models + [model];
    assert more[..|models|] == models;
    forall port: nat ensures port in order <==> port in AllHints(more) {
      assert HintedSoFar(order, models, model.portHints, port);
      AllHintsGrow(models, model, port);
    }
    forall port: nat | port in order ensures order[port] == Hinting(more, port) {
      assert HintedSoFar(order, models, model.portHints, port);
    }
  }

  lemma AllHintsGrow(models: seq<Model>, model: Model, port: nat)
    ensures port in AllHints(models + [model]) <==> port in AllHints(models) || port in model.portHints
  {
    var more := models + [model];
    if port in AllHints(models) {
      var i :| 0 <= i < |models| && port in models[i].portHints;
      assert port in more[i].portHints;
    }
    if port in model.portHints {
      assert port in more[|models|].portHints;
    }
  }

  /** A model that hints a port puts itself at the end of that port's list, once for each hint. */
  method TakeHints(order: map<nat, seq<nat>>, ghost models: seq<Model>, model: Model, at: nat) returns (r: map<nat, seq<nat>>)
    requires order == HintOrder(models) && at == |models|
    ensures r == HintOrder(models + [model])
  {
    hide HintOrder, HintedSoFar;
    r := order;
    forall port: nat ensures HintedSoFar(r, models, [], port) {
      NoHintsYet(models, port);
    }
    for i := 0 to |model.portHints|
      invariant forall port: nat :: HintedSoFar(r, models, model.portHints[..i], port)
    {
      var hint := model.portHints[i];
      ghost var taken, before := model.portHints[..i + 1], r;
      assert model.portHints[..i] + [hint] == taken;
      r := r[hint := (if hint in r then r[hint] else []) + [at]];
      forall port: nat ensures HintedSoFar(r, models, taken, port) {
        HintTaken(before, r, models, model.portHints[..i], hint, port);
      }
    }
    assert model.portHints[..|model.portHints|] == model.portHints;
    AllHintsTaken(r, models, model);
  }

  /** A port's list when the first `k` models have been looked at in the filling loop. */
  function Filled(models: seq<Model>, k: nat, port: nat): seq<nat>
    requires k <= |models|
  {
    Hinting(models, port) + NotHinting(models[..k], port)
  }

  /** Whether model `k` is in the list already is whether it hints the port. */
  lemma FoundIfHinted(models: seq<Model>, k: nat, port: nat)
    requires k < |models|
    ensures k in Filled(models, k, port) <==> port in models[k].portHints
    ensures forall j :: 0 <= j < |Filled(models, k, port)| ==> Filled(models, k, port)[j] < |models|
    ensures Filled(models, k + 1, port) == Filled(models, k, port) + if port in models[k].portHints then [] else [k]
  {
    hide Hinting, NotHinting;
    PortListCounts(models, port, k);
    PortListCounts(models[..k], port, k);
    var list := Filled(models, k, port);
    assert multiset(list)[k] == multiset(Hinting(models, port))[k] + multiset(NotHinting(models[..k], port))[k];
    forall j | 0 <= j < |list| ensures list[j] < |models| {
      PortListCounts(models, port, list[j]);
      PortListCounts(models[..k], port, list[j]);
      assert multiset(list)[list[j]] > 0;
      assert multiset(list) == multiset(Hinting(models, port)) + multiset(NotHinting(models[..k], port));
    }
    OneMoreNotHinting(models, k, port);
    assert Hinting(models, port) + NotHinting(models[..k], port) + [k] == Hinting(models, port) + (NotHinting(models[..k], port) + [k]);
    assert Filled(models, k, port) + [] == Filled(models, k, port);
  }

  lemma OneMoreNotHinting(models: seq<Model>, k: nat, port: nat)
    requires k < |models|
    ensures NotHinting(models[..k + 1], port) == NotHinting(models[..k], port) + if port in models[k].portHints then [] else [k]
  {
    assert models[..k + 1][..k] == models[..k];
  }

  /** Whether a list shows a model of a certain name. */
  method Shows(models: seq<Model>, list: seq<nat>, k: nat) returns (found: bool)
    requires DistinctNames(models) && k < |models| && forall j :: 0 <= j < |list| ==> list[j] < |models|
    ensures found == (k in list)
  {
    found := false;
    for i := 0 to |list|
      invariant k !in list[..i]
    {
      if models[k].name == models[list[i]].name {
        return true;
      }
    }
  }

  /** Every model that is not in a port's list yet goes to its end. */
  method FillOrder(models: seq<Model>, order: map<nat, seq<nat>>) returns (r: map<nat, seq<nat>>)
    requires DistinctNames(models) && order == HintOrder(models)
    ensures r == PortOrder(models)
  {
    hide Filled, Hinting, NotHinting, DistinctNames, AllHints;
    r := order;
    forall port | port in r ensures r[port] == Filled(models, 0, port) {
      NothingFilled(models, port);
    }
    for k := 0 to |models|
      invariant r.Keys == order.Keys && forall port :: port in r ==> r[port] == Filled(models, k, port)
    {
      var todo := r.Keys;
      while todo != {}
        invariant todo <= r.Keys == order.Keys
        invariant forall port :: port in r ==> r[port] == Filled(models, if port in todo then k else k + 1, port)
        decreases todo
      {
        var port :| port in todo;
        FoundIfHinted(models, k, port);
        var found := Shows(models, r[port], k);
        if !found {
          r := r[port := r[port] + [k]];
        }
        todo := todo - {port};
      }
    }
    forall port | port in r ensures r[port] == Hinting(models, port) + NotHinting(models, port) {
      AllFilled(models, port);
    }
  }

  lemma NothingFilled(models: seq<Model>, port: nat)
    ensures Filled(models, 0, port) == Hinting(models, port)
  {
    assert models[..0] == [];
  }

  lemma AllFilled(models: seq<Model>, port: nat)
    ensures Filled(models, |models|, port) == Hinting(models, port) + NotHinting(models, port)
  {
    assert models[..|models|] == models;
  }

  // ---------- writing ----------

  method WriteAttributeMeter(c: Codec, m: MeterModel) returns (ym: Node)
    ensures ym == WriteMeter(c, m)
  {
    var ph := Null;
    for i := 0 to |m.fingerprint|
      invariant ph == Pushed(WriteReals(c, m.fingerprint[..i]))
    {
      assert WriteReals(c, m.fingerprint[..i + 1]) == WriteReals(c, m.fingerprint[..i]) + [Scalar(c.showReal(m.fingerprint[i]))];
      ph := PushBack(ph, Scalar(c.showReal(m.fingerprint[i])));
    }
    assert m.fingerprint[..|m.fingerprint|] == m.fingerprint;
    ym := Table(map["AttributeName" := Scalar(m.name), "FlowCount" := Scalar(c.showNat(m.flowCount)),
                    "Enabled" := Scalar(c.showBool(m.enabled)), "FingerPrint" := ph]);
  }

  /** An element is added to a list; a node that holds nothing yet becomes a list. */
  function PushBack(node: Node, item: Node): Node {
    List((if node.List? then node.items else []) + [item])
  }

  method WriteProtocolModel(c: Codec, model: Model) returns (ym: Node)
    ensures ym == WriteModel(c, model)
  {
    hide WriteMeter;
    var ph := Null;
    for i := 0 to |model.portHints|
      invariant ph == Pushed(WriteHints(c, model.portHints[..i]))
    {
      assert WriteHints(c, model.portHints[..i + 1]) == WriteHints(c, model.portHints[..i]) + [Scalar(c.showNat(model.portHints[i]))];
      ph := PushBack(ph, Scalar(c.showNat(model.portHints[i])));
    }
    assert model.portHints[..|model.portHints|] == model.portHints;
    var meters := Null;
    for i := 0 to |model.meters|
      invariant meters == Pushed(WriteMeters(c, model.meters[..i]))
    {
      var yam := WriteAttributeMeter(c, model.meters[i]);
      assert WriteMeters(c, model.meters[..i + 1]) == WriteMeters(c, model.meters[..i]) + [yam];
      meters := PushBack(meters, yam);
    }
    assert model.meters[..|model.meters|] == model.meters;
    var entries := map["ProtocolName" := Scalar(model.name), "FlowCount" := Scalar(c.showNat(model.flowCount)),
                       "Enabled" := Scalar(c.showBool(model.enabled)), "PortHints" := ph];
    ym := Table(if meters == Null then entries else entries["AttributeMeters" := meters]);
  }

  method WriteProtocolModels(c: Codec, order: seq<Model>) returns (models: Node)
    ensures models == Pushed(WriteModels(c, order))
  {
    hide WriteModel;
    models := Null;
    for i := 0 to |order|
      invariant models == Pushed(WriteModels(c, order[..i]))
    {
      var ym := WriteProtocolModel(c, order[i]);
      assert WriteModels(c, order[..i + 1]) == WriteModels(c, order[..i]) + [ym];
      models := PushBack(models, ym);
    }
    assert order[..|order|] == order;
  }

  // ---------- the times of changes ----------

  /** The times a file tells; a node that cannot be read is logged and passed over. */
  method ReadModifiedTimes(cal: Calendar, config: Node, now: nat) returns (times: seq<nat>)
    ensures times == TimesUnder(cal, config, now)
  {
    var node := Sub(config, "ModifiedTime");
    if node.Throw? || node.value.None? {
      return [now];
    }
    times := [];
    if node.value.value.List? {
      var items := node.value.value.items;
      for i := 0 to |items|
        invariant times == ReadTimes(cal, items[..i])
      {
        assert items[..i + 1][..i] == items[..i];
        if items[i].Scalar? && cal.readTime(items[i].text).Some? {
          times := times + [cal.readTime(items[i].text).value];
        }
      }
      assert items[..|items|] == items;
    }
  }

  method WriteModifiedTimes(cal: Calendar, modifiedTimes: seq<nat>) returns (times: Node)
    ensures times == Pushed(WriteTimes(cal, modifiedTimes))
  {
    times := Null;
    for i := 0 to |modifiedTimes|
      invariant times == Pushed(WriteTimes(cal, modifiedTimes[..i]))
    {
      assert WriteTimes(cal, modifiedTimes[..i + 1]) == WriteTimes(cal, modifiedTimes[..i]) + [Scalar(cal.showTime(modifiedTimes[i]))];
      times := PushBack(times, Scalar(cal.showTime(modifiedTimes[i])));
    }
    assert modifiedTimes[..|modifiedTimes|] == modifiedTimes;
  }

  // ---------- merging ----------

  /** Each slot takes in the observed probability, in place. */
  method MergeFingerPrint(fingerprint: seq<real>, flowCount: nat, other: AttributeMeter) returns (fp: seq<real>)
    requires other.Valid()
    ensures |fp| == |fingerprint| && forall k :: 0 <= k < |fp| ==> fp[k] == Blend(fingerprint[k], flowCount, other.View().At(k))
  {
    hide Blend, Meter.At;
    fp := fingerprint;
    for i := 0 to |fp|
      invariant |fp| == |fingerprint|
      invariant forall k :: 0 <= k < i ==> fp[k] == Blend(fingerprint[k], flowCount, other.View().At(k))
      invariant forall k :: i <= k < |fp| ==> fp[k] == fingerprint[k]
    {
      fp := fp[i := Blend(fp[i], flowCount, other.At(i))];
    }
  }

  // ---------- the database ----------

  class ProtocolModelDb {
    var initialised: bool
    var definingLimit: nat
    var cutoffLimit: nat
    var version: string
    var protocolModelOrder: seq<Model>
    // where in the main order a model of a name is
    var protocolModels: map<string, nat>
    var portHintOrder: map<nat, seq<nat>>
    // the latest change first
    var modifiedTimes: seq<nat>

    ghost predicate Valid()
      reads this
    {
      && (forall name :: name in protocolModels ==>
                           protocolModels[name] < |protocolModelOrder| && protocolModelOrder[protocolModels[name]].name == name)
      && (forall i :: 0 <= i < |protocolModelOrder| ==>
                        protocolModelOrder[i].name in protocolModels && protocolModels[protocolModelOrder[i].name] == i)
      && portHintOrder == if initialised then PortOrder(protocolModelOrder) else HintOrder(protocolModelOrder)
    }

    ghost function View(): Db
      reads this
    {
      Db(definingLimit, cutoffLimit, version, protocolModelOrder, portHintOrder)
    }

    constructor ()
      ensures Valid() && !initialised && View() == Db(10, 100, "", [], map[]) && modifiedTimes == []
    {
      initialised, definingLimit, cutoffLimit, version, modifiedTimes := false, 10, 100, "", [];
      protocolModelOrder, protocolModels, portHintOrder := [], map[], map[];
    }

    /** A model joins the database, unless one of its name is there. */
    method Admit(model: Model)
      requires Valid() && !initialised
      modifies this`protocolModelOrder, this`protocolModels, this`portHintOrder
      ensures Valid()
      ensures protocolModelOrder ==
                if HasName(old(protocolModelOrder), model.name) then old(protocolModelOrder) else old(protocolModelOrder) + [model]
    {
      hide HintOrder;
      if model.name in protocolModels {
        return;
      }
      portHintOrder := TakeHints(portHintOrder, protocolModelOrder, model, |protocolModelOrder|);
      protocolModels := protocolModels[model.name := |protocolModelOrder|];
      protocolModelOrder := protocolModelOrder + [model];
    }

    /** The limits, the version and the times of changes; what is left are the models' nodes. */
    method ReadLimits(c: Codec, cal: Calendar, config: Node, now: nat) returns (r: Try<seq<Node>>)
      modifies this`definingLimit, this`cutoffLimit, this`version, this`modifiedTimes
      ensures modifiedTimes in {old(modifiedTimes), old(modifiedTimes) + TimesUnder(cal, config, now)}
      ensures r.Value? ==> modifiedTimes == old(modifiedTimes) + TimesUnder(cal, config, now)
      ensures var head := ReadHead(c, config);
              && r.Throw? == head.Throw?
              && (r.Value? ==>
                    && r.value == head.value.items && version == head.value.version
                    && definingLimit == head.value.defining && cutoffLimit == head.value.cutoff)
    {
      hide Sub, AsNat, AsText, Items, TimesUnder;
      var definingNode :- Sub(config, "DefiningLimit");
      var defining :- AsNat(c, definingNode, TWO_TO_THE_32);
      definingLimit := defining;
      var cutoffNode :- Sub(config, "CutoffLimit");
      var cutoff :- AsNat(c, cutoffNode, TWO_TO_THE_32);
      cutoffLimit := cutoff;
      if cutoffLimit > 0 && cutoffLimit <= definingLimit {
        cutoffLimit := (definingLimit + 1) % TWO_TO_THE_32;
      }
      var versionNode :- Sub(config, "Version");
      if versionNode.Some? {
        var text :- AsText(versionNode);
        version := text;
      } else {
        version := "0.1";
      }
      var times := ReadModifiedTimes(cal, config, now);
      modifiedTimes := modifiedTimes + times;
      var modelsNode :- Sub(config, "ProtocolModels");
      if modelsNode.None? {
        return Value([]);
      }
      r := Items(modelsNode.value);
    }

    /** Reading, once.  A file that holds the wrong kind of node is refused, but what was read of it stays:
        a second attempt adds to that.  The meters that the models use are enabled in the factory. */
    method Read(c: Codec, cal: Calendar, factory: AttributeMeterFactory, config: Node, now: nat) returns (ok: bool)
      requires Valid() && factory.Valid()
      modifies this, factory`enabledAttributes
      ensures Valid() && factory.Valid() && initialised == (old(initialised) || ok)
      ensures old(initialised) ==> !ok && View() == old(View()) && modifiedTimes == old(modifiedTimes) && factory.Enabled() == old(factory.Enabled())
      ensures modifiedTimes in {old(modifiedTimes), old(modifiedTimes) + TimesUnder(cal, config, now)}
      ensures !old(initialised) ==>
                var head := ReadHead(c, config);
                && factory.Enabled() == old(factory.Enabled()) + DbEnables(c, factory.Sizes(), config)
                && if head.Throw? then !ok && protocolModelOrder == old(protocolModelOrder)
                   else
                     modifiedTimes == old(modifiedTimes) + TimesUnder(cal, config, now) &&
                     var r := ReadOnto(c, factory.Sizes(), old(protocolModelOrder), head.value.items);
                     && ok == r.good && protocolModelOrder == r.models
                     && (ok ==> View() == Db(head.value.defining, head.value.cutoff, head.value.version, r.models, PortOrder(r.models)))
    {
      hide ReadOnto, ReadHead, HintOrder, PortOrder, DistinctNames, ModelsEnable, TimesUnder;
      hide AttributeMeterFactory.Enabled, AttributeMeterFactory.Valid, AttributeMeterFactory.Sizes;
      if initialised {
        return false;
      }
      var items := ReadLimits(c, cal, config, now);
      if items.Throw? {
        return false;
      }
      ok := ReadProtocolModels(c, factory, items.value);
      if !ok {
        return;
      }
      NamesAreDistinct();
      portHintOrder := FillOrder(protocolModelOrder, portHintOrder);
      initialised := true;
    }

    lemma NamesAreDistinct()
      requires Valid()
      ensures DistinctNames(protocolModelOrder)
    {
    }

    method ReadProtocolModels(c: Codec, factory: AttributeMeterFactory, items: seq<Node>) returns (ok: bool)
      requires Valid() && !initialised && factory.Valid()
      modifies this`protocolModelOrder, this`protocolModels, this`portHintOrder, factory`enabledAttributes
      ensures Valid() && factory.Valid()
      ensures Reading(protocolModelOrder, ok) == ReadOnto(c, factory.Sizes(), old(protocolModelOrder), items)
      ensures factory.Enabled() == old(factory.Enabled()) + ModelsEnable(c, factory.Sizes(), items)
    {
      hide ReadModel, HasName, ModelEnables, ReadModels, AttributeMeterFactory.Enabled, AttributeMeterFactory.Valid, AttributeMeterFactory.Sizes;
      ghost var there := protocolModelOrder;
      for i := 0 to |items|
        invariant Valid() && factory.Valid()
        invariant ReadOnto(c, factory.Sizes(), there, items[..i]) == Reading(protocolModelOrder, true)
        invariant factory.Enabled() == old(factory.Enabled()) + ModelsEnable(c, factory.Sizes(), items[..i])
      {
        assert items[..i + 1][..i] == items[..i];
        ReadingKeepsWhatIsThere(c, factory.Sizes(), there, items[..i]);
        var model := ReadProtocolModel(c, factory, items[i]);
        if model.Throw? {
          BadModelEndsReading(c, factory.Sizes(), there, items, i + 1);
          return false;
        }
        if model.value.Some? {
          Admit(model.value.value);
        }
      }
      assert items[..|items|] == items;
      ok := true;
    }

    /** The database as a tree of nodes, under the program's own version; it has changed now. */
    method Write(c: Codec, cal: Calendar, now: nat) returns (root: Node)
      modifies this`modifiedTimes
      ensures modifiedTimes == [now] + old(modifiedTimes)
      ensures root == Stamped(cal, WriteDb(c, View()), modifiedTimes)
    {
      hide WriteTimes, WriteModels;
      modifiedTimes := [now] + modifiedTimes;
      var times := WriteModifiedTimes(cal, modifiedTimes);
      var models := WriteProtocolModels(c, protocolModelOrder);
      var entries := map["DefiningLimit" := Scalar(c.showNat(definingLimit)), "CutoffLimit" := Scalar(c.showNat(cutoffLimit)),
                         "Version" := Scalar(VERSION), "ModifiedTime" := times];
      root := Table(if models == Null then entries else entries["ProtocolModels" := models]);
      assert root.entries == Stamped(cal, WriteDb(c, View()), modifiedTimes).entries;
    }

    /** The position of the model of a name. */
    method Find(name: string) returns (r: Option<nat>)
      requires Valid()
      ensures r.Some? ==> r.value < |protocolModelOrder| && protocolModelOrder[r.value].name == name
      ensures r.None? ==> forall i :: 0 <= i < |protocolModelOrder| ==> protocolModelOrder[i].name != name
    {
      r := if name in protocolModels then Some(protocolModels[name]) else None;
    }

    /** The model counts one flow more. */
    method IncreaseFlowCount(at: nat)
      requires Valid() && at < |protocolModelOrder|
      modifies this`protocolModelOrder
      ensures Valid()
      ensures var m := old(protocolModelOrder)[at];
              protocolModelOrder == old(protocolModelOrder)[at := m.(flowCount := (m.flowCount + 1) % TWO_TO_THE_32)]
    {
      var m := protocolModelOrder[at];
      ghost var before := protocolModelOrder;
      protocolModelOrder := protocolModelOrder[at := m.(flowCount := (m.flowCount + 1) % TWO_TO_THE_32)];
      SameHintsSameOrders(before, protocolModelOrder);
    }

    /** A meter of a model takes in an observed one, slot by slot, if it is of the same name. */
    method MergeMeter(at: nat, j: nat, other: AttributeMeter)
      requires Valid() && at < |protocolModelOrder| && j < |protocolModelOrder[at].meters| && other.Valid()
      requires protocolModelOrder[at].meters[j].flowCount + 1 < TWO_TO_THE_32
      modifies this`protocolModelOrder
      ensures Valid()
      ensures var m := old(protocolModelOrder)[at];
              protocolModelOrder == old(protocolModelOrder)[at := m.(meters := m.meters[j := Merged(m.meters[j], other.View())])]
    {
      hide Blend, Meter.At, Kind.Name;
      var model := protocolModelOrder[at];
      var m := model.meters[j];
      if other.kind.Name() != m.name {
        assert model.meters[j := m] == model.meters;
        return;
      }
      var fp := MergeFingerPrint(m.fingerprint, m.flowCount, other);
      assert fp == Merged(m, other.View()).fingerprint;
      ghost var before := protocolModelOrder;
      protocolModelOrder := protocolModelOrder[at := model.(meters := model.meters[j := m.(fingerprint := fp, flowCount := m.flowCount + 1)])];
      SameHintsSameOrders(before, protocolModelOrder);
    }
  }
}
