/**
  The protocol database at the level of YAML nodes
  (src/protocol_model/src/ProtocolModelDb.cpp): reading a tree into models,
  writing models as a tree, and the order in which each port sees the models.

  A scalar is its text; how numbers, flags and probabilities are spelt is the
  parameter `Codec`.  Models are shared between several lists in the source; here
  a list holds positions in the main order, which is where the models live.
*/
module ProtocolDb {
  import opened Wrappers

  const VERSION := "0.2"
  const TWO_TO_THE_16 := 0x1_0000
  const TWO_TO_THE_32 := 0x1_0000_0000

  /** A value, or the exception of a node that is not what it should be. */
  datatype Try<+T> = Value(value: T) | Throw {
    predicate IsFailure() {
      Throw?
    }

    function PropagateFailure<U>(): Try<U>
      requires Throw?
    {
      Throw
    }

    function Extract(): T
      requires Value?
    {
      value
    }
  }

  datatype Node = Null | Scalar(text: string) | List(items: seq<Node>) | Table(entries: map<string, Node>)

  datatype Codec = Codec(
    showNat: nat -> string, readNat: string -> Option<nat>,
    showBool: bool -> string, readBool: string -> Option<bool>,
    showReal: real -> string, readReal: string -> Option<real>)

  /** The numbers and flags that are written can be read again.  Of probabilities this is not asked: no
      spelling tells all real numbers apart. */
  ghost predicate Faithful(c: Codec) {
    && (forall n: nat :: n < TWO_TO_THE_32 ==> c.readNat(c.showNat(n)) == Some(n))
    && (forall b :: c.readBool(c.showBool(b)) == Some(b))
  }

  /** What is written for a probability can be read as some number. */
  predicate Legible(c: Codec, x: real) {
    c.readReal(c.showReal(x)).Some?
  }

  /** And that number is the probability. */
  predicate Spelt(c: Codec, x: real) {
    c.readReal(c.showReal(x)) == Some(x)
  }

  /** Whatever could be read is written so that it reads the same. */
  ghost predicate Repeatable(c: Codec) {
    forall t, x :: c.readReal(t) == Some(x) ==> Spelt(c, x)
  }

  /** How the times of changes are spelt; a time is some number. */
  datatype Calendar = Calendar(showTime: nat -> string, readTime: string -> Option<nat>)

  /** Times that are written can be read again. */
  ghost predicate KeepsTimes(cal: Calendar) {
    forall t: nat :: cal.readTime(cal.showTime(t)) == Some(t)
  }

  datatype MeterModel = MeterModel(name: string, flowCount: nat, enabled: bool, fingerprint: seq<real>)

  datatype Model = Model(name: string, flowCount: nat, enabled: bool, portHints: seq<nat>, meters: seq<MeterModel>)

  datatype Db = Db(definingLimit: nat, cutoffLimit: nat, version: string, order: seq<Model>, portOrder: map<nat, seq<nat>>)

  // ---------- looking at nodes ----------

  /** The value under a key, if any; a scalar cannot be subscripted. */
  function Sub(node: Node, key: string): Try<Option<Node>> {
    match node
    case Table(entries) => Value(if key in entries then Some(entries[key]) else None)
    case Scalar(_) => Throw
    case _ => Value(None)
  }

  function AsText(node: Option<Node>): Try<string> {
    if node.Some? && node.value.Scalar? then Value(node.value.text) else Throw
  }

  function AsNat(c: Codec, node: Option<Node>, bound: nat): Try<nat> {
    var text :- AsText(node);
    match c.readNat(text)
    case Some(n) => if n < bound then Value(n) else Throw
    case None => Throw
  }

  function AsBool(c: Codec, node: Option<Node>): Try<bool> {
    var text :- AsText(node);
    match c.readBool(text)
    case Some(b) => Value(b)
    case None => Throw
  }

  function AsReal(c: Codec, node: Option<Node>): Try<real> {
    var text :- AsText(node);
    match c.readReal(text)
    case Some(x) => Value(x)
    case None => Throw
  }

  function Size(node: Node): nat {
    match node
    case List(items) => |items|
    case Table(entries) => |entries|
    case _ => 0
  }

  /** The elements a loop visits; the entries of a table are not nodes a loop can use. */
  function Items(node: Node): Try<seq<Node>> {
    match node
    case List(items) => Value(items)
    case Table(entries) => if entries == map[] then Value([]) else Throw
    case _ => Value([])
  }

  // ---------- reading ----------

  function ReadReals(c: Codec, nodes: seq<Node>): (r: Try<seq<real>>)
    ensures r.Value? ==> |r.value| == |nodes|
  {
    if nodes == [] then Value([])
    else
      var front :- ReadReals(c, nodes[..|nodes| - 1]);
      var last :- AsReal(c, Some(nodes[|nodes| - 1]));
      Value(front + [last])
  }

  function ReadHints(c: Codec, nodes: seq<Node>): Try<seq<nat>> {
    if nodes == [] then Value([])
    else
      var front :- ReadHints(c, nodes[..|nodes| - 1]);
      var last :- AsNat(c, Some(nodes[|nodes| - 1]), TWO_TO_THE_16);
      Value(front + [last])
  }

  /** `factory` knows the meters by name and the size of their fingerprints. */
  function ReadMeter(c: Codec, factory: map<string, nat>, node: Node): Try<Option<MeterModel>> {
    var nameNode :- Sub(node, "AttributeName");
    if nameNode.None? then Value(None)
    else
      var name :- AsText(nameNode);
      if name !in factory then Value(None)
      else
        var enabledNode :- Sub(node, "Enabled");
        var flag :- if enabledNode.Some? then AsBool(c, enabledNode) else Value(false);
        var countNode :- Sub(node, "FlowCount");
        var flowCount :- if countNode.Some? then AsNat(c, countNode, TWO_TO_THE_32) else Value(0);
        var enabled := flag && countNode.Some?;
        var printNode :- Sub(node, "FingerPrint");
        if printNode.None? || Size(printNode.value) != factory[name] then Value(None)
        else
          var items :- Items(printNode.value);
          var fingerprint :- ReadReals(c, items);
          Value(Some(MeterModel(name, flowCount, enabled, fingerprint)))
  }

  /** All meters, or nothing if one of them is not valid. */
  function ReadMeters(c: Codec, factory: map<string, nat>, nodes: seq<Node>): Try<Option<seq<MeterModel>>> {
    if nodes == [] then Value(Some([]))
    else
      var front :- ReadMeters(c, factory, nodes[..|nodes| - 1]);
      if front.None? then Value(None)
      else
        var last :- ReadMeter(c, factory, nodes[|nodes| - 1]);
        Value(if last.None? then None else Some(front.value + [last.value]))
  }

  /** The port hints of a model; it may have none. */
  function HintsUnder(c: Codec, node: Node): Try<seq<nat>> {
    var hintsNode :- Sub(node, "PortHints");
    var items :- if hintsNode.Some? then Items(hintsNode.value) else Value([]);
    ReadHints(c, items)
  }

  /** A model up to its meters; without a name it is not valid. */
  function ReadModelHead(c: Codec, node: Node): Try<Option<Model>> {
    var nameNode :- Sub(node, "ProtocolName");
    if nameNode.None? then Value(None)
    else
      var name :- AsText(nameNode);
      var countNode :- Sub(node, "FlowCount");
      var flowCount :- if countNode.Some? then AsNat(c, countNode, TWO_TO_THE_32) else Value(0);
      var enabledNode :- Sub(node, "Enabled");
      var enabled :- if enabledNode.Some? then AsBool(c, enabledNode) else Value(false);
      var hints :- HintsUnder(c, node);
      Value(Some(Model(name, flowCount, enabled, hints, [])))
  }

  function ReadModel(c: Codec, factory: map<string, nat>, node: Node): Try<Option<Model>> {
    var head :- ReadModelHead(c, node);
    if head.None? then Value(None)
    else
      var metersNode :- Sub(node, "AttributeMeters");
      if metersNode.None? then Value(None)
      else
        var meterItems :- Items(metersNode.value);
        var meters :- ReadMeters(c, factory, meterItems);
        Value(if meters.None? then None else Some(head.value.(meters := meters.value)))
  }

  predicate HasName(models: seq<Model>, name: string) {
    exists i :: 0 <= i < |models| && models[i].name == name
  }

  /** The valid models in file order; a second model of the same name is passed over. */
  function ReadModels(c: Codec, factory: map<string, nat>, nodes: seq<Node>): Try<seq<Model>> {
    if nodes == [] then Value([])
    else
      var front :- ReadModels(c, factory, nodes[..|nodes| - 1]);
      var last :- ReadModel(c, factory, nodes[|nodes| - 1]);
      Value(if last.None? || HasName(front, last.value.name) then front else front + [last.value])
  }

  /** What reading the models' nodes makes of the models that are there: valid ones are added, up to the first
      node that cannot be read. */
  datatype Reading = Reading(models: seq<Model>, good: bool)

  function ReadOnto(c: Codec, factory: map<string, nat>, there: seq<Model>, nodes: seq<Node>): Reading {
    if nodes == [] then Reading(there, true)
    else
      var front := ReadOnto(c, factory, there, nodes[..|nodes| - 1]);
      if !front.good then front
      else
        match ReadModel(c, factory, nodes[|nodes| - 1])
        case Throw => Reading(front.models, false)
        case Value(last) =>
          Reading(if last.None? || HasName(front.models, last.value.name) then front.models else front.models + [last.value], true)
  }

  /** The cut-off limit is kept above the defining limit, in 32-bit arithmetic; 0 stays 0. */
  function Clamp(cutoff: nat, defining: nat): nat {
    if cutoff > 0 && cutoff <= defining then (defining + 1) % TWO_TO_THE_32 else cutoff
  }

  /** The limits, the version, and the nodes of the models. */
  datatype Head = Head(defining: nat, cutoff: nat, version: string, items: seq<Node>)

  function ReadHead(c: Codec, config: Node): Try<Head> {
    var definingNode :- Sub(config, "DefiningLimit");
    var defining :- AsNat(c, definingNode, TWO_TO_THE_32);
    var cutoffNode :- Sub(config, "CutoffLimit");
    var cutoff :- AsNat(c, cutoffNode, TWO_TO_THE_32);
    var versionNode :- Sub(config, "Version");
    var version :- if versionNode.Some? then AsText(versionNode) else Value("0.1");
    var modelsNode :- Sub(config, "ProtocolModels");
    var items :- if modelsNode.Some? then Items(modelsNode.value) else Value([]);
    Value(Head(defining, Clamp(cutoff, defining), version, items))
  }

  function ReadDb(c: Codec, factory: map<string, nat>, config: Node): Try<Db> {
    var head :- ReadHead(c, config);
    var models :- ReadModels(c, factory, head.items);
    Value(Db(head.defining, head.cutoff, head.version, models, PortOrder(models)))
  }

  // ---------- what reading enables ----------

  /** A known meter whose flag says so is enabled in the factory as it is read, valid or not. */
  function MeterEnables(c: Codec, factory: map<string, nat>, node: Node): set<string> {
    var nameNode := Sub(node, "AttributeName");
    if nameNode.Throw? then {}
    else
      var name := AsText(nameNode.value);
      if name.Throw? || name.value !in factory then {}
      else
        var flagNode := Sub(node, "Enabled");
        if flagNode.Value? && AsBool(c, flagNode.value) == Value(true) then {name.value} else {}
  }

  /** Reading stops at the first meter that is unreadable or not valid. */
  function MetersEnable(c: Codec, factory: map<string, nat>, nodes: seq<Node>): set<string> {
    if nodes == [] then {}
    else
      var front := ReadMeters(c, factory, nodes[..|nodes| - 1]);
      MetersEnable(c, factory, nodes[..|nodes| - 1])
      + if front.Value? && front.value.Some? then MeterEnables(c, factory, nodes[|nodes| - 1]) else {}
  }

  function ModelEnables(c: Codec, factory: map<string, nat>, node: Node): set<string> {
    var head := ReadModelHead(c, node);
    if head.Throw? || head.value.None? then {}
    else
      var metersNode := Sub(node, "AttributeMeters");
      if metersNode.Throw? || metersNode.value.None? then {}
      else
        var items := Items(metersNode.value.value);
        if items.Throw? then {} else MetersEnable(c, factory, items.value)
  }

  function ModelsEnable(c: Codec, factory: map<string, nat>, nodes: seq<Node>): set<string> {
    if nodes == [] then {}
    else
      ModelsEnable(c, factory, nodes[..|nodes| - 1])
      + if ReadModels(c, factory, nodes[..|nodes| - 1]).Value? then ModelEnables(c, factory, nodes[|nodes| - 1]) else {}
  }

  /** The meters that reading a database enables. */
  function DbEnables(c: Codec, factory: map<string, nat>, config: Node): set<string> {
    var head := ReadHead(c, config);
    if head.Throw? then {} else ModelsEnable(c, factory, head.value.items)
  }

  // ---------- the order a port sees ----------

  function Repeat(i: nat, times: nat): (r: seq<nat>)
    ensures |r| == times
  {
    seq(times, _ => i)
  }

  /** The models that hint a port, in database order, each as often as it hints it. */
  function Hinting(models: seq<Model>, port: nat): seq<nat> {
    if models == [] then []
    else
      var n := |models| - 1;
      Hinting(models[..n], port) + Repeat(n, multiset(models[n].portHints)[port])
  }

  /** The models that do not, in database order. */
  function NotHinting(models: seq<Model>, port: nat): seq<nat> {
    if models == [] then []
    else
      var n := |models| - 1;
      NotHinting(models[..n], port) + if port in models[n].portHints then [] else [n]
  }

  function AllHints(models: seq<Model>): set<nat> {
    set i, h | 0 <= i < |models| && h in models[i].portHints :: h
  }

  function PortOrder(models: seq<Model>): map<nat, seq<nat>> {
    map port | port in AllHints(models) :: Hinting(models, port) + NotHinting(models, port)
  }

  /** The position in the main order of the `pos`-th model a port is shown. */
  function At(db: Db, pos: nat, port: nat): Option<nat> {
    if port == 0 || port !in db.portOrder then
      if pos < |db.order| then Some(pos) else None
    else if pos < |db.portOrder[port]| then Some(db.portOrder[port][pos]) else None
  }

  // ---------- writing ----------

  function WriteReals(c: Codec, v: seq<real>): (r: seq<Node>)
    ensures |r| == |v|
  {
    seq(|v|, i requires 0 <= i < |v| => Scalar(c.showReal(v[i])))
  }

  function WriteHints(c: Codec, hints: seq<nat>): (r: seq<Node>)
    ensures |r| == |hints|
  {
    seq(|hints|, i requires 0 <= i < |hints| => Scalar(c.showNat(hints[i])))
  }

  /** A node elements were pushed onto: without any it stays null. */
  function Pushed(nodes: seq<Node>): Node {
    if nodes == [] then Null else List(nodes)
  }

  function WriteMeter(c: Codec, m: MeterModel): Node {
    Table(map["AttributeName" := Scalar(m.name),
              "FlowCount" := Scalar(c.showNat(m.flowCount)),
              "Enabled" := Scalar(c.showBool(m.enabled)),
              "FingerPrint" := Pushed(WriteReals(c, m.fingerprint))])
  }

  function WriteMeters(c: Codec, meters: seq<MeterModel>): (r: seq<Node>)
    ensures |r| == |meters|
  {
    seq(|meters|, i requires 0 <= i < |meters| => WriteMeter(c, meters[i]))
  }

  function WriteModel(c: Codec, m: Model): Node {
    var entries := map["ProtocolName" := Scalar(m.name),
                       "FlowCount" := Scalar(c.showNat(m.flowCount)),
                       "Enabled" := Scalar(c.showBool(m.enabled)),
                       "PortHints" := Pushed(WriteHints(c, m.portHints))];
    Table(if m.meters == [] then entries else entries["AttributeMeters" := List(WriteMeters(c, m.meters))])
  }

  function WriteModels(c: Codec, models: seq<Model>): (r: seq<Node>)
    ensures |r| == |models|
  {
    seq(|models|, i requires 0 <= i < |models| => WriteModel(c, models[i]))
  }

  function WriteDb(c: Codec, db: Db): Node {
    var entries := map["DefiningLimit" := Scalar(c.showNat(db.definingLimit)),
                       "CutoffLimit" := Scalar(c.showNat(db.cutoffLimit)),
                       "Version" := Scalar(VERSION)];
    Table(if db.order == [] then entries else entries["ProtocolModels" := List(WriteModels(c, db.order))])
  }

  // ---------- the times of changes ----------

  function TimeIn(cal: Calendar, node: Node): seq<nat> {
    if node.Scalar? && cal.readTime(node.text).Some? then [cal.readTime(node.text).value] else []
  }

  /** The times that can be read; other nodes are passed over. */
  function ReadTimes(cal: Calendar, nodes: seq<Node>): seq<nat> {
    if nodes == [] then [] else ReadTimes(cal, nodes[..|nodes| - 1]) + TimeIn(cal, nodes[|nodes| - 1])
  }

  /** The times a file tells; a file without any has changed now. */
  function TimesUnder(cal: Calendar, config: Node, now: nat): seq<nat> {
    match Sub(config, "ModifiedTime")
    case Value(Some(List(nodes))) => ReadTimes(cal, nodes)
    case Value(Some(_)) => []
    case _ => [now]
  }

  function WriteTimes(cal: Calendar, times: seq<nat>): (r: seq<Node>)
    ensures |r| == |times|
  {
    seq(|times|, i requires 0 <= i < |times| => Scalar(cal.showTime(times[i])))
  }

  function Stamped(cal: Calendar, root: Node, times: seq<nat>): Node
    requires root.Table?
  {
    Table(root.entries["ModifiedTime" := Pushed(WriteTimes(cal, times))])
  }

  // ---------- what every database that was read satisfies ----------

  predicate ValidMeter(factory: map<string, nat>, m: MeterModel) {
    m.name in factory && |m.fingerprint| == factory[m.name] && m.flowCount < TWO_TO_THE_32
  }

  predicate ValidModel(factory: map<string, nat>, m: Model) {
    && m.flowCount < TWO_TO_THE_32
    && (forall i :: 0 <= i < |m.portHints| ==> m.portHints[i] < TWO_TO_THE_16)
    && (forall i :: 0 <= i < |m.meters| ==> ValidMeter(factory, m.meters[i]))
  }

  ghost predicate DistinctNames(models: seq<Model>) {
    forall i, j :: 0 <= i < j < |models| ==> models[i].name != models[j].name
  }

  ghost predicate ValidDb(factory: map<string, nat>, db: Db) {
    && db.definingLimit < TWO_TO_THE_32 && db.cutoffLimit < TWO_TO_THE_32
    && Clamp(db.cutoffLimit, db.definingLimit) == db.cutoffLimit
    && DistinctNames(db.order)
    && (forall i :: 0 <= i < |db.order| ==> ValidModel(factory, db.order[i]))
    && db.portOrder == PortOrder(db.order)
  }
}
