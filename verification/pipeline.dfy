/**
  The flow manager as a state machine (src/common/src/FlowManager.cpp).

  A reader submits packets; each worker serves one bounded queue.  The steps are
  `AddPacket` (the reader's call, up to and including the push), `GetReady` (a worker
  finds that it is not to shut down), `Pop` (it looks for a packet in its queue),
  `Work` (it processes the packet it holds), a shutdown, and those of the final call:
  taking the table's lock once all queues are empty, and `Finish`, flow by flow.  Each
  is taken as atomic, which is coarser than the code: there the table's lock is
  released between the lookup of a flow and the counting of its packet, and again
  between the feeding of a flow and its deletion.  `PipelineRace` and
  `PipelineSettling` say when that does harm.

  Flows get numbers so that they can be told apart in the history, a record of
  everything the outside can see: verdicts, observer calls, creations, removals.
*/
module Pipeline {
  import opened Packets
  import opened FlowKey
  import opened FlowControl
  import opened Meters
  import opened FlowModel

  /** The key of the table: a flow's hash, and nothing else. */
  datatype Key = Key(hash: bv32)

  datatype Timeouts = Timeouts(udp: nat, tcp: nat, tcpCloseWait: nat)

  datatype Setup = Setup(env: Env, workers: nat, capacity: nat, timeouts: Timeouts, finishObservers: nat, classifyObservers: nat,
                         junk: nat -> Junk)  // what each new flow finds in its memory

  datatype Entry = Entry(id: nat, flow: FlowData)

  datatype Delivery = Delivery(packet: Packet, flowId: nat)

  datatype Report = Report(observer: nat, flowId: nat)

  datatype History = History(
    origin: map<nat, Packet>,     // the packet each flow was created for
    submitted: seq<Packet>,
    accepted: seq<Packet>,
    dropped: seq<Packet>,
    taken: seq<Delivery>,         // counted for a flow and handed to its worker
    processed: seq<Delivery>,     // with the flow that processed it
    retired: map<nat, Control>,   // flows that entered FINISHED_NOTIFIED, as they were then
    finishCalls: seq<Report>,
    labelled: set<nat>,           // flows that were classified
    classifyCalls: seq<Report>,
    removed: multiset<nat>)

  /** Where a worker is in its loop: before the test of the shutdown flag; between the test and the pop;
      or with the packet that it popped. */
  datatype Stage = Idle | Ready | Busy

  datatype Manager = Manager(
    flows: map<Key, Entry>,
    lines: seq<seq<Packet>>,      // for each worker the packet it holds, if any, and then its queue
    stages: seq<Stage>,           // of each worker
    currentQueue: nat,
    shutdown: bool,
    closing: bool,                // the final call has seen empty queues, and holds the table's lock
    nextId: nat,
    history: History)

  datatype Caller = Reader | Worker(index: nat)

  function TupleKey(t: Tuple): Key {
    Key(FlowHash(t))
  }

  function KeyOf(p: Packet): Key {
    TupleKey(p.tuple)
  }

  ghost function Start(s: Setup): Manager {
    Manager(map[], seq(s.workers, _ => []), seq(s.workers, _ => Idle), 0, false, false, 0,
            History(map[], [], [], [], [], [], map[], [], {}, [], multiset{}))
  }

  // ---------- the parts of a step ----------

  /** Entries hold flows of this environment, pinned to an existing queue or to none. */
  ghost predicate WellFormed(s: Setup, m: Manager) {
    && s.env.Valid()
    && |m.lines| == s.workers
    && forall h :: h in m.flows ==>
                     ValidFlow(s.env, m.flows[h].flow) && (s.workers > 0 ==> -1 <= m.flows[h].flow.queueId < s.workers)
  }

  function HasPackets(f: FlowData): bool {
    f.pktsInQueue > 0
  }

  function NextQueue(m: Manager): nat {
    if m.currentQueue >= |m.lines| then 0 else m.currentQueue
  }

  /** A new flow: on a worker thread it belongs to that worker, else to the queue whose turn it is. */
  ghost function Install(s: Setup, m: Manager, p: Packet, caller: Caller): (r: Manager)
    requires WellFormed(s, m) && (caller.Worker? ==> caller.index < s.workers)
    ensures WellFormed(s, r) && KeyOf(p) in r.flows
  {
    hide KeyOf, FreshFlow, WellFormed, ValidFlow;
    var f := FreshFlow(s.env, p, s.junk(m.nextId));
    FreshFlowIsValid(s.env, p, s.junk(m.nextId));
    var queue := if s.workers == 0 then -1 else if caller.Worker? then caller.index else NextQueue(m);
    var r := m.(flows := m.flows[KeyOf(p) := Entry(m.nextId, f.(queueId := queue))],
                currentQueue := if s.workers == 0 || caller.Worker? then m.currentQueue else NextQueue(m) + 1,
                nextId := m.nextId + 1,
                history := m.history.(origin := m.history.origin[m.nextId := p]));
    NewEntryIsWellFormed(s, m, r, KeyOf(p), f, queue);
    r
  }

  lemma NewEntryIsWellFormed(s: Setup, m: Manager, r: Manager, h: Key, f: FlowData, queue: int)
    requires WellFormed(s, m) && ValidFlow(s.env, f)
    requires s.workers > 0 ==> -1 <= queue < s.workers || queue == NextQueue(m)
    requires h in r.flows && r.flows == m.flows[h := Entry(m.nextId, f.(queueId := queue))] && r.lines == m.lines
    ensures WellFormed(s, r)
  {
    hide ValidMeters, Env.Valid;
  }

  function SetFlow(m: Manager, h: Key, f: FlowData): Manager
    requires h in m.flows
  {
    m.(flows := m.flows[h := m.flows[h].(flow := f)])
  }

  function SetState(f: FlowData, state: State): FlowData {
    f.(control := f.control.(state := state))
  }

  function Remove(m: Manager, h: Key): Manager
    requires h in m.flows
  {
    m.(flows := m.flows - {h}, history := m.history.(removed := m.history.removed + multiset{m.flows[h].id}))
  }

  /** Only flows with enough packets are reported. */
  predicate WorthReporting(c: Control) {
    c.pktCount > 0 && c.overallPktCount >= if c.tuple.transport == TCP then 3 else 2
  }

  function Reports(observers: nat, id: nat): seq<Report> {
    seq(observers, k requires k >= 0 => Report(k, id))
  }

  function NotifyFinished(s: Setup, m: Manager, h: Key): Manager
    requires h in m.flows
  {
    var Entry(id, f) := m.flows[h];
    if f.control.state == FinishedNotified then m
    else
      SetFlow(m, h, SetState(f, FinishedNotified)).(
        history := m.history.(
          retired := m.history.retired[id := f.control],
          finishCalls := m.history.finishCalls + if WorthReporting(f.control) then Reports(s.finishObservers, id) else []))
  }

  /** The flow is reported, if it is worth it, and leaves the table. */
  function Finish(s: Setup, m: Manager, h: Key): Manager
    requires h in m.flows
  {
    Remove(NotifyFinished(s, m, h), h)
  }

  lemma FinishKeepsWellFormed(s: Setup, m: Manager, h: Key)
    requires WellFormed(s, m) && h in m.flows
    ensures WellFormed(s, Finish(s, m, h)) && Finish(s, m, h).flows == m.flows - {h}
  {
    hide ValidMeters, Env.Valid, WorthReporting, Reports;
  }

  lemma CountKeepsWellFormed(s: Setup, m: Manager, h: Key, change: int)
    requires WellFormed(s, m) && h in m.flows
    ensures WellFormed(s, Count(m, h, change)) && h in Count(m, h, change).flows
  {
    hide ValidMeters, Env.Valid;
  }

  /** The flow under a packet's key is to be replaced.  For TCP the comparison is the source's own:
      what is compared with the timeout is the truth value 0 or 1. */
  predicate Expired(t: Timeouts, f: FlowData, p: Packet) {
    var age := p.seconds - f.control.lastSeconds;
    if p.IsUdp() then !HasPackets(f) && age > t.udp
    else
      || (if !HasPackets(f) && age != 0 then 1 else 0) > t.tcp
      || (f.control.state in {FinishedNotified, Finished} && !HasPackets(f) && age > t.tcpCloseWait)
  }

  /** The flow of a packet, created or replaced if need be. */
  ghost function GetFlow(s: Setup, m: Manager, p: Packet, caller: Caller): (r: Manager)
    requires WellFormed(s, m) && (caller.Worker? ==> caller.index < s.workers)
    ensures WellFormed(s, r) && KeyOf(p) in r.flows
  {
    hide TupleKey, Install, Expired, WellFormed, Finish;
    var h := KeyOf(p);
    if h !in m.flows then Install(s, m, p, caller)
    else if Expired(s.timeouts, m.flows[h].flow, p) then
      FinishKeepsWellFormed(s, m, h);
      Install(s, Finish(s, m, h), p, caller)
    else m
  }

  function Count(m: Manager, h: Key, change: int): Manager
    requires h in m.flows
  {
    SetFlow(m, h, m.flows[h].flow.(pktsInQueue := m.flows[h].flow.pktsInQueue + change))
  }

  /** A finished flow leaves the table, unless packets of it are still queued. */
  function DeleteFlow(m: Manager, h: Key): Manager
    requires h in m.flows
  {
    var f := m.flows[h].flow;
    if HasPackets(f) then SetFlow(m, h, SetState(f, FinishedNotified)) else Remove(m, h)
  }

  /** The flow takes the packet, which is thereby accepted; a first label is announced. */
  ghost function Feed(s: Setup, m: Manager, p: Packet): (r: Manager)
    requires WellFormed(s, m) && KeyOf(p) in m.flows
    ensures WellFormed(s, r) && KeyOf(p) in r.flows
  {
    hide TupleKey, FlowStep, ValidMeters;
    var h := KeyOf(p);
    var Entry(id, before) := m.flows[h];
    var after := FlowStep(s.env, before, p);
    FlowStepKeepsPlace(s.env, before, p);
    var announce := after.verdict.classified && !before.verdict.classified;
    SetFlow(m, h, after).(
      history := m.history.(
        accepted := m.history.accepted + [p],
        processed := m.history.processed + [Delivery(p, id)],
        labelled := m.history.labelled + if announce then {id} else {},
        classifyCalls := m.history.classifyCalls + if announce then Reports(s.classifyObservers, id) else []))
  }

  lemma FlowStepKeepsPlace(env: Env, f: FlowData, p: Packet)
    requires env.Valid() && ValidFlow(env, f)
    ensures var r := FlowStep(env, f, p);
            && r.queueId == f.queueId && r.pktsInQueue == f.pktsInQueue
            && r.control == FlowControl.Step(f.control, p)
            && (f.verdict.classified ==> r.verdict == f.verdict)
  {
    hide FlowControl.Step, MeasureEach, ScoresAfter;
  }

  function Retire(s: Setup, m: Manager, h: Key): Manager
    requires h in m.flows
  {
    match m.flows[h].flow.control.state
    case Finished => DeleteFlow(NotifyFinished(s, m, h), h)
    case FinishedNotified => DeleteFlow(m, h)
    case _ => m
  }

  ghost function ProcessPacket(s: Setup, m: Manager, p: Packet, caller: Caller): (r: Manager)
    requires WellFormed(s, m) && (caller.Worker? ==> caller.index < s.workers)
  {
    hide TupleKey, GetFlow, Feed, WellFormed, Count;
    var m := GetFlow(s, m, p, caller);
    CountKeepsWellFormed(s, m, KeyOf(p), -1);
    var m := Count(m, KeyOf(p), -1);
    Retire(s, Feed(s, m, p), KeyOf(p))
  }

  // ---------- the steps ----------

  predicate Holding(m: Manager, q: nat) {
    q < |m.stages| && m.stages[q] == Busy
  }

  /** What is in a worker's queue: its line without the packet it holds. */
  function Queue(m: Manager, q: nat): seq<Packet>
    requires q < |m.lines|
  {
    if Holding(m, q) && m.lines[q] != [] then m.lines[q][1..] else m.lines[q]
  }

  function Accept(m: Manager, p: Packet): Manager {
    m.(history := m.history.(accepted := m.history.accepted + [p]))
  }

  function Submit(m: Manager, p: Packet): Manager {
    m.(history := m.history.(submitted := m.history.submitted + [p]))
  }

  /** A flow without a queue gets the one whose turn it is. */
  function Pin(m: Manager, h: Key): Manager
    requires h in m.flows
  {
    if m.flows[h].flow.queueId == -1 then
      SetFlow(m, h, m.flows[h].flow.(queueId := NextQueue(m))).(currentQueue := NextQueue(m) + 1)
    else m
  }

  function Take(m: Manager, p: Packet): Manager
    requires KeyOf(p) in m.flows
  {
    m.(history := m.history.(taken := m.history.taken + [Delivery(p, m.flows[KeyOf(p)].id)]))
  }

  function Push(m: Manager, p: Packet, q: nat): Manager
    requires q < |m.lines| && KeyOf(p) in m.flows
  {
    Take(m.(lines := m.lines[q := m.lines[q] + [p]]), p)
  }

  function Drop(m: Manager, p: Packet): Manager
    requires KeyOf(p) in m.flows
  {
    var m := Count(m, KeyOf(p), -1);
    m.(history := m.history.(dropped := m.history.dropped + [p]))
  }

  ghost function AddPacket(s: Setup, m: Manager, p: Packet): Manager
    requires WellFormed(s, m)
  {
    hide TupleKey, GetFlow, ProcessPacket, ValidMeters;
    var h := KeyOf(p);
    var m := Submit(m, p);
    if m.shutdown then Accept(m, p)
    else
      var m := Count(GetFlow(s, m, p, Reader), h, 1);
      if s.workers > 0 then
        var m := Pin(m, h);
        var q := m.flows[h].flow.queueId;
        if |Queue(m, q)| < s.capacity then Push(m, p, q) else Drop(m, p)
      else ProcessPacket(s, Take(m, p), p, Reader)
  }

  /** A worker that has not seen a shutdown goes on to its queue. */
  function GetReady(m: Manager, q: nat): Manager
    requires q < |m.stages|
  {
    m.(stages := m.stages[q := Ready])
  }

  /** It pops a packet, which keeps its place at the head of the worker's line; if there is none, it waits
      for a while and starts again. */
  function Pop(m: Manager, q: nat): Manager
    requires q < |m.stages| && q < |m.lines|
  {
    m.(stages := m.stages[q := if m.lines[q] != [] then Busy else Idle])
  }

  /** The packet it holds leaves the line, to be processed. */
  function Unload(m: Manager, q: nat): Manager
    requires q < |m.lines| && m.lines[q] != []
  {
    m.(lines := m.lines[q := m.lines[q][1..]], stages := if q < |m.stages| then m.stages[q := Idle] else m.stages)
  }

  ghost function Work(s: Setup, m: Manager, q: nat): Manager
    requires WellFormed(s, m) && q < s.workers && m.lines[q] != []
  {
    hide TupleKey, ProcessPacket, ValidMeters;
    ProcessPacket(s, Unload(m, q), m.lines[q][0], Worker(q))
  }

  /** Flows of the table are finished one after the other. */
  ghost function FinishAll(s: Setup, m: Manager, order: seq<Key>): Manager
    requires forall i :: 0 <= i < |order| ==> order[i] in m.flows
    requires forall i, j :: 0 <= i < j < |order| ==> order[i] != order[j]
    decreases |order|
  {
    if order == [] then m else FinishAll(s, Finish(s, m, order[0]), order[1..])
  }
}
