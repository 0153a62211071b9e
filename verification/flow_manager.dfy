/**
  The flow manager as an object (src/common/src/FlowManager.cpp): a table of flow
  objects and the workers' queues of packet objects, updated in place.  Each method is
  proved to take exactly one step of the state machine in `Pipeline`.

  `model` is that state machine's state, history included; `TableValid` says that the
  real table is what it says it is, and `Valid` says so of the queues as well.  A
  contract says what a call does once it goes through; when it has to wait for the
  table's lock is said in `PipelineRuns.Enabled`.
*/
module FlowManagers {
  import opened Packets
  import opened FlowKey
  import opened FlowControl
  import opened Meters
  import opened FlowModel
  import opened IPv4Packets
  import opened Flows
  import opened Pipeline
  import opened PipelineInvariant
  import opened PipelineHistory

  /** What a submitted packet meets with at once. */
  datatype Fate = Accepted | Dropped | Queued(queue: nat)

  /** Flow objects are among the manager's parts, and share nothing. */
  ghost predicate Owned(flows: map<Key, Flow>, parts: set<object>) {
    && (forall h :: h in flows ==> flows[h] in parts && flows[h].parts <= parts && flows[h] !in flows[h].parts)
    && (forall h, k :: h in flows && k in flows && h != k ==>
                         flows[h] != flows[k] && flows[h] !in flows[k].parts && flows[h].parts !! flows[k].parts)
  }

  lemma NewFlowIsOwned(flows: map<Key, Flow>, parts: set<object>, h: Key, f: Flow)
    requires Owned(flows, parts) && h !in flows && f !in parts && f.parts !! parts && f !in f.parts
    ensures Owned(flows[h := f], parts + {f} + f.parts)
  {
  }

  lemma OwnedParts(flows: map<Key, Flow>, parts: set<object>, h: Key)
    requires Owned(flows, parts) && h in flows
    ensures flows[h] in parts && flows[h].parts <= parts && flows[h] !in flows[h].parts
  {
  }

  /** What a packet makes of its flow, and of the classification observers' calls. */
  lemma FedFlow(s: Setup, m: Manager, p: Packet)
    requires WellFormed(s, m) && KeyOf(p) in m.flows
    ensures var h, r := KeyOf(p), Feed(s, m, p);
            var f, id := m.flows[KeyOf(p)].flow, m.flows[KeyOf(p)].id;
            && WellFormed(s, r) && ValidFlow(s.env, f)
            && var after := FlowStep(s.env, f, p);
            && r.flows == m.flows[h := Entry(id, after)] && r.lines == m.lines && r.nextId == m.nextId
            && SameFlags(m, r) && r.currentQueue == m.currentQueue
            && r.history.finishCalls == m.history.finishCalls
            && r.history.classifyCalls ==
                 if after.verdict.classified && !f.verdict.classified then m.history.classifyCalls + Reports(s.classifyObservers, id)
                 else m.history.classifyCalls
  {
    hide TupleKey, FlowStep, ValidMeters, Env.Valid, Reports;
    assert m.history.classifyCalls + [] == m.history.classifyCalls;
  }

  /** What a notification makes of a flow, and of the finish observers' calls. */
  lemma NotifiedFlow(s: Setup, m: Manager, h: Key)
    requires WellFormed(s, m) && h in m.flows
    ensures var r, Entry(id, f) := NotifyFinished(s, m, h), m.flows[h];
            if f.control.state == FinishedNotified then r == m
            else
              && WellFormed(s, r) && r.lines == m.lines && r.nextId == m.nextId && SameFlags(m, r) && r.currentQueue == m.currentQueue
              && r.flows == m.flows[h := Entry(id, SetState(f, FinishedNotified))]
              && r.history.classifyCalls == m.history.classifyCalls
              && r.history.finishCalls ==
                   if WorthReporting(f.control) then m.history.finishCalls + Reports(s.finishObservers, id) else m.history.finishCalls
  {
    hide ValidMeters, Env.Valid, WorthReporting, Reports;
    assert m.history.finishCalls + [] == m.history.finishCalls;
  }

  lemma RemoveKeepsWellFormed(s: Setup, m: Manager, h: Key)
    requires WellFormed(s, m) && h in m.flows
    ensures WellFormed(s, Remove(m, h))
  {
    hide ValidMeters, Env.Valid;
  }

  lemma StateKeepsWellFormed(s: Setup, m: Manager, h: Key)
    requires WellFormed(s, m) && h in m.flows
    ensures WellFormed(s, SetFlow(m, h, SetState(m.flows[h].flow, FinishedNotified)))
  {
    hide ValidMeters, Env.Valid;
  }

  lemma FewerAreOwned(flows: map<Key, Flow>, parts: set<object>, h: Key)
    requires Owned(flows, parts)
    ensures Owned(flows - {h}, parts)
  {
  }

  lemma SubmitKeepsWellFormed(s: Setup, m: Manager, p: Packet)
    requires WellFormed(s, m)
    ensures WellFormed(s, Submit(m, p)) && WellFormed(s, Accept(Submit(m, p), p))
  {
    hide ValidMeters, Env.Valid;
  }

  lemma PinKeepsWellFormed(s: Setup, m: Manager, h: Key)
    requires WellFormed(s, m) && h in m.flows
    ensures WellFormed(s, Pin(m, h))
  {
    hide ValidMeters, Env.Valid;
  }

  lemma SameFlowsAreWellFormed(s: Setup, m: Manager, r: Manager)
    requires WellFormed(s, m) && r.flows == m.flows && |r.lines| == |m.lines|
    ensures WellFormed(s, r)
  {
    hide ValidMeters, Env.Valid;
  }

  // ---------- the fate of a submitted packet ----------

  ghost predicate FateIs(m: Manager, r: Manager, p: Packet, fate: Fate) {
    var t, u := m.history, r.history;
    && u.submitted == t.submitted + [p]
    && u.accepted == t.accepted + (if fate.Accepted? then [p] else [])
    && u.dropped == t.dropped + (if fate.Dropped? then [p] else [])
    && match fate
       case Queued(q) => q < |m.lines| && r.lines == m.lines[q := m.lines[q] + [p]]
       case _ => r.lines == m.lines
  }

  lemma ProcessAccepts(s: Setup, m: Manager, p: Packet, caller: Caller)
    requires WellFormed(s, m) && (caller.Worker? ==> caller.index < s.workers)
    ensures var t, r := m.history, ProcessPacket(s, m, p, caller);
            && r.history.submitted == t.submitted && r.history.accepted == t.accepted + [p] && r.history.dropped == t.dropped
            && r.lines == m.lines && SameFlags(m, r)
  {
    hide TupleKey, WellFormed, GetFlow, Retire, FlowStep, Reports;
    GetFlowTraffic(s, m, p, caller);
    var g := GetFlow(s, m, p, caller);
    CountKeepsWellFormed(s, g, KeyOf(p), -1);
    RetireTraffic(s, Feed(s, Count(g, KeyOf(p), -1), p), KeyOf(p));
  }

  // ---------- a submitted packet ----------

  ghost predicate CountedInFlow(s: Setup, m: Manager, r: Manager, p: Packet) {
    && WellFormed(s, Submit(m, p))
    && r == Count(GetFlow(s, Submit(m, p), p, Reader), KeyOf(p), 1)
    && r.lines == m.lines && SameFlags(m, r)
    && r.history.submitted == m.history.submitted + [p]
    && r.history.accepted == m.history.accepted && r.history.dropped == m.history.dropped
  }

  ghost predicate ProcessedHere(s: Setup, m: Manager, r: Manager, p: Packet) {
    && KeyOf(p) in m.flows && WellFormed(s, Pipeline.Take(m, p))
    && r == ProcessPacket(s, Pipeline.Take(m, p), p, Reader)
    && r.lines == m.lines && SameFlags(m, r)
    && r.history.submitted == m.history.submitted
    && r.history.accepted == m.history.accepted + [p] && r.history.dropped == m.history.dropped
  }

  /** The packet was added, and this became of it. */
  ghost predicate Added(s: Setup, m: Manager, r: Manager, p: Packet, fate: Fate) {
    WellFormed(s, m) && r == AddPacket(s, m, p) && FateIs(m, r, p, fate)
  }

  lemma UnseenIsAdded(s: Setup, m: Manager, r: Manager, p: Packet)
    requires WellFormed(s, m) && m.shutdown && r == Accept(Submit(m, p), p)
    ensures Added(s, m, r, p, Accepted)
  {
    hide TupleKey, WellFormed, GetFlow, ProcessPacket;
  }

  lemma QueuedIsAdded(s: Setup, m: Manager, counted: Manager, r: Manager, p: Packet, pushed: bool, queue: nat)
    requires WellFormed(s, m) && !m.shutdown && s.workers > 0
    requires CountedInFlow(s, m, counted, p) && Enqueued(s, counted, r, p, pushed, queue)
    ensures Added(s, m, r, p, if pushed then Queued(queue) else Dropped)
  {
    hide TupleKey, WellFormed, GetFlow, ProcessPacket, Queue;
  }

  lemma ProcessedIsAdded(s: Setup, m: Manager, counted: Manager, r: Manager, p: Packet)
    requires WellFormed(s, m) && !m.shutdown && s.workers == 0
    requires CountedInFlow(s, m, counted, p) && ProcessedHere(s, counted, r, p)
    ensures Added(s, m, r, p, Accepted)
  {
    hide TupleKey, WellFormed, GetFlow, ProcessPacket;
  }

  /** The order in which flows are finished so far: each once, all of them in the table before. */
  ghost predicate Distinct(m: Manager, order: seq<Key>) {
    && (forall i :: 0 <= i < |order| ==> order[i] in m.flows)
    && (forall i, j :: 0 <= i < j < |order| ==> order[i] != order[j])
  }

  lemma {:induction false} FinishOneMore(s: Setup, m: Manager, order: seq<Key>, h: Key)
    requires Distinct(m, order) && h in m.flows && h !in order
    ensures Distinct(m, order + [h])
    ensures var r := FinishAll(s, m, order);
            h in r.flows && FinishAll(s, m, order + [h]) == Finish(s, r, h)
    decreases |order|
  {
    hide Finish;
    if order != [] {
      FinishEffect(s, m, order[0]);
      FinishOneMore(s, Finish(s, m, order[0]), order[1..], h);
      assert (order + [h])[1..] == order[1..] + [h];
    } else {
      assert [h][1..] == [];
    }
  }

  /** The final loop so far, with the flows under `left` still to come. */
  ghost predicate FinishedSoFar(s: Setup, m: Manager, r: Manager, order: seq<Key>, left: set<Key>) {
    && Distinct(m, order) && r == FinishAll(s, m, order) && left == r.flows.Keys
    && (forall k :: k in m.flows <==> k in order || k in left)
    && (forall k :: k in order ==> k !in left && !HasPackets(m.flows[k].flow))
    && (forall k :: k in left ==> r.flows[k] == m.flows[k])
  }

  lemma NothingFinishedYet(s: Setup, m: Manager)
    ensures FinishedSoFar(s, m, m, [], m.flows.Keys)
  {
  }

  lemma OneMoreFinished(s: Setup, m: Manager, r: Manager, order: seq<Key>, left: set<Key>, h: Key)
    requires FinishedSoFar(s, m, r, order, left) && h in left && !HasPackets(r.flows[h].flow)
    ensures FinishedSoFar(s, m, Finish(s, r, h), order + [h], left - {h})
  {
    hide Finish, FinishAll, HasPackets;
    FinishOneMore(s, m, order, h);
    FinishEffect(s, r, h);
  }

  /** The loop got through all flows, or has come upon one with packets. */
  lemma FinishingEnds(s: Setup, m: Manager, r: Manager, order: seq<Key>, left: set<Key>)
    requires FinishedSoFar(s, m, r, order, left)
    requires left == {} || exists h :: h in left && HasPackets(r.flows[h].flow)
    ensures Distinct(m, order) && r == FinishAll(s, m, order) && left == r.flows.Keys
    ensures forall i :: 0 <= i < |order| ==> !HasPackets(m.flows[order[i]].flow)
    ensures left == {} <==> forall h :: h in m.flows ==> !HasPackets(m.flows[h].flow)
  {
    hide FinishAll, HasPackets;
  }

  // ---------- packets in queues and hands ----------

  /** Where a worker thread is in its loop: before the test of the shutdown flag; between the test and the pop;
      or with a packet. */
  datatype Hand = AtRest | SetOut | Holds(packet: IPv4Packet)

  function StageOf(hand: Hand): Stage {
    match hand
    case AtRest => Idle
    case SetOut => Ready
    case Holds(_) => Busy
  }

  /** The packet a worker holds, if any, and then its queue. */
  function LineOf(hand: Hand, queue: seq<IPv4Packet>): seq<IPv4Packet> {
    (if hand.Holds? then [hand.packet] else []) + queue
  }

  function DataOf(packets: seq<IPv4Packet>): (ps: seq<Packet>)
    ensures |ps| == |packets|
  {
    seq(|packets|, i requires 0 <= i < |packets| => packets[i].data)
  }

  /** The lines of packet objects are in the workers' hands and queues, and are those of the state machine. */
  ghost predicate Arranged(lines: seq<seq<IPv4Packet>>, hands: seq<Hand>, queues: seq<seq<IPv4Packet>>,
                           data: seq<seq<Packet>>, stages: seq<Stage>)
  {
    && |lines| == |hands| == |queues| == |data| == |stages|
    && forall q :: 0 <= q < |lines| ==>
                     lines[q] == LineOf(hands[q], queues[q]) && data[q] == DataOf(lines[q]) && stages[q] == StageOf(hands[q])
  }

  /** Different places hold different packet objects. */
  ghost predicate AllDifferent(lines: seq<seq<IPv4Packet>>) {
    forall q, i, r, j :: 0 <= q < |lines| && 0 <= i < |lines[q]| && 0 <= r < |lines| && 0 <= j < |lines[r]| && (q != r || i != j) ==>
                           lines[q][i] != lines[r][j]
  }

  ghost function Objects(lines: seq<seq<IPv4Packet>>): set<IPv4Packet> {
    set q, i | 0 <= q < |lines| && 0 <= i < |lines[q]| :: lines[q][i]
  }

  /** Their verdicts are still to come. */
  ghost predicate Carried(lines: seq<seq<IPv4Packet>>, setter: VerdictSetter?)
    reads Objects(lines)
  {
    && AllDifferent(lines)
    && forall q, i :: 0 <= q < |lines| && 0 <= i < |lines[q]| ==> lines[q][i].Pending() && lines[q][i].answersTo == setter
  }

  lemma PushKeepsDifferent(lines: seq<seq<IPv4Packet>>, q: nat, packet: IPv4Packet)
    requires q < |lines| && packet !in Objects(lines) && AllDifferent(lines)
    ensures var more := lines[q := lines[q] + [packet]];
            AllDifferent(more) && Objects(more) == Objects(lines) + {packet}
  {
    var more := lines[q := lines[q] + [packet]];
    forall o | o in Objects(lines) ensures o in Objects(more) {
      var r, i :| 0 <= r < |lines| && 0 <= i < |lines[r]| && o == lines[r][i];
      assert more[r][i] == o;
    }
    assert more[q][|lines[q]|] == packet;
  }

  lemma PopKeepsDifferent(lines: seq<seq<IPv4Packet>>, q: nat)
    requires q < |lines| && lines[q] != [] && AllDifferent(lines)
    ensures var less := lines[q := lines[q][1..]];
            AllDifferent(less) && Objects(less) == Objects(lines) - {lines[q][0]}
  {
    var less := lines[q := lines[q][1..]];
    forall o | o in Objects(lines) && o != lines[q][0] ensures o in Objects(less) {
      var r, i :| 0 <= r < |lines| && 0 <= i < |lines[r]| && o == lines[r][i];
      assert less[r][if r == q then i - 1 else i] == o;
    }
  }

  lemma PushKeepsArranged(lines: seq<seq<IPv4Packet>>, hands: seq<Hand>, queues: seq<seq<IPv4Packet>>,
                          data: seq<seq<Packet>>, stages: seq<Stage>, q: nat, packet: IPv4Packet)
    requires Arranged(lines, hands, queues, data, stages) && q < |lines|
    ensures Arranged(lines[q := lines[q] + [packet]], hands, queues[q := queues[q] + [packet]],
                     data[q := data[q] + [packet.data]], stages)
  {
    assert DataOf(lines[q] + [packet]) == DataOf(lines[q]) + [packet.data];
    assert LineOf(hands[q], queues[q]) + [packet] == LineOf(hands[q], queues[q] + [packet]);
  }

  /** The packet at the head of a queue passes into its worker's hands. */
  lemma FetchKeepsArranged(lines: seq<seq<IPv4Packet>>, hands: seq<Hand>, queues: seq<seq<IPv4Packet>>, m: Manager, q: nat)
    requires Arranged(lines, hands, queues, m.lines, m.stages) && q < |lines| && hands[q].SetOut?
    ensures m.lines[q] == [] <==> queues[q] == []
    ensures if queues[q] == [] then Arranged(lines, hands[q := AtRest], queues, m.lines, Pop(m, q).stages)
            else Arranged(lines, hands[q := Hand.Holds(queues[q][0])], queues[q := queues[q][1..]], m.lines, Pop(m, q).stages)
  {
    assert lines[q] == queues[q];
    if queues[q] != [] {
      assert LineOf(Hand.Holds(queues[q][0]), queues[q][1..]) == queues[q];
    }
  }

  /** The packet in a worker's hands leaves. */
  lemma UnloadKeepsArranged(lines: seq<seq<IPv4Packet>>, hands: seq<Hand>, queues: seq<seq<IPv4Packet>>, m: Manager, q: nat)
    requires Arranged(lines, hands, queues, m.lines, m.stages) && q < |lines| && hands[q].Holds?
    ensures lines[q] != [] && lines[q][0] == hands[q].packet && m.lines[q] != [] && m.lines[q][0] == hands[q].packet.data
    ensures Arranged(lines[q := lines[q][1..]], hands[q := AtRest], queues, Unload(m, q).lines, Unload(m, q).stages)
  {
    assert DataOf(lines[q][1..]) == DataOf(lines[q])[1..];
    assert lines[q] == [hands[q].packet] + queues[q];
  }

  /** What is in a queue is what the state machine says. */
  lemma QueueIsArranged(lines: seq<seq<IPv4Packet>>, hands: seq<Hand>, queues: seq<seq<IPv4Packet>>, m: Manager, q: nat)
    requires Arranged(lines, hands, queues, m.lines, m.stages) && q < |lines|
    ensures Queue(m, q) == DataOf(queues[q])
  {
    if hands[q].Holds? {
      assert lines[q] == [hands[q].packet] + queues[q];
      assert DataOf(lines[q])[1..] == DataOf(queues[q]);
    } else {
      assert lines[q] == queues[q];
    }
  }

  // ---------- a worker's packet ----------

  ghost predicate Fetched(m: Manager, r: Manager, q: nat, popped: bool) {
    q < |m.lines| && q < |m.stages| && popped == (m.lines[q] != []) && r == Pop(m, q)
  }

  ghost predicate LetGoOf(m: Manager, r: Manager, q: nat, p: Packet) {
    q < |m.lines| && m.lines[q] != [] && m.lines[q][0] == p && r == Unload(m, q)
  }

  /** The packet was the next in line of this worker; it has been processed, and accepted. */
  ghost predicate ServedNow(s: Setup, m: Manager, r: Manager, q: nat, p: Packet) {
    && WellFormed(s, m) && q < s.workers == |m.lines| && m.lines[q] != [] && m.lines[q][0] == p
    && r == Work(s, m, q) && r.lines == m.lines[q := m.lines[q][1..]]
    && r.history.accepted == m.history.accepted + [p] && r.history.dropped == m.history.dropped
  }

  lemma LetGoIsWorkable(s: Setup, m: Manager, u: Manager, q: nat, p: Packet)
    requires WellFormed(s, u) && LetGoOf(m, u, q, p)
    ensures WellFormed(s, m) && q < s.workers == |m.lines|
  {
    hide ValidMeters, Env.Valid;
  }

  lemma LetGoAndProcessed(s: Setup, m: Manager, u: Manager, r: Manager, q: nat, p: Packet)
    requires WellFormed(s, u) && LetGoOf(m, u, q, p) && q < s.workers
    requires r == ProcessPacket(s, u, p, Worker(q))
    ensures ServedNow(s, m, r, q, p) && r.lines == u.lines && SameFlags(u, r)
  {
    hide WellFormed, ProcessPacket;
    LetGoIsWorkable(s, m, u, q, p);
    ProcessAccepts(s, u, p, Worker(q));
  }

  ghost predicate QueuesEmpty(m: Manager) {
    forall q :: 0 <= q < |m.lines| ==> Queue(m, q) == []
  }

  lemma EmptyQueues(queues: seq<seq<IPv4Packet>>, m: Manager)
    requires |queues| == |m.lines| && forall q :: 0 <= q < |queues| ==> Queue(m, q) == DataOf(queues[q])
    ensures QueuesEmpty(m) <==> forall q :: 0 <= q < |queues| ==> queues[q] == []
  {
    hide Queue;
    forall q | 0 <= q < |queues| ensures Queue(m, q) == [] <==> queues[q] == [] {
      assert |Queue(m, q)| == |queues[q]|;
    }
  }

  /** Fewer packets are carried as well. */
  lemma CarriedFewer(lines: seq<seq<IPv4Packet>>, fewer: seq<seq<IPv4Packet>>, setter: VerdictSetter?)
    requires Carried(lines, setter) && AllDifferent(fewer) && Objects(fewer) <= Objects(lines)
    ensures Carried(fewer, setter)
  {
    hide AllDifferent;
    forall q, i | 0 <= q < |fewer| && 0 <= i < |fewer[q]| ensures fewer[q][i].Pending() && fewer[q][i].answersTo == setter {
      assert fewer[q][i] in Objects(fewer);
    }
  }

  /** The packet's flow gets a queue if it has none; the packet goes there if there is room. */
  ghost predicate Enqueued(s: Setup, m: Manager, r: Manager, p: Packet, pushed: bool, queue: nat) {
    && KeyOf(p) in m.flows
    && var pinned := Pin(m, KeyOf(p));
    var q := pinned.flows[KeyOf(p)].flow.queueId;
    && 0 <= q == queue < |pinned.lines| && pushed == (|Queue(pinned, q)| < s.capacity)
    && r == if pushed then Push(pinned, p, q) else Drop(pinned, p)
  }

  // ---------- what observers hear ----------

  /** An observer was told of a flow. */
  datatype Notice = Notice(observer: nat, flow: Flow)

  function Notices(n: nat, f: Flow): seq<Notice> {
    seq(n, k requires k >= 0 => Notice(k, f))
  }

  /** Every flow object has its number, in the table and after; no two have the same. */
  ghost predicate NumbersFlows(numbers: map<Flow, nat>, flows: map<Key, Flow>, m: Manager) {
    && (forall h :: h in flows ==> h in m.flows && flows[h] in numbers && numbers[flows[h]] == m.flows[h].id)
    && (forall f :: f in numbers ==> numbers[f] < m.nextId)
    && (forall f, g :: f in numbers && g in numbers && f != g ==> numbers[f] != numbers[g])
  }

  /** What the observers were told is what the state machine reports. */
  ghost predicate Noticed(notices: seq<Notice>, numbers: map<Flow, nat>, reports: seq<Report>) {
    && |notices| == |reports|
    && forall i :: 0 <= i < |notices| ==>
                     notices[i].flow in numbers && reports[i] == Report(notices[i].observer, numbers[notices[i].flow])
  }

  lemma NoticesAreReports(notices: seq<Notice>, numbers: map<Flow, nat>, reports: seq<Report>, n: nat, f: Flow)
    requires Noticed(notices, numbers, reports) && f in numbers
    ensures Noticed(notices + Notices(n, f), numbers, reports + Reports(n, numbers[f]))
  {
  }

  lemma MoreNumbersNotice(notices: seq<Notice>, numbers: map<Flow, nat>, reports: seq<Report>, f: Flow, id: nat)
    requires Noticed(notices, numbers, reports) && f !in numbers
    ensures Noticed(notices, numbers[f := id], reports)
  {
  }

  lemma SameFlowsAreNumbered(numbers: map<Flow, nat>, flows: map<Key, Flow>, m: Manager, less: map<Key, Flow>, r: Manager)
    requires NumbersFlows(numbers, flows, m) && r.nextId == m.nextId
    requires forall h :: h in less ==> h in flows && less[h] == flows[h] && h in r.flows && h in m.flows && r.flows[h].id == m.flows[h].id
    ensures NumbersFlows(numbers, less, r)
  {
  }

  lemma NewFlowIsNumbered(numbers: map<Flow, nat>, flows: map<Key, Flow>, m: Manager, h: Key, f: Flow, r: Manager)
    requires NumbersFlows(numbers, flows, m) && f !in numbers && h !in flows
    requires h in r.flows && r.flows == m.flows[h := r.flows[h]] && r.flows[h].id == m.nextId && r.nextId == m.nextId + 1
    ensures NumbersFlows(numbers[f := m.nextId], flows[h := f], r)
  {
  }

  /** An observer was told of a flow object as often as the state machine reports its number. */
  lemma {:induction false} ToldAsReported(notices: seq<Notice>, numbers: map<Flow, nat>, reports: seq<Report>, k: nat, f: Flow)
    requires Noticed(notices, numbers, reports) && f in numbers
    requires forall g :: g in numbers && g != f ==> numbers[g] != numbers[f]
    ensures multiset(notices)[Notice(k, f)] == multiset(reports)[Report(k, numbers[f])]
  {
    if notices != [] {
      var n := |notices| - 1;
      ToldAsReported(notices[..n], numbers, reports[..n], k, f);
      assert notices == notices[..n] + [notices[n]] && reports == reports[..n] + [reports[n]];
    }
  }

  class FlowManager {
    const setup: Setup
    var flows: map<Key, Flow>
    var threadQueues: seq<seq<IPv4Packet>>
    var currentQueue: nat
    var shutdown: bool
    var finishing: bool
    // where the worker threads are, and how many flows were ever made
    var hands: seq<Hand>
    var made: nat
    // what the observers were told, in order
    var finishCalls: seq<Notice>
    var classifyCalls: seq<Notice>

    // whom the packets answer to
    ghost const answersTo: VerdictSetter?
    ghost var model: Manager
    ghost var parts: set<object>
    ghost var lines: seq<seq<IPv4Packet>>
    ghost var numbers: map<Flow, nat>

    /** The flow object under a key is what the state machine's table holds there. */
    ghost predicate Holds(h: Key)
      requires h in flows && Owned(flows, parts)
      reads this, parts
    {
      var f := flows[h];
      && h in model.flows && f.Valid() && f.env == setup.env && f.View() == model.flows[h].flow && TupleKey(f.tuple) == h
    }

    ghost predicate TableValid()
      reads this, parts
    {
      && this !in parts
      && WellFormed(setup, model)
      && flows.Keys == model.flows.Keys
      && Owned(flows, parts)
      && (forall h :: h in flows ==> Holds(h))
      && |threadQueues| == |model.lines| && currentQueue == model.currentQueue && shutdown == model.shutdown && made == model.nextId
      && NumbersFlows(numbers, flows, model)
      && Noticed(finishCalls, numbers, model.history.finishCalls)
      && Noticed(classifyCalls, numbers, model.history.classifyCalls)
    }

    /** A packet object is no part of the manager, nor is what it answers to. */
    ghost predicate Clear(packet: IPv4Packet)
      reads this
    {
      packet !in parts && (packet.answersTo != null ==> packet.answersTo !in parts)
    }

    ghost predicate Apart()
      reads this
    {
      parts !! Objects(lines) && (answersTo != null ==> answersTo !in parts)
    }

    ghost predicate Valid()
      reads this, parts, Objects(lines), answersTo
    {
      && TableValid() && Apart() && Carried(lines, answersTo) && Arranged(lines, hands, threadQueues, model.lines, model.stages)
      && finishing == model.closing && (answersTo != null ==> answersTo.Valid())
    }

    /** What a step does not touch stays as it was. */
    twostate lemma Untouched(h: Key)
      requires old(Owned(flows, parts)) && h in old(flows) && old(Holds(h))
      requires Owned(flows, parts) && h in flows && flows[h] == old(flows[h])
      requires h in model.flows && model.flows[h].flow == old(model.flows[h].flow)
      requires unchanged(flows[h]) && forall o :: o in flows[h].parts ==> unchanged(o)
      ensures Holds(h)
    {
      hide TupleKey, Env.Valid, Flow.Valid, Flow.View;
    }

    constructor (setup: Setup, ghost answersTo: VerdictSetter?)
      requires setup.env.Valid() && (answersTo != null ==> answersTo.Valid())
      ensures Valid() && parts == {} && Objects(lines) == {} && this.setup == setup && this.answersTo == answersTo && model == Start(setup)
    {
      this.setup := setup;
      flows := map[];
      threadQueues, hands, made := seq(setup.workers, _ => []), seq(setup.workers, _ => AtRest), 0;
      currentQueue, shutdown, finishing := 0, false, false;
      finishCalls, classifyCalls := [], [];
      model, parts, lines, numbers, this.answersTo := Start(setup), {}, seq(setup.workers, _ => []), map[], answersTo;
    }

    /** The queue whose turn it is. */
    method TakeTurn() returns (q: nat)
      requires currentQueue == model.currentQueue && |threadQueues| == |model.lines|
      modifies this`currentQueue
      ensures q == NextQueue(model) && currentQueue == q + 1
    {
      if currentQueue >= |threadQueues| {
        currentQueue := 0;
      }
      q := currentQueue;
      currentQueue := currentQueue + 1;
    }

    /** A new flow for a packet, pinned to the worker that asks or to the next queue in turn. */
    method MakeFlow(packet: Packet, caller: Caller) returns (f: Flow)
      requires TableValid() && (caller.Worker? ==> caller.index < setup.workers)
      modifies this`currentQueue, this`made
      ensures fresh(f) && fresh(f.parts) && f !in f.parts && f.Valid() && f.env == setup.env && f.tuple == packet.tuple
      ensures var m := Install(setup, model, packet, caller);
              f.View() == m.flows[KeyOf(packet)].flow && currentQueue == m.currentQueue && made == m.nextId
    {
      hide TupleKey, ValidMeters, Env.Valid, Flow.Valid, Flow.View, Holds, NumbersFlows, Noticed, Owned, TableValid;
      ModelAgrees();
      f := new Flow(setup.env, packet, setup.junk(made));
      made := made + 1;
      if setup.workers > 0 {
        if caller.Worker? {
          f.SetThreadQueueId(caller.index);
        } else {
          var q := TakeTurn();
          f.SetThreadQueueId(q);
        }
      }
    }

    /** It goes into the table. */
    method Insert(packet: Packet, caller: Caller) returns (f: Flow)
      requires TableValid() && KeyOf(packet) !in flows && (caller.Worker? ==> caller.index < setup.workers)
      modifies this`flows, this`model, this`parts, this`currentQueue, this`made, this`numbers
      ensures TableValid() && fresh(parts - old(parts)) && model == Install(setup, old(model), packet, caller)
      ensures KeyOf(packet) in flows && f == flows[KeyOf(packet)]
    {
      hide TupleKey, ValidMeters, Env.Valid, Flow.Valid, Flow.View, WellFormed, Install, Owned, Holds, NumbersFlows, Noticed, TableValid;
      ModelAgrees();
      f := MakeFlow(packet, caller);
      var h := KeyOf(packet);
      InstallEffect(setup, model, packet, caller);
      flows, parts, numbers := flows[h := f], parts + {f} + f.parts, numbers[f := model.nextId];
      model := Install(setup, model, packet, caller);
      NewFlowIsOwned(old(flows), old(parts), h, f);
      InsertedIsValid(h, f);
    }

    twostate lemma InsertedIsValid(h: Key, new f: Flow)
      requires old(TableValid()) && h !in old(flows) && flows == old(flows)[h := f]
      requires Owned(flows, parts) && this !in parts && WellFormed(setup, model)
      requires h in model.flows && model.flows == old(model.flows)[h := model.flows[h]]
      requires f.Valid() && f.env == setup.env && f.View() == model.flows[h].flow && TupleKey(f.tuple) == h
      requires |threadQueues| == |model.lines| && currentQueue == model.currentQueue && shutdown == model.shutdown && made == model.nextId
      requires f !in old(numbers) && numbers == old(numbers)[f := old(model).nextId]
      requires model.flows[h].id == old(model).nextId && model.nextId == old(model).nextId + 1
      requires model.history.finishCalls == old(model).history.finishCalls && model.history.classifyCalls == old(model).history.classifyCalls
      requires finishCalls == old(finishCalls) && classifyCalls == old(classifyCalls)
      requires forall o :: o in old(parts) ==> unchanged(o)
      ensures TableValid()
    {
      hide TupleKey, Flow.Valid, Flow.View, WellFormed, Owned, NumbersFlows, Noticed;
      NewFlowIsNumbered(old(numbers), old(flows), old(model), h, f, model);
      MoreNumbersNotice(finishCalls, old(numbers), model.history.finishCalls, f, old(model).nextId);
      MoreNumbersNotice(classifyCalls, old(numbers), model.history.classifyCalls, f, old(model).nextId);
      assert Holds(h);
      forall k | k in flows ensures Holds(k) {
        if k != h {
          OwnedParts(old(flows), old(parts), k);
          Untouched(k);
        }
      }
    }

    /** One flow was touched, and nothing else. */
    twostate lemma OthersHold(h: Key)
      requires old(Owned(flows, parts)) && (forall k :: k in old(flows) ==> old(Holds(k)))
      requires flows == old(flows) && parts == old(parts) && h in flows
      requires forall k :: k in flows && k != h ==> k in model.flows && k in old(model.flows) && model.flows[k].flow == old(model.flows[k].flow)
      requires forall o :: o in parts && o != flows[h] && o !in flows[h].parts ==> unchanged(o)
      ensures forall k :: k in flows && k != h ==> Holds(k)
    {
      hide TupleKey, Env.Valid, Flow.Valid, Flow.View;
      forall k | k in flows && k != h ensures Holds(k) {
        Untouched(k);
      }
    }

    lemma ModelAgrees()
      requires TableValid()
      ensures this !in parts && WellFormed(setup, model) && |threadQueues| == |model.lines| == setup.workers
      ensures currentQueue == model.currentQueue && shutdown == model.shutdown && made == model.nextId
      ensures flows.Keys == model.flows.Keys && Owned(flows, parts)
      ensures Noticed(finishCalls, numbers, model.history.finishCalls) && Noticed(classifyCalls, numbers, model.history.classifyCalls)
    {
      hide Holds, NumbersFlows, Noticed, Owned, ValidMeters, Env.Valid;
    }

    lemma HeldFlow(h: Key)
      requires TableValid() && h in flows
      ensures flows[h] in parts && flows[h].parts <= parts && flows[h] !in flows[h].parts
      ensures h in model.flows && flows[h].Valid() && flows[h].View() == model.flows[h].flow && flows[h].env == setup.env
      ensures TupleKey(flows[h].tuple) == h
    {
      hide TupleKey, WellFormed, Flow.Valid, Flow.View;
      assert Holds(h);
    }

    /** A step that touched one flow object, and the model of it, leaves everything valid. */
    twostate lemma StaysValid(h: Key)
      requires old(TableValid()) && h in flows
      requires flows == old(flows) && parts == old(parts)
      requires |threadQueues| == |model.lines| && currentQueue == model.currentQueue && shutdown == model.shutdown && made == model.nextId
      requires WellFormed(setup, model) && h in model.flows && model.flows == old(model.flows)[h := model.flows[h]]
      requires flows[h].Valid() && flows[h].View() == model.flows[h].flow
      requires numbers == old(numbers) && model.nextId == old(model).nextId && model.flows[h].id == old(model).flows[h].id
      requires Noticed(finishCalls, numbers, model.history.finishCalls) && Noticed(classifyCalls, numbers, model.history.classifyCalls)
      requires forall o :: o in parts && o != flows[h] && o !in flows[h].parts ==> unchanged(o)
      ensures TableValid()
    {
      hide TupleKey, Env.Valid, Flow.Valid, Flow.View, WellFormed, Owned, NumbersFlows, Noticed;
      SameFlowsAreNumbered(numbers, flows, old(model), flows, model);
      assert old(Holds(h));
      OthersHold(h);
      assert Holds(h);
    }

    /** The queue counter of a flow moves up or down. */
    method CountPacket(h: Key, up: bool)
      requires TableValid() && h in flows
      modifies this`model, flows[h]
      ensures TableValid() && model == Count(old(model), h, if up then 1 else -1)
    {
      hide TupleKey, ValidMeters, Env.Valid, Flow.Valid, Flow.MeterViews, Owned, WellFormed, Holds, NumbersFlows, Noticed, TableValid;
      ModelAgrees();
      var f := flows[h];
      HeldFlow(h);
      CountKeepsWellFormed(setup, model, h, if up then 1 else -1);
      if up {
        f.IncPktsInQueue();
      } else {
        f.DecPktsInQueue();
      }
      model := Count(model, h, if up then 1 else -1);
      StaysValid(h);
    }

    method CallFinishObservers(f: Flow)
      modifies this`finishCalls
      ensures finishCalls == old(finishCalls) + Notices(setup.finishObservers, f)
    {
      for k := 0 to setup.finishObservers
        invariant finishCalls == old(finishCalls) + Notices(k, f)
      {
        finishCalls := finishCalls + [Notice(k, f)];
      }
    }

    /** Classification observers hear of a flow. */
    method NotifyFlowClassified(f: Flow)
      modifies this`classifyCalls
      ensures classifyCalls == old(classifyCalls) + Notices(setup.classifyObservers, f)
    {
      for k := 0 to setup.classifyObservers
        invariant classifyCalls == old(classifyCalls) + Notices(k, f)
      {
        classifyCalls := classifyCalls + [Notice(k, f)];
      }
    }

    /** Finish observers hear of a flow with enough packets; either way it is marked. */
    method NotifyFlowFinished(h: Key)
      requires TableValid() && h in flows
      modifies this`model, this`finishCalls, flows[h]
      ensures TableValid() && model == NotifyFinished(setup, old(model), h)
    {
      hide TupleKey, Flow.Valid, Flow.View, Owned, WellFormed, Holds, NumbersFlows, Noticed, Notices, Reports, TableValid, NotifyFinished;
      ModelAgrees();
      var f := flows[h];
      HeldFlow(h);
      NumberOf(h);
      f.FieldsAreViewed();
      NotifiedFlow(setup, model, h);
      if f.state == FinishedNotified {
        return;
      }
      NoticesAreReports(finishCalls, numbers, model.history.finishCalls, setup.finishObservers, f);
      if f.tuple.transport == TCP {
        if !(f.pktCount == 0 || f.overallPktCount < 3) {
          CallFinishObservers(f);
        }
      } else {
        if !(f.pktCount == 0 || f.overallPktCount < 2) {
          CallFinishObservers(f);
        }
      }
      f.SetFinishedAndNotified();
      model := NotifyFinished(setup, model, h);
      StaysValid(h);
    }

    lemma NumberOf(h: Key)
      requires TableValid() && h in flows
      ensures h in model.flows && flows[h] in numbers && numbers[flows[h]] == model.flows[h].id
    {
      hide TupleKey, Env.Valid, Flow.Valid, Flow.View, WellFormed, Owned, Holds, Noticed;
    }

    /** A flow leaves the table; its object is left alone. */
    method Erase(h: Key)
      requires TableValid() && h in flows
      modifies this`flows, this`model
      ensures TableValid() && flows == old(flows) - {h} && model == Remove(old(model), h)
    {
      hide TupleKey, Flow.Valid, Flow.View, Owned, WellFormed, Holds, NumbersFlows, Noticed;
      RemoveKeepsWellFormed(setup, model, h);
      FewerAreOwned(flows, parts, h);
      flows := flows - {h};
      model := Remove(model, h);
      SameFlowsAreNumbered(numbers, old(flows), old(model), flows, model);
      forall k | k in flows ensures Holds(k) {
        Untouched(k);
      }
    }

    /** The flow of a packet: found, or new, or new in place of one that timed out. */
    method GetFlow(packet: Packet, caller: Caller) returns (f: Flow)
      requires TableValid() && (caller.Worker? ==> caller.index < setup.workers)
      modifies this`flows, this`model, this`parts, this`currentQueue, this`made, this`numbers, this`finishCalls, this`classifyCalls, parts
      ensures TableValid() && fresh(parts - old(parts)) && model == Pipeline.GetFlow(setup, old(model), packet, caller)
      ensures KeyOf(packet) in flows && f == flows[KeyOf(packet)]
    {
      hide TupleKey, Flow.Valid, Flow.MeterViews, Owned, WellFormed, Holds, NumbersFlows, Noticed, Install, NotifyFinished, ValidMeters, TableValid;
      ModelAgrees();
      var h := KeyOf(packet);
      if h !in flows {
        f := Insert(packet, caller);
        return;
      }
      f := flows[h];
      HeldFlow(h);
      FinishKeepsWellFormed(setup, model, h);
      var age := packet.seconds - f.lastSeconds;
      if packet.IsUdp() {
        if f.pktsInQueue <= 0 && age > setup.timeouts.udp {
          NotifyFlowFinished(h);
          Erase(h);
          f := Insert(packet, caller);
          return;
        }
      } else if packet.IsTcp() {
        if (if f.pktsInQueue <= 0 && age != 0 then 1 else 0) > setup.timeouts.tcp {
          NotifyFlowFinished(h);
          Erase(h);
          f := Insert(packet, caller);
          return;
        } else if (f.state == FinishedNotified || f.state == State.Finished) && f.pktsInQueue <= 0 && age > setup.timeouts.tcpCloseWait {
          NotifyFlowFinished(h);
          Erase(h);
          f := Insert(packet, caller);
          return;
        }
      }
    }

    /** A finished flow is taken out, unless packets of it are still to come. */
    method DeleteFlow(h: Key)
      requires TableValid() && h in flows
      modifies this`flows, this`model, flows[h]
      ensures TableValid() && model == Pipeline.DeleteFlow(old(model), h)
    {
      hide TupleKey, Flow.Valid, Flow.MeterViews, Owned, WellFormed, Holds, NumbersFlows, Noticed, ValidMeters, TableValid;
      ModelAgrees();
      var f := flows[h];
      HeldFlow(h);
      if f.pktsInQueue > 0 {
        StateKeepsWellFormed(setup, model, h);
        f.SetFinishedAndNotified();
        model := SetFlow(model, h, SetState(model.flows[h].flow, FinishedNotified));
        StaysValid(h);
        return;
      }
      Erase(TupleKey(f.tuple));
    }

    /** The flow gets the packet; if that classified it, the classification observers hear of it. */
    method PassOn(f: Flow, packet: IPv4Packet)
      requires f.Valid() && packet.Valid() && f.Clear(packet) && this !in f.parts
      modifies this`classifyCalls, f, f.parts, packet, packet.verdictSetter
      ensures packet.Valid() && packet.Gave(NF_ACCEPT)
      ensures f.Valid() && f.View() == FlowStep(f.env, old(f.View()), packet.data)
      ensures classifyCalls ==
                if f.flowClassified && !old(f.flowClassified) then old(classifyCalls) + Notices(setup.classifyObservers, f)
                else old(classifyCalls)
    {
      hide Flow.Valid, Flow.View, FlowStep, IPv4Packet.Valid, Notices;
      packet.AnswersToItsSetter();
      var classified := f.flowClassified;
      f.AddPacket(packet);
      if f.flowClassified != classified && f.flowClassified {
        NotifyFlowClassified(f);
      }
    }

    /** A packet for a flow: it gets its verdict, and the flow goes one step. */
    method Take(packet: IPv4Packet)
      requires TableValid() && KeyOf(packet.data) in flows && packet.Valid() && Clear(packet)
      modifies this`model, this`classifyCalls, flows[KeyOf(packet.data)], flows[KeyOf(packet.data)].parts, packet, packet.verdictSetter
      ensures TableValid() && model == Feed(setup, old(model), packet.data)
      ensures packet.Valid() && packet.Gave(NF_ACCEPT)
    {
      hide TupleKey, Flow.Valid, Flow.View, Owned, WellFormed, Holds, NumbersFlows, Noticed, FlowStep, IPv4Packet.Valid, TableValid, Feed, Notices, Reports;
      ModelAgrees();
      HeldFlow(KeyOf(packet.data));
      NumberOf(KeyOf(packet.data));
      FedFlow(setup, model, packet.data);
      ghost var f := flows[KeyOf(packet.data)];
      NoticesAreReports(classifyCalls, numbers, model.history.classifyCalls, setup.classifyObservers, f);
      packet.AnswersToItsSetter();
      f.FieldsAreViewed();
      PassOn(flows[KeyOf(packet.data)], packet);
      f.FieldsAreViewed();
      model := Feed(setup, model, packet.data);
      StaysValid(KeyOf(packet.data));
    }

    /** A flow that has finished is reported once and taken out. */
    method SettleIfFinished(h: Key)
      requires TableValid() && h in flows
      modifies this`flows, this`model, this`finishCalls, flows[h]
      ensures TableValid() && model == Retire(setup, old(model), h)
    {
      hide TupleKey, Flow.Valid, Flow.MeterViews, Owned, WellFormed, Holds, NumbersFlows, Noticed, ValidMeters, NotifyFinished, Pipeline.DeleteFlow, TableValid;
      ModelAgrees();
      var f := flows[h];
      HeldFlow(h);
      if f.state == State.Finished {
        NotifyFlowFinished(h);
        DeleteFlow(h);
      } else if f.state == FinishedNotified {
        DeleteFlow(h);
      }
    }

    /** The packet is processed by its flow, which accepts it. */
    method ProcessPacket(packet: IPv4Packet, caller: Caller)
      requires TableValid() && (caller.Worker? ==> caller.index < setup.workers) && packet.Valid() && Clear(packet)
      modifies this`flows, this`model, this`parts, this`currentQueue, this`made, this`numbers, this`finishCalls, this`classifyCalls, parts, packet, packet.verdictSetter
      ensures TableValid() && fresh(parts - old(parts)) && model == Pipeline.ProcessPacket(setup, old(model), packet.data, caller)
      ensures packet.Valid() && packet.Gave(NF_ACCEPT)
    {
      hide TupleKey, Flow.Valid, Flow.View, Owned, WellFormed, Holds, NumbersFlows, Noticed, Pipeline.GetFlow, Feed, Count, Retire, IPv4Packet.Valid, TableValid;
      ModelAgrees();
      var h := KeyOf(packet.data);
      packet.AnswersToItsSetter();
      var f := GetFlow(packet.data, caller);
      HeldFlow(h);
      CountPacket(h, false);
      Take(packet);
      SettleIfFinished(h);
    }

    /** Only the record, the queues, the hands or the flags changed. */
    twostate lemma StaysValidWithSameFlows()
      requires old(TableValid())
      requires flows == old(flows) && parts == old(parts) && model.flows == old(model.flows)
      requires WellFormed(setup, model)
      requires numbers == old(numbers) && finishCalls == old(finishCalls) && classifyCalls == old(classifyCalls)
      requires model.nextId == old(model).nextId
      requires model.history.finishCalls == old(model).history.finishCalls && model.history.classifyCalls == old(model).history.classifyCalls
      requires |threadQueues| == |model.lines| && currentQueue == model.currentQueue && shutdown == model.shutdown && made == model.nextId
      requires forall o :: o in parts ==> unchanged(o)
      ensures TableValid()
    {
      hide TupleKey, Env.Valid, Flow.Valid, Flow.View, WellFormed, Owned, NumbersFlows, Noticed;
      SameFlowsAreNumbered(numbers, flows, old(model), flows, model);
      forall k | k in flows ensures Holds(k) {
        OwnedParts(flows, parts, k);
        assert old(Holds(k));
        Untouched(k);
      }
    }

    /** A flow without a queue gets the one whose turn it is. */
    method PinFlow(h: Key)
      requires TableValid() && h in flows
      modifies this`model, this`currentQueue, flows[h]
      ensures TableValid() && model == Pin(old(model), h)
    {
      hide TupleKey, Flow.Valid, Flow.MeterViews, Owned, WellFormed, Holds, NumbersFlows, Noticed, ValidMeters, TableValid;
      ModelAgrees();
      var f := flows[h];
      HeldFlow(h);
      if f.threadQueueId == -1 {
        PinKeepsWellFormed(setup, model, h);
        var q := TakeTurn();
        f.SetThreadQueueId(q);
        model := Pin(model, h);
        StaysValid(h);
      }
    }

    // ---------- packets ----------

    /** A packet object that comes in: its verdict is up to this manager now. */
    ghost predicate Arrives(packet: IPv4Packet)
      reads this, packet, Objects(lines)
    {
      packet.Pending() && packet.answersTo == answersTo && packet !in parts && packet !in Objects(lines)
    }

    /** The packet goes to the queue of its flow, if there is room. */
    method TryPush(packet: IPv4Packet, q: nat) returns (pushed: bool)
      requires Valid() && KeyOf(packet.data) in flows && q < |threadQueues| && Arrives(packet)
      modifies this`model, this`threadQueues, this`lines
      ensures Valid() && q < |old(model).lines| && pushed == (|Queue(old(model), q)| < setup.capacity)
      ensures model == if pushed then Push(old(model), packet.data, q) else old(model)
      ensures Objects(lines) == old(Objects(lines)) + if pushed then {packet} else {}
    {
      hide TupleKey, Flow.Valid, Flow.View, Owned, WellFormed, Holds, NumbersFlows, Noticed, TableValid, Queue, Arranged, AllDifferent;
      ModelAgrees();
      QueuesAreArranged(q);
      pushed := |threadQueues[q]| < setup.capacity;
      if pushed {
        PushKeepsArranged(lines, hands, threadQueues, model.lines, model.stages, q, packet);
        PushKeepsDifferent(lines, q, packet);
        SameFlowsAreWellFormed(setup, model, Push(model, packet.data, q));
        threadQueues := threadQueues[q := threadQueues[q] + [packet]];
        lines := lines[q := lines[q] + [packet]];
        model := Push(model, packet.data, q);
        StaysValidWithSameFlows();
        assert forall o :: o in Objects(lines) ==> o in old(Objects(lines)) || o == packet;
      }
    }

    lemma QueuesAreArranged(q: nat)
      requires Valid() && q < |threadQueues|
      ensures |threadQueues| == |lines| == |hands| == |model.lines| && Queue(model, q) == DataOf(threadQueues[q])
    {
      hide TableValid, Carried;
      QueueIsArranged(lines, hands, threadQueues, model, q);
    }

    /** There was no room: the packet is uncounted and dropped. */
    method DropUnqueued(packet: IPv4Packet)
      requires Valid() && KeyOf(packet.data) in flows && Arrives(packet)
      modifies this`model, flows[KeyOf(packet.data)], packet, packet.verdictSetter
      ensures Valid() && packet.Valid() && packet.Gave(NF_DROP)
      ensures KeyOf(packet.data) in old(model).flows && model == Drop(old(model), packet.data)
    {
      hide TupleKey, Flow.Valid, Flow.View, Owned, Holds, NumbersFlows, Noticed, WellFormed, TableValid, Arranged, AllDifferent;
      HeldFlow(KeyOf(packet.data));
      ModelAgrees();
      CountPacket(KeyOf(packet.data), false);
      RecordDrop(packet.data);
      packet.DropPkt();
      packet.Destroy();
    }

    ghost method RecordDrop(p: Packet)
      requires TableValid()
      modifies this`model
      ensures TableValid() && model == old(model).(history := old(model).history.(dropped := old(model).history.dropped + [p]))
    {
      hide TupleKey, Flow.Valid, Flow.View, Owned, Holds, NumbersFlows, Noticed, WellFormed, TableValid;
      ModelAgrees();
      SameFlowsAreWellFormed(setup, model, model.(history := model.history.(dropped := model.history.dropped + [p])));
      model := model.(history := model.history.(dropped := model.history.dropped + [p]));
      StaysValidWithSameFlows();
    }

    /** The packet is queued for the worker of its flow, or, if that queue is full, uncounted and dropped. */
    method Enqueue(packet: IPv4Packet) returns (pushed: bool, queue: nat)
      requires Valid() && KeyOf(packet.data) in flows && setup.workers > 0 && Arrives(packet)
      modifies this`model, this`currentQueue, this`threadQueues, this`lines, flows[KeyOf(packet.data)], packet, packet.verdictSetter
      ensures Valid() && packet.Valid() && if pushed then packet.Silent() else packet.Gave(NF_DROP)
      ensures Objects(lines) == old(Objects(lines)) + if pushed then {packet} else {}
      ensures Enqueued(setup, old(model), model, packet.data, pushed, queue)
    {
      hide TupleKey, Flow.Valid, Flow.MeterViews, Owned, Holds, NumbersFlows, Noticed, WellFormed, ValidMeters, Env.Valid, TableValid, Queue, Arranged, AllDifferent, Drop, Push;
      var h := KeyOf(packet.data);
      HeldFlow(h);
      ModelAgrees();
      WellFormedFlows(setup, model, h);
      PinFlow(h);
      HeldFlow(h);
      ModelAgrees();
      queue := flows[h].threadQueueId;
      pushed := TryPush(packet, queue);
      if !pushed {
        DropUnqueued(packet);
      }
    }

    /** Without workers the reader processes the packet itself. */
    method ProcessHere(packet: IPv4Packet)
      requires Valid() && KeyOf(packet.data) in flows && Arrives(packet)
      modifies this`flows, this`model, this`parts, this`currentQueue, this`made, this`numbers, this`finishCalls, this`classifyCalls, parts, packet, packet.verdictSetter
      ensures Valid() && fresh(parts - old(parts)) && packet.Valid() && packet.Gave(NF_ACCEPT)
      ensures ProcessedHere(setup, old(model), model, packet.data)
    {
      hide TupleKey, Flow.Valid, Flow.View, Owned, WellFormed, Holds, NumbersFlows, Noticed, TableValid, Pipeline.ProcessPacket, Arranged, AllDifferent;
      ModelAgrees();
      SameFlowsAreWellFormed(setup, model, Pipeline.Take(model, packet.data));
      ProcessAccepts(setup, Pipeline.Take(model, packet.data), packet.data, Reader);
      model := Pipeline.Take(model, packet.data);
      StaysValidWithSameFlows();
      ProcessPacket(packet, Reader);
    }

    ghost method RecordSubmission(p: Packet)
      requires TableValid()
      modifies this`model
      ensures TableValid() && model == Submit(old(model), p)
    {
      hide TupleKey, Flow.Valid, Flow.View, Owned, Holds, NumbersFlows, Noticed, WellFormed, TableValid;
      ModelAgrees();
      SubmitKeepsWellFormed(setup, model, p);
      model := Submit(model, p);
      StaysValidWithSameFlows();
    }

    /** The packet is submitted, its flow is looked up and counts it. */
    method CountInFlow(packet: Packet)
      requires Valid()
      modifies this`flows, this`model, this`parts, this`currentQueue, this`made, this`numbers, this`finishCalls, this`classifyCalls, parts
      ensures Valid() && fresh(parts - old(parts)) && KeyOf(packet) in flows
      ensures CountedInFlow(setup, old(model), model, packet)
    {
      hide TupleKey, Flow.Valid, Flow.View, Owned, WellFormed, Holds, NumbersFlows, Noticed, TableValid, Pipeline.GetFlow, Arranged, AllDifferent;
      ModelAgrees();
      SubmitKeepsWellFormed(setup, model, packet);
      GetFlowTraffic(setup, Submit(model, packet), packet, Reader);
      RecordSubmission(packet);
      var f := GetFlow(packet, Reader);
      HeldFlow(KeyOf(packet));
      CountPacket(KeyOf(packet), true);
    }

    /** After a shutdown the packet is accepted unseen. */
    method AcceptUnseen(packet: IPv4Packet)
      requires Valid() && shutdown && Arrives(packet)
      modifies this`model, packet, packet.verdictSetter
      ensures Valid() && packet.Valid() && packet.Gave(NF_ACCEPT)
      ensures model == Accept(Submit(old(model), packet.data), packet.data)
    {
      hide TupleKey, Flow.Valid, Flow.View, Owned, WellFormed, Holds, NumbersFlows, Noticed, TableValid, Arranged, AllDifferent;
      ModelAgrees();
      SubmitKeepsWellFormed(setup, model, packet.data);
      packet.SetVerdict();
      packet.Destroy();
      label Told:
      model := Accept(Submit(model, packet.data), packet.data);
      StaysValidWithSameFlows@Told();
    }

    /** A packet for the manager: accepted unseen after a shutdown, processed here if there are no workers,
        else queued or dropped.  Whatever its fate, the packet has told its verdict, or keeps it for later. */
    method AddPacket(packet: IPv4Packet) returns (fate: Fate)
      requires Valid() && Arrives(packet)
      modifies this`flows, this`model, this`parts, this`currentQueue, this`made, this`threadQueues, this`lines, this`numbers
      modifies this`finishCalls, this`classifyCalls
      modifies parts, packet, packet.verdictSetter
      ensures Valid() && fresh(parts - old(parts)) && Added(setup, old(model), model, packet.data, fate)
      ensures packet.Valid()
      ensures match fate
              case Accepted => packet.Gave(NF_ACCEPT)
              case Dropped => packet.Gave(NF_DROP)
              case Queued(_) => packet.Silent()
      ensures Objects(lines) == old(Objects(lines)) + if fate.Queued? then {packet} else {}
    {
      hide TupleKey, Flow.Valid, Flow.View, Owned, WellFormed, Holds, NumbersFlows, Noticed, TableValid, Arranged, AllDifferent, IPv4Packet.Valid;
      hide Pipeline.GetFlow, Pipeline.ProcessPacket, ProcessedHere, CountedInFlow, Enqueued, Added, Carried;
      ModelAgrees();
      ghost var before := model;
      if shutdown {
        AcceptUnseen(packet);
        UnseenIsAdded(setup, before, model, packet.data);
        return Accepted;
      }
      CountInFlow(packet.data);
      ghost var counted := model;
      HeldFlow(KeyOf(packet.data));
      ModelAgrees();
      if setup.workers > 0 {
        var pushed, queue := Enqueue(packet);
        QueuedIsAdded(setup, before, counted, model, packet.data, pushed, queue);
        return if pushed then Queued(queue) else Dropped;
      }
      ProcessHere(packet);
      ProcessedIsAdded(setup, before, counted, model, packet.data);
      return Accepted;
    }

    // ---------- the worker threads ----------

    /** Another place of a worker in its loop. */
    twostate lemma StaysValidInPlace()
      requires old(Valid())
      requires flows == old(flows) && parts == old(parts) && lines == old(lines) && |threadQueues| == |old(threadQueues)|
      requires currentQueue == old(currentQueue) && shutdown == model.shutdown && made == old(made) && finishing == model.closing
      requires numbers == old(numbers) && finishCalls == old(finishCalls) && classifyCalls == old(classifyCalls)
      requires model == old(model).(stages := model.stages, shutdown := model.shutdown, closing := model.closing)
      requires Arranged(lines, hands, threadQueues, model.lines, model.stages)
      requires forall o :: o in parts || o in Objects(lines) || o == answersTo ==> unchanged(o)
      ensures Valid()
    {
      hide TupleKey, Flow.Valid, Flow.View, Owned, WellFormed, Holds, NumbersFlows, Noticed, Arranged, AllDifferent;
      SameFlowsAreWellFormed(setup, old(model), model);
      StaysValidWithSameFlows();
    }

    /** The test at the top of a worker's loop. */
    method Look(queueId: nat) returns (goesOn: bool)
      requires Valid() && queueId < |hands| && hands[queueId].AtRest?
      modifies this`hands, this`model
      ensures Valid() && goesOn == !shutdown && lines == old(lines)
      ensures queueId < |old(model).stages| && model == if goesOn then GetReady(old(model), queueId) else old(model)
    {
      hide TupleKey, Flow.Valid, Flow.View, Owned, WellFormed, Holds, NumbersFlows, Noticed, TableValid, AllDifferent;
      goesOn := !shutdown;
      if goesOn {
        ModelAgrees();
        hands := hands[queueId := SetOut];
        model := GetReady(model, queueId);
        StaysValidInPlace();
      }
    }

    /** The pop: of a packet, if there is one. */
    method Fetch(queueId: nat) returns (popped: bool)
      requires Valid() && queueId < |hands| && hands[queueId].SetOut?
      modifies this`hands, this`threadQueues, this`model
      ensures Valid() && lines == old(lines) && |hands| == |old(hands)| && popped == hands[queueId].Holds?
      ensures Fetched(old(model), model, queueId, popped)
    {
      hide TupleKey, Flow.Valid, Flow.View, Owned, WellFormed, Holds, NumbersFlows, Noticed, TableValid, AllDifferent;
      ModelAgrees();
      FetchKeepsArranged(lines, hands, threadQueues, model, queueId);
      popped := threadQueues[queueId] != [];
      if popped {
        hands := hands[queueId := Hand.Holds(threadQueues[queueId][0])];
        threadQueues := threadQueues[queueId := threadQueues[queueId][1..]];
      } else {
        hands := hands[queueId := AtRest];
      }
      model := Pop(model, queueId);
      StaysValidInPlace();
    }

    lemma LinesAreWorkers()
      requires Valid()
      ensures |threadQueues| == |lines| == |hands| == |model.lines| == |model.stages|
    {
      hide TableValid, Carried;
    }

    /** The packet leaves its worker's hands. */
    method LetGo(queueId: nat) returns (packet: IPv4Packet)
      requires Valid() && queueId < |hands| && hands[queueId].Holds?
      modifies this`hands, this`lines, this`model
      ensures Valid() && packet == old(hands[queueId].packet) && Arrives(packet) && packet in old(Objects(lines))
      ensures queueId < |old(lines)| && old(lines)[queueId] != [] && old(lines)[queueId][0] == packet
      ensures Objects(lines) == old(Objects(lines)) - {packet}
      ensures LetGoOf(old(model), model, queueId, packet.data)
    {
      hide TupleKey, Flow.Valid, Flow.View, Owned, WellFormed, Holds, NumbersFlows, Noticed, TableValid, Arranged, AllDifferent;
      ModelAgrees();
      LinesAreWorkers();
      UnloadKeepsArranged(lines, hands, threadQueues, model, queueId);
      packet := hands[queueId].packet;
      assert lines[queueId][0] == packet && packet in Objects(lines);
      PopKeepsDifferent(lines, queueId);
      SameFlowsAreWellFormed(setup, model, Unload(model, queueId));
      hands := hands[queueId := AtRest];
      lines := lines[queueId := lines[queueId][1..]];
      model := Unload(model, queueId);
      StaysValidWithSameFlows();
      CarriedFewer(old(lines), lines, answersTo);
    }

    /** The packet that a worker holds is processed, and accepted on whatever path. */
    method Serve(queueId: nat) returns (packet: IPv4Packet)
      requires Valid() && queueId < |hands| && hands[queueId].Holds?
      modifies this`flows, this`model, this`parts, this`currentQueue, this`made, this`hands, this`lines, this`numbers
      modifies this`finishCalls, this`classifyCalls
      modifies parts, hands[queueId].packet, answersTo
      ensures Valid() && fresh(parts - old(parts)) && ServedNow(setup, old(model), model, queueId, packet.data)
      ensures packet == old(hands[queueId].packet) && packet in old(Objects(lines)) && Objects(lines) == old(Objects(lines)) - {packet}
      ensures packet.Valid() && packet.Gave(NF_ACCEPT)
    {
      hide TupleKey, Flow.Valid, Flow.View, Owned, WellFormed, Holds, NumbersFlows, Noticed, TableValid, Arranged, AllDifferent, Pipeline.ProcessPacket, LetGoOf;
      ghost var before := model;
      packet := LetGo(queueId);
      ghost var unloaded := model;
      ModelAgrees();
      LetGoIsWorkable(setup, before, unloaded, queueId, packet.data);
      ProcessPacket(packet, Worker(queueId));
      LetGoAndProcessed(setup, before, unloaded, model, queueId, packet.data);
    }

    method Shutdown()
      requires Valid()
      modifies this`shutdown, this`model
      ensures Valid() && shutdown && model == old(model).(shutdown := true)
    {
      hide TupleKey, Flow.Valid, Flow.View, Owned, WellFormed, Holds, NumbersFlows, Noticed, TableValid, Arranged, AllDifferent;
      ModelAgrees();
      shutdown := true;
      model := model.(shutdown := true);
      StaysValidInPlace();
    }

    // ---------- the final call ----------

    /** The first loop of the final call, once round the queues: if all are empty, it takes the lock. */
    method Close() returns (closed: bool)
      requires Valid() && !finishing
      modifies this`finishing, this`model
      ensures Valid() && finishing == closed && closed == QueuesEmpty(old(model))
      ensures model == if closed then old(model).(closing := true) else old(model)
    {
      hide TupleKey, Flow.Valid, Flow.View, Owned, WellFormed, Holds, NumbersFlows, Noticed, TableValid, Arranged, AllDifferent;
      ModelAgrees();
      closed := true;
      for i := 0 to |threadQueues|
        invariant closed <==> forall q :: 0 <= q < i ==> threadQueues[q] == []
      {
        closed := closed && threadQueues[i] == [];
      }
      forall q | 0 <= q < |threadQueues| ensures Queue(model, q) == DataOf(threadQueues[q]) {
        QueuesAreArranged(q);
      }
      EmptyQueues(threadQueues, model);
      if closed {
        finishing := true;
        model := model.(closing := true);
        StaysValidInPlace();
      }
    }

    method FinishFlow(h: Key)
      requires TableValid() && h in flows
      modifies this`flows, this`model, this`finishCalls, flows[h]
      ensures TableValid() && flows == old(flows) - {h} && model == Finish(setup, old(model), h)
    {
      hide TupleKey, Flow.Valid, Flow.View, Owned, WellFormed, Holds, NumbersFlows, Noticed, NotifyFinished, Remove;
      NotifyFlowFinished(h);
      Erase(h);
    }

    /** A flow without packets is finished and erased; one with packets is waited for. */
    method FinishIfIdle(h: Key) returns (finished: bool)
      requires Valid() && h in flows
      modifies this`flows, this`model, this`finishCalls, flows[h]
      ensures Valid() && h in old(model).flows && finished == !HasPackets(old(model).flows[h].flow)
      ensures flows == (if finished then old(flows) - {h} else old(flows))
      ensures model == if finished then Finish(setup, old(model), h) else old(model)
      ensures model.closing == old(model).closing && flows.Keys == model.flows.Keys
    {
      hide TupleKey, Flow.Valid, Flow.View, Owned, Holds, NumbersFlows, Noticed, WellFormed, Finish, HasPackets, Arranged, AllDifferent, TableValid;
      HeldFlow(h);
      CountsPackets(h);
      FinishEffect(setup, model, h);
      finished := flows[h].pktsInQueue <= 0;
      if finished {
        FinishFlow(h);
      }
      ModelAgrees();
    }

    lemma CountsPackets(h: Key)
      requires Valid() && h in flows
      ensures h in model.flows && (flows[h].pktsInQueue > 0 <==> HasPackets(model.flows[h].flow))
    {
      hide TupleKey, Flow.Valid, Flow.MeterViews, Owned, Holds, NumbersFlows, Noticed, WellFormed, TableValid;
      HeldFlow(h);
    }

    /** The second loop: flows are finished and erased in the order the table yields them.  A flow that still
        counts packets is waited for, with the lock held; the call gets past it only if there is none. */
    method FinishFlows() returns (done: bool, ghost order: seq<Key>)
      requires Valid() && finishing
      modifies this`flows, this`model, this`finishing, this`finishCalls, parts
      ensures Valid() && finishing == !done
      ensures done <==> forall h :: h in old(model).flows ==> !HasPackets(old(model).flows[h].flow)
      ensures Distinct(old(model), order) && forall i :: 0 <= i < |order| ==> !HasPackets(old(model).flows[order[i]].flow)
      ensures var m := FinishAll(setup, old(model), order);
              if done then m.flows == map[] && model == m.(closing := false) else model == m
    {
      hide TupleKey, Flow.Valid, Flow.View, Owned, Holds, NumbersFlows, Noticed, WellFormed, Finish, HasPackets, Arranged, AllDifferent, TableValid;
      hide FinishAll, FinishedSoFar, Distinct;
      ghost var m := model;
      ModelAgrees();
      NothingFinishedYet(setup, m);
      order := [];
      while flows != map[]
        invariant Valid() && parts == old(parts) && lines == old(lines) && finishing && flows.Keys == model.flows.Keys
        invariant FinishedSoFar(setup, m, model, order, flows.Keys)
        decreases flows.Keys
      {
        var h :| h in flows;
        HeldFlow(h);
        ghost var left, before := flows.Keys, model;
        var finished := FinishIfIdle(h);
        if !finished {
          FinishingEnds(setup, m, model, order, left);
          return false, order;
        }
        OneMoreFinished(setup, m, before, order, left, h);
        order := order + [h];
      }
      FinishingEnds(setup, m, model, order, flows.Keys);
      done := true;
      LetGoOfTable();
    }

    method LetGoOfTable()
      requires Valid()
      modifies this`finishing, this`model
      ensures Valid() && !finishing && model == old(model).(closing := false)
    {
      hide TupleKey, Flow.Valid, Flow.View, Owned, WellFormed, Holds, NumbersFlows, Noticed, TableValid, Arranged, AllDifferent;
      ModelAgrees();
      finishing := false;
      model := model.(closing := false);
      StaysValidInPlace();
    }
  }
}
