/**
  What every interleaving of the flow manager's steps keeps: each entry sits under
  its own key, its packet count is the number of packets queued for it, those
  packets are all in the queue the flow is pinned to, and at the end of a step no
  flow in the table is finished, unless packets of it are still to come.  A packet
  that its worker has popped and not yet processed counts as queued throughout.
*/
module PipelineInvariant {
  import opened Packets
  import opened FlowKey
  import opened FlowControl
  import opened FlowModel
  import opened Pipeline

  /** The packets under one key, in order. */
  function OfKey(ps: seq<Packet>, h: Key): seq<Packet> {
    if ps == [] then [] else (if KeyOf(ps[0]) == h then [ps[0]] else []) + OfKey(ps[1..], h)
  }

  /** The packets queued under a key, as far as its flow's worker will see them. */
  function Waiting(m: Manager, h: Key): seq<Packet> {
    if h in m.flows && 0 <= m.flows[h].flow.queueId < |m.lines| then OfKey(m.lines[m.flows[h].flow.queueId], h) else []
  }

  /** An entry is in its place.  `hand` is the packet that a step is holding, if any. */
  ghost predicate Placed(s: Setup, m: Manager, hand: seq<Packet>, h: Key)
    requires h in m.flows
  {
    var Entry(id, f) := m.flows[h];
    && TupleKey(f.control.tuple) == h
    && id < m.nextId
    && (s.workers > 0 ==> f.queueId >= 0)
    && f.pktsInQueue == |OfKey(hand, h)| + |Waiting(m, h)|
    && f.control.state != Finishing
  }

  /** Every queued packet has its flow in the table, pinned to that very queue. */
  ghost predicate Routed(m: Manager, hand: seq<Packet>) {
    && (forall q, i :: 0 <= q < |m.lines| && 0 <= i < |m.lines[q]| ==>
                         KeyOf(m.lines[q][i]) in m.flows && m.flows[KeyOf(m.lines[q][i])].flow.queueId == q)
    && (forall i :: 0 <= i < |hand| ==> KeyOf(hand[i]) in m.flows)
  }

  ghost predicate UniqueIds(m: Manager) {
    forall h, k :: h in m.flows && k in m.flows && h != k ==> m.flows[h].id != m.flows[k].id
  }

  ghost predicate Base(s: Setup, m: Manager, hand: seq<Packet>) {
    && WellFormed(s, m) && Routed(m, hand) && UniqueIds(m)
    && (forall h :: h in m.flows ==> Placed(s, m, hand, h))
  }

  /** Between steps a finished flow only stays for the sake of its queued packets. */
  predicate Calm(f: FlowData) {
    f.control.state != Finished && (f.control.state == FinishedNotified ==> f.pktsInQueue > 0)
  }

  ghost predicate Inv(s: Setup, m: Manager, hand: seq<Packet>) {
    Base(s, m, hand) && forall h :: h in m.flows ==> Calm(m.flows[h].flow)
  }

  /** The workers are where they were, and neither a shutdown nor the final call has come about. */
  predicate SameFlags(m: Manager, r: Manager) {
    r.stages == m.stages && r.shutdown == m.shutdown && r.closing == m.closing
  }

  // ---------- filtering by key ----------

  lemma {:induction false} OfKeyAppends(ps: seq<Packet>, p: Packet, h: Key)
    ensures OfKey(ps + [p], h) == OfKey(ps, h) + if KeyOf(p) == h then [p] else []
  {
    hide KeyOf;
    if ps == [] {
      assert [p][1..] == [];
    } else {
      assert (ps + [p])[1..] == ps[1..] + [p];
      OfKeyAppends(ps[1..], p, h);
    }
  }

  lemma {:induction false} NothingOfKey(ps: seq<Packet>, h: Key)
    requires forall i :: 0 <= i < |ps| ==> KeyOf(ps[i]) != h
    ensures OfKey(ps, h) == []
  {
    hide KeyOf;
    if ps != [] {
      NothingOfKey(ps[1..], h);
    }
  }

  lemma {:induction false} SomethingOfKey(ps: seq<Packet>, i: nat)
    requires i < |ps|
    ensures OfKey(ps, KeyOf(ps[i])) != []
  {
    hide KeyOf;
    if i > 0 {
      SomethingOfKey(ps[1..], i - 1);
    }
  }

  lemma OfOne(p: Packet, h: Key)
    ensures OfKey([p], h) == if KeyOf(p) == h then [p] else []
  {
    hide KeyOf;
    assert [p][1..] == [];
  }

  // ---------- entries coming, changing and going ----------

  /** No packet is queued under a key that has no flow, or whose flow counts none. */
  lemma NothingQueuedUnder(s: Setup, m: Manager, h: Key)
    requires Base(s, m, []) && (h in m.flows ==> m.flows[h].flow.pktsInQueue <= 0)
    ensures forall q, i :: 0 <= q < |m.lines| && 0 <= i < |m.lines[q]| ==> KeyOf(m.lines[q][i]) != h
    ensures Waiting(m, h) == []
  {
    hide KeyOf, TupleKey, WellFormed, UniqueIds;
    if h in m.flows {
      assert Placed(s, m, [], h);
    }
    forall q, i | 0 <= q < |m.lines| && 0 <= i < |m.lines[q]| ensures KeyOf(m.lines[q][i]) != h {
      if KeyOf(m.lines[q][i]) == h {
        SomethingOfKey(m.lines[q], i);
      }
    }
  }

  lemma InstallEffect(s: Setup, m: Manager, p: Packet, caller: Caller)
    requires WellFormed(s, m) && (caller.Worker? ==> caller.index < s.workers)
    ensures var r, h := Install(s, m, p, caller), KeyOf(p);
            && WellFormed(s, r)
            && h in r.flows && r.flows == m.flows[h := r.flows[h]]
            && r.lines == m.lines && SameFlags(m, r) && r.nextId == m.nextId + 1
            && r.history == m.history.(origin := m.history.origin[m.nextId := p])
            && r.flows[h].id == m.nextId
            && r.flows[h].flow.pktsInQueue == 0
            && r.flows[h].flow.control == Fresh(p)
            && !r.flows[h].flow.verdict.classified
            && (s.workers > 0 ==> r.flows[h].flow.queueId >= 0)
            && (caller.Worker? ==> r.flows[h].flow.queueId == caller.index)
  {
    hide TupleKey, WellFormed, FreshMeters;
  }

  lemma InstallKeepsBase(s: Setup, m: Manager, p: Packet, caller: Caller)
    requires Base(s, m, []) && KeyOf(p) !in m.flows && (caller.Worker? ==> caller.index < s.workers)
    ensures Base(s, Install(s, m, p, caller), [])
  {
    hide TupleKey, WellFormed, Install, UniqueIds, Routed, OfKey;
    var h, r := KeyOf(p), Install(s, m, p, caller);
    InstallEffect(s, m, p, caller);
    NothingQueuedUnder(s, m, h);
    assert forall k :: k in m.flows ==> Placed(s, m, [], k);
    NewEntryIsUnique(m, r, h);
    forall k | k in r.flows ensures Placed(s, r, [], k) {
      NewEntryIsPlaced(s, m, r, h, k);
    }
  }

  lemma InstallKeepsInv(s: Setup, m: Manager, p: Packet, caller: Caller)
    requires Inv(s, m, []) && KeyOf(p) !in m.flows && (caller.Worker? ==> caller.index < s.workers)
    ensures Inv(s, Install(s, m, p, caller), [])
  {
    hide TupleKey, WellFormed, Install, UniqueIds, Routed, Placed;
    InstallEffect(s, m, p, caller);
    InstallKeepsBase(s, m, p, caller);
  }

  lemma NewEntryIsUnique(m: Manager, r: Manager, h: Key)
    requires UniqueIds(m) && h !in m.flows && h in r.flows && r.flows == m.flows[h := r.flows[h]]
    requires r.flows[h].id == m.nextId && forall k :: k in m.flows ==> m.flows[k].id < m.nextId
    requires Routed(m, []) && r.lines == m.lines
    ensures UniqueIds(r) && Routed(r, [])
  {
    hide KeyOf;
  }

  lemma NewEntryIsPlaced(s: Setup, m: Manager, r: Manager, h: Key, k: Key)
    requires h in r.flows && r.flows == m.flows[h := r.flows[h]] && r.lines == m.lines && r.nextId == m.nextId + 1
    requires k != h && k in m.flows ==> Placed(s, m, [], k)
    requires var Entry(id, f) := r.flows[h];
             TupleKey(f.control.tuple) == h && id == m.nextId && (s.workers > 0 ==> f.queueId >= 0) && f.pktsInQueue == 0 && f.control.state == New
    requires forall q, i :: 0 <= q < |m.lines| && 0 <= i < |m.lines[q]| ==> KeyOf(m.lines[q][i]) != h
    requires k in r.flows
    ensures Placed(s, r, [], k)
  {
    hide KeyOf, TupleKey;
    var q := r.flows[h].flow.queueId;
    if k == h && 0 <= q < |m.lines| {
      NothingOfKey(m.lines[q], h);
    }
  }

  /** A flow without queued packets can be finished and taken out. */
  lemma FinishKeepsBase(s: Setup, m: Manager, h: Key)
    requires Base(s, m, []) && h in m.flows && m.flows[h].flow.pktsInQueue <= 0
    ensures Base(s, Finish(s, m, h), [])
  {
    hide KeyOf, TupleKey, Routed, WellFormed, UniqueIds, Finish, OfKey;
    var r := Finish(s, m, h);
    FinishEffect(s, m, h);
    FinishKeepsWellFormed(s, m, h);
    NothingQueuedUnder(s, m, h);
    RemovedFlowIsNotRouted(m, r, h);
    FewerIdsAreUnique(m, r, h);
    forall k | k in r.flows ensures Placed(s, r, [], k) {
      assert Placed(s, m, [], k);
    }
  }

  lemma FinishKeepsInv(s: Setup, m: Manager, h: Key)
    requires Inv(s, m, []) && h in m.flows && m.flows[h].flow.pktsInQueue <= 0
    ensures Inv(s, Finish(s, m, h), [])
  {
    hide Routed, WellFormed, UniqueIds, Placed, Finish;
    FinishEffect(s, m, h);
    FinishKeepsBase(s, m, h);
  }

  lemma FewerIdsAreUnique(m: Manager, r: Manager, h: Key)
    requires UniqueIds(m) && r.flows == m.flows - {h}
    ensures UniqueIds(r)
  {
  }

  lemma FinishEffect(s: Setup, m: Manager, h: Key)
    requires h in m.flows
    ensures var r := Finish(s, m, h);
            && r.flows == m.flows - {h} && r.lines == m.lines && r.nextId == m.nextId
            && SameFlags(m, r) && r.currentQueue == m.currentQueue
  {
    hide WorthReporting, Reports;
  }

  lemma RemovedFlowIsNotRouted(m: Manager, r: Manager, h: Key)
    requires Routed(m, []) && r.flows == m.flows - {h} && r.lines == m.lines
    requires forall q, i :: 0 <= q < |m.lines| && 0 <= i < |m.lines[q]| ==> KeyOf(m.lines[q][i]) != h
    ensures Routed(r, [])
  {
    hide KeyOf;
  }

  lemma GetFlowKeepsBase(s: Setup, m: Manager, p: Packet)
    requires Base(s, m, [])
    ensures Base(s, GetFlow(s, m, p, Reader), [])
  {
    hide TupleKey, WellFormed, Install, Placed, Routed, UniqueIds, Finish;
    var h := KeyOf(p);
    if h !in m.flows {
      InstallKeepsBase(s, m, p, Reader);
    } else if Expired(s.timeouts, m.flows[h].flow, p) {
      FinishKeepsBase(s, m, h);
      FinishEffect(s, m, h);
      InstallKeepsBase(s, Finish(s, m, h), p, Reader);
    }
  }

  lemma GetFlowKeepsInv(s: Setup, m: Manager, p: Packet)
    requires Inv(s, m, [])
    ensures Inv(s, GetFlow(s, m, p, Reader), [])
  {
    hide TupleKey, WellFormed, Install, Placed, Routed, UniqueIds, Calm;
    var h := KeyOf(p);
    if h !in m.flows {
      InstallKeepsInv(s, m, p, Reader);
    } else if Expired(s.timeouts, m.flows[h].flow, p) {
      FinishKeepsInv(s, m, h);
      InstallKeepsInv(s, Finish(s, m, h), p, Reader);
    }
  }

  /** Replacing a flow's data, with its count brought up to date, keeps every entry in place. */
  lemma SetFlowKeepsBase(s: Setup, m: Manager, hand: seq<Packet>, hand': seq<Packet>, h: Key, f: FlowData)
    requires Base(s, m, hand) && h in m.flows
    requires f.control.tuple == m.flows[h].flow.control.tuple && f.queueId == m.flows[h].flow.queueId
    requires ValidFlow(s.env, f) && f.control.state != Finishing
    requires f.pktsInQueue == |OfKey(hand', h)| + |Waiting(m, h)|
    requires forall k :: k != h ==> OfKey(hand', k) == OfKey(hand, k)
    requires forall i :: 0 <= i < |hand'| ==> KeyOf(hand'[i]) in m.flows
    ensures Base(s, SetFlow(m, h, f), hand')
  {
    hide KeyOf, TupleKey, WellFormed, UniqueIds, Routed, OfKey;
    SetFlowKeepsShape(s, m, hand, hand', h, f);
    var r := SetFlow(m, h, f);
    forall k | k in r.flows ensures Placed(s, r, hand', k) {
      assert Placed(s, m, hand, k);
      assert Waiting(r, k) == Waiting(m, k);
    }
  }

  lemma SetFlowKeepsShape(s: Setup, m: Manager, hand: seq<Packet>, hand': seq<Packet>, h: Key, f: FlowData)
    requires WellFormed(s, m) && Routed(m, hand) && UniqueIds(m) && h in m.flows
    requires f.queueId == m.flows[h].flow.queueId && ValidFlow(s.env, f)
    requires forall i :: 0 <= i < |hand'| ==> KeyOf(hand'[i]) in m.flows
    ensures var r := SetFlow(m, h, f);
            WellFormed(s, r) && Routed(r, hand') && UniqueIds(r)
  {
    hide KeyOf, ValidMeters, Env.Valid;
  }

  // ---------- the steps ----------

  lemma CountKeepsBase(s: Setup, m: Manager, p: Packet)
    requires Base(s, m, []) && KeyOf(p) in m.flows
    ensures Base(s, Count(m, KeyOf(p), 1), [p])
  {
    hide TupleKey, WellFormed, UniqueIds, Routed, OfKey;
    var h := KeyOf(p);
    NothingOfKeyAtAll();
    assert Placed(s, m, [], h);
    forall k ensures OfKey([p], k) == if k == h then [p] else [] {
      OfOne(p, k);
    }
    assert ValidFlow(s.env, m.flows[h].flow) by { WellFormedFlows(s, m, h); }
    SetFlowKeepsBase(s, m, [], [p], h, m.flows[h].flow.(pktsInQueue := m.flows[h].flow.pktsInQueue + 1));
  }

  lemma CountKeepsInv(s: Setup, m: Manager, p: Packet)
    requires Inv(s, m, []) && KeyOf(p) in m.flows
    ensures Inv(s, Count(m, KeyOf(p), 1), [p])
  {
    hide TupleKey, WellFormed, UniqueIds, Routed, Placed;
    CountKeepsBase(s, m, p);
  }

  lemma BaseIsWellFormed(s: Setup, m: Manager, hand: seq<Packet>)
    requires Base(s, m, hand)
    ensures WellFormed(s, m)
  {
    hide WellFormed, Placed, Routed, UniqueIds;
  }

  lemma InvIsBase(s: Setup, m: Manager)
    requires Inv(s, m, [])
    ensures Base(s, m, [])
  {
    hide Base;
  }

  lemma NothingOfKeyAtAll()
    ensures forall k :: OfKey([], k) == []
  {
  }

  lemma WellFormedFlows(s: Setup, m: Manager, h: Key)
    requires WellFormed(s, m) && h in m.flows
    ensures s.env.Valid() && ValidFlow(s.env, m.flows[h].flow)
    ensures |m.lines| == s.workers
    ensures s.workers > 0 ==> -1 <= m.flows[h].flow.queueId < s.workers
  {
    hide ValidMeters, Env.Valid;
  }

  lemma PushKeepsBase(s: Setup, m: Manager, p: Packet, q: nat)
    requires Base(s, m, [p]) && KeyOf(p) in m.flows && q == m.flows[KeyOf(p)].flow.queueId < |m.lines|
    ensures Base(s, Push(m, p, q), [])
  {
    hide TupleKey, ValidMeters, Env.Valid, UniqueIds, OfKey, Routed;
    var h, r := KeyOf(p), Push(m, p, q);
    PushKeepsRouted(m, p, q);
    NothingOfKeyAtAll();
    assert r.flows == m.flows;
    assert UniqueIds(r) by { SameIds(m, r); }
    forall k | k in r.flows ensures Placed(s, r, [], k) {
      assert Placed(s, m, [p], k);
      OfOne(p, k);
      OfKeyAppends(m.lines[q], p, k);
    }
  }

  lemma PushKeepsInv(s: Setup, m: Manager, p: Packet, q: nat)
    requires Inv(s, m, [p]) && KeyOf(p) in m.flows && q == m.flows[KeyOf(p)].flow.queueId < |m.lines|
    ensures Inv(s, Push(m, p, q), [])
  {
    hide TupleKey, WellFormed, UniqueIds, Routed, Placed, Calm;
    PushKeepsBase(s, m, p, q);
  }

  lemma SameIds(m: Manager, r: Manager)
    requires UniqueIds(m) && r.flows == m.flows
    ensures UniqueIds(r)
  {
  }

  lemma PushKeepsRouted(m: Manager, p: Packet, q: nat)
    requires Routed(m, [p]) && KeyOf(p) in m.flows && q == m.flows[KeyOf(p)].flow.queueId < |m.lines|
    ensures Routed(Push(m, p, q), [])
  {
    hide KeyOf;
  }

  lemma UnloadKeepsBase(s: Setup, m: Manager, q: nat)
    requires Base(s, m, []) && q < |m.lines| && m.lines[q] != []
    ensures Base(s, Unload(m, q), [m.lines[q][0]])
  {
    hide TupleKey, ValidMeters, Env.Valid, UniqueIds, Routed;
    var p, r := m.lines[q][0], Unload(m, q);
    UnloadKeepsRouted(m, q);
    assert r.flows == m.flows;
    assert UniqueIds(r) by { SameIds(m, r); }
    forall k | k in r.flows ensures Placed(s, r, [p], k) {
      assert Placed(s, m, [], k);
      OfOne(p, k);
      assert OfKey(m.lines[q], k) == (if KeyOf(p) == k then [p] else []) + OfKey(m.lines[q][1..], k);
    }
  }

  lemma UnloadKeepsInv(s: Setup, m: Manager, q: nat)
    requires Inv(s, m, []) && q < |m.lines| && m.lines[q] != []
    ensures Inv(s, Unload(m, q), [m.lines[q][0]])
  {
    hide WellFormed, UniqueIds, Routed, Placed, Calm;
    UnloadKeepsBase(s, m, q);
  }

  lemma UnloadKeepsRouted(m: Manager, q: nat)
    requires Routed(m, []) && q < |m.lines| && m.lines[q] != []
    ensures Routed(Unload(m, q), [m.lines[q][0]])
    ensures KeyOf(m.lines[q][0]) in m.flows && m.flows[KeyOf(m.lines[q][0])].flow.queueId == q
  {
    hide KeyOf;
  }

  /** A worker that looks up the flow of a packet it holds finds the flow that counted the packet:
      nothing is created and nothing replaced. */
  lemma WorkerFindsCountedFlow(s: Setup, m: Manager, p: Packet, caller: Caller)
    requires Base(s, m, [p]) && (caller.Worker? ==> caller.index < s.workers)
    ensures KeyOf(p) in m.flows && m.flows[KeyOf(p)].flow.pktsInQueue > 0
    ensures GetFlow(s, m, p, caller) == m
  {
    hide TupleKey, WellFormed, UniqueIds, OfKey;
    var h := KeyOf(p);
    assert [p][0] == p && h in m.flows;
    assert Placed(s, m, [p], h);
    OfOne(p, h);
  }

  lemma RetireEffect(s: Setup, m: Manager, h: Key)
    requires h in m.flows
    ensures var r, Entry(id, f) := Retire(s, m, h), m.flows[h];
            && r.lines == m.lines && r.nextId == m.nextId && SameFlags(m, r) && r.currentQueue == m.currentQueue
            && r.flows == (if f.control.state !in {Finished, FinishedNotified} then m.flows
                           else if HasPackets(f) then m.flows[h := Entry(id, SetState(f, FinishedNotified))]
                           else m.flows - {h})
  {
    hide WorthReporting, Reports;
  }

  lemma RetireKeepsBase(s: Setup, m: Manager, h: Key)
    requires Base(s, m, []) && h in m.flows
    ensures Base(s, Retire(s, m, h), [])
  {
    hide TupleKey, WellFormed, UniqueIds, Routed, OfKey, Placed, Retire;
    var r, f := Retire(s, m, h), m.flows[h].flow;
    RetireEffect(s, m, h);
    if f.control.state !in {Finished, FinishedNotified} {
      SameTable(s, m, r, []);
    } else if HasPackets(f) {
      StateChangeKeepsBase(s, m, h, FinishedNotified);
      SameTable(s, SetFlow(m, h, SetState(f, FinishedNotified)), r, []);
    } else {
      RemovalKeepsBase(s, m, r, h);
    }
  }

  lemma RetireKeepsInv(s: Setup, m: Manager, h: Key)
    requires Base(s, m, []) && h in m.flows
    requires forall k :: k in m.flows && k != h ==> Calm(m.flows[k].flow)
    ensures Inv(s, Retire(s, m, h), [])
  {
    hide WellFormed, UniqueIds, Routed, Placed, Retire;
    RetireEffect(s, m, h);
    RetireKeepsBase(s, m, h);
  }

  /** What holds of the table holds whatever the history. */
  lemma SameTable(s: Setup, m: Manager, r: Manager, hand: seq<Packet>)
    requires Base(s, m, hand) && r.flows == m.flows && r.lines == m.lines && r.nextId == m.nextId
    ensures Base(s, r, hand)
  {
    hide TupleKey, ValidMeters, Env.Valid, OfKey;
    forall k | k in r.flows ensures Placed(s, r, hand, k) {
      assert Placed(s, m, hand, k);
    }
  }

  lemma StateChangeKeepsBase(s: Setup, m: Manager, h: Key, state: State)
    requires Base(s, m, []) && h in m.flows && state != Finishing
    ensures Base(s, SetFlow(m, h, SetState(m.flows[h].flow, state)), [])
  {
    hide TupleKey, WellFormed, UniqueIds, Routed, OfKey;
    assert Placed(s, m, [], h);
    NothingOfKeyAtAll();
    WellFormedFlows(s, m, h);
    SetFlowKeepsBase(s, m, [], [], h, SetState(m.flows[h].flow, state));
  }

  lemma RemovalKeepsBase(s: Setup, m: Manager, r: Manager, h: Key)
    requires Base(s, m, []) && h in m.flows && !HasPackets(m.flows[h].flow)
    requires r.flows == m.flows - {h} && r.lines == m.lines && r.nextId == m.nextId
    ensures Base(s, r, [])
  {
    hide KeyOf, TupleKey, Routed;
    NothingQueuedUnder(s, m, h);
    RemovedFlowIsNotRouted(m, r, h);
    forall k | k in r.flows ensures Placed(s, r, [], k) {
      assert Placed(s, m, [], k);
    }
  }

  lemma FeedEffect(s: Setup, m: Manager, p: Packet)
    requires WellFormed(s, m) && KeyOf(p) in m.flows
    ensures var h := KeyOf(p);
            var f, r := FlowStep(s.env, m.flows[h].flow, p), Feed(s, m, p);
            && r.flows == SetFlow(m, h, f).flows && r.lines == m.lines && r.nextId == m.nextId
            && SameFlags(m, r) && r.currentQueue == m.currentQueue
  {
    hide TupleKey, WellFormed, FlowStep, Reports;
  }

  lemma FeedKeepsBase(s: Setup, m: Manager, p: Packet)
    requires Base(s, m, []) && KeyOf(p) in m.flows
    ensures Base(s, Feed(s, m, p), [])
    ensures forall k :: k in m.flows && k != KeyOf(p) ==> k in Feed(s, m, p).flows && Feed(s, m, p).flows[k] == m.flows[k]
    ensures Feed(s, m, p).flows.Keys == m.flows.Keys
  {
    hide TupleKey, WellFormed, UniqueIds, Routed, OfKey, FlowStep, FlowControl.Step, Feed;
    var h := KeyOf(p);
    var before := m.flows[h].flow;
    assert Placed(s, m, [], h);
    WellFormedFlows(s, m, h);
    var after := FlowStep(s.env, before, p);
    FlowStepKeepsPlace(s.env, before, p);
    StatesOnlyAdvance(before.control, p);
    StepFollowsArrival(before.control, p);
    NothingOfKeyAtAll();
    SetFlowKeepsBase(s, m, [], [], h, after);
    FeedEffect(s, m, p);
    SameTable(s, SetFlow(m, h, after), Feed(s, m, p), []);
  }

  /** Letting go of the packet in hand: its flow's count drops by one. */
  lemma UncountKeepsBase(s: Setup, m: Manager, p: Packet)
    requires Base(s, m, [p]) && KeyOf(p) in m.flows
    ensures Base(s, Count(m, KeyOf(p), -1), [])
  {
    hide TupleKey, WellFormed, UniqueIds, Routed, OfKey;
    var h := KeyOf(p);
    assert Placed(s, m, [p], h);
    forall k ensures OfKey([p], k) == if k == h then [p] else [] {
      OfOne(p, k);
    }
    NothingOfKeyAtAll();
    WellFormedFlows(s, m, h);
    SetFlowKeepsBase(s, m, [p], [], h, m.flows[h].flow.(pktsInQueue := m.flows[h].flow.pktsInQueue - 1));
  }

  lemma ProcessKeepsInv(s: Setup, m: Manager, p: Packet, caller: Caller)
    requires Inv(s, m, [p]) && (caller.Worker? ==> caller.index < s.workers)
    ensures Inv(s, ProcessPacket(s, m, p, caller), [])
  {
    hide TupleKey, WellFormed, UniqueIds, Routed, Placed, GetFlow, Feed, Retire;
    WorkerFindsCountedFlow(s, m, p, caller);
    var m1 := Count(m, KeyOf(p), -1);
    UncountKeepsBase(s, m, p);
    FeedKeepsBase(s, m1, p);
    RetireKeepsInv(s, Feed(s, m1, p), KeyOf(p));
  }

  lemma DropUndoesCount(m: Manager, p: Packet)
    requires KeyOf(p) in m.flows
    ensures var r := Drop(Count(m, KeyOf(p), 1), p);
            r.flows == m.flows && r.lines == m.lines && r.nextId == m.nextId
  {
    hide TupleKey;
  }

  /** The reader's step, in the parts that matter for the table. */
  lemma AddPacketParts(s: Setup, m: Manager, p: Packet)
    requires Base(s, m, []) && !m.shutdown
    ensures Base(s, Submit(m, p), []) && SameFlags(m, Submit(m, p))
    ensures var h, g := KeyOf(p), GetFlow(s, Submit(m, p), p, Reader);
            && h in g.flows && Base(s, g, []) && Base(s, Count(g, h, 1), [p])
            && (s.workers > 0 ==> Pin(Count(g, h, 1), h) == Count(g, h, 1))
            && var c := Count(g, h, 1);
            var q := c.flows[h].flow.queueId;
            (if s.workers == 0 then AddPacket(s, m, p) == ProcessPacket(s, Take(c, p), p, Reader)
             else 0 <= q < |c.lines| && AddPacket(s, m, p) == if |Queue(c, q)| < s.capacity then Push(c, p, q) else Drop(c, p))
  {
    hide TupleKey, WellFormed, UniqueIds, Routed, GetFlow, ProcessPacket, Waiting, OfKey;
    SameTable(s, m, Submit(m, p), []);
    var h, g := KeyOf(p), GetFlow(s, Submit(m, p), p, Reader);
    GetFlowKeepsBase(s, Submit(m, p), p);
    CountKeepsBase(s, g, p);
    var c := Count(g, h, 1);
    assert Placed(s, c, [p], h);
    WellFormedFlows(s, c, h);
  }

  lemma AddPacketUnfolds(s: Setup, m: Manager, p: Packet)
    requires Inv(s, m, []) && !m.shutdown
    ensures var h, g := KeyOf(p), GetFlow(s, Submit(m, p), p, Reader);
            && h in g.flows && Inv(s, g, []) && Inv(s, Count(g, h, 1), [p])
            && (s.workers > 0 ==> Pin(Count(g, h, 1), h) == Count(g, h, 1))
            && var c := Count(g, h, 1);
            var q := c.flows[h].flow.queueId;
            (if s.workers == 0 then AddPacket(s, m, p) == ProcessPacket(s, Take(c, p), p, Reader)
             else 0 <= q < |c.lines| && AddPacket(s, m, p) == if |Queue(c, q)| < s.capacity then Push(c, p, q) else Drop(c, p))
  {
    hide TupleKey, WellFormed, UniqueIds, Routed, Placed, GetFlow, ProcessPacket, AddPacket, Calm, Queue, Pin, Push, Drop, Take;
    AddPacketParts(s, m, p);
    SubmitKeepsInv(s, m, p);
    GetFlowKeepsInv(s, Submit(m, p), p);
    CountKeepsInv(s, GetFlow(s, Submit(m, p), p, Reader), p);
  }

  lemma SubmitKeepsInv(s: Setup, m: Manager, p: Packet)
    requires Inv(s, m, [])
    ensures Inv(s, Submit(m, p), []) && SameFlags(m, Submit(m, p))
  {
    hide WellFormed, Placed, Routed, UniqueIds;
    SameTableInv(s, m, Submit(m, p));
  }

  lemma SameTableInv(s: Setup, m: Manager, r: Manager)
    requires Inv(s, m, []) && r.flows == m.flows && r.lines == m.lines && r.nextId == m.nextId
    ensures Inv(s, r, [])
  {
    hide Base;
    SameTable(s, m, r, []);
  }

  /** Every single call keeps the invariant. */
  lemma AddPacketKeepsInv(s: Setup, m: Manager, p: Packet)
    requires Inv(s, m, [])
    ensures Inv(s, AddPacket(s, m, p), [])
  {
    hide TupleKey, WellFormed, Placed, Routed, UniqueIds, GetFlow, ProcessPacket, Calm;
    if m.shutdown {
      SameTableInv(s, m, AddPacket(s, m, p));
    } else {
      AddPacketUnfolds(s, m, p);
      SubmitKeepsInv(s, m, p);
      var h, g := KeyOf(p), GetFlow(s, Submit(m, p), p, Reader);
      var c := Count(g, h, 1);
      hide AddPacket;
      if s.workers == 0 {
        SameTableInHand(s, c, Take(c, p), p);
        ProcessKeepsInv(s, Take(c, p), p, Reader);
      } else if |Queue(c, c.flows[h].flow.queueId)| < s.capacity {
        PushKeepsInv(s, c, p, c.flows[h].flow.queueId);
      } else {
        DropUndoesCount(g, p);
        SameTableInv(s, g, Drop(c, p));
      }
    }
  }

  lemma SameTableInHand(s: Setup, m: Manager, r: Manager, p: Packet)
    requires Inv(s, m, [p]) && r.flows == m.flows && r.lines == m.lines && r.nextId == m.nextId
    ensures Inv(s, r, [p])
  {
    hide Base;
    SameTable(s, m, r, [p]);
  }

  lemma WorkKeepsInv(s: Setup, m: Manager, q: nat)
    requires Inv(s, m, []) && q < s.workers == |m.lines| && m.lines[q] != []
    ensures Inv(s, Work(s, m, q), [])
  {
    hide Base, ProcessPacket, Calm;
    UnloadKeepsInv(s, m, q);
    ProcessKeepsInv(s, Unload(m, q), m.lines[q][0], Worker(q));
  }

  /** No packet is queued or in a worker's hands. */
  ghost predicate Quiet(m: Manager) {
    forall q :: 0 <= q < |m.lines| ==> m.lines[q] == []
  }

  lemma QuietFlowsCountNothing(s: Setup, m: Manager, h: Key)
    requires Base(s, m, []) && Quiet(m) && h in m.flows
    ensures m.flows[h].flow.pktsInQueue == 0
  {
    hide TupleKey, WellFormed, UniqueIds, Routed;
    assert Placed(s, m, [], h);
    NothingOfKeyAtAll();
  }

  lemma StartKeepsInv(s: Setup)
    requires s.env.Valid()
    ensures Inv(s, Start(s), []) && Quiet(Start(s))
  {
    hide Env.Valid;
  }
}
