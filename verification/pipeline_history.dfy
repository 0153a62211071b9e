/**
  What every run of the flow manager looks like from outside: verdicts balance,
  each key's packets are processed in the order they were taken and by the flow
  that counted them, and every flow is reported at most once and leaves once.
*/
module PipelineHistory {
  import opened Packets
  import opened FlowKey
  import opened FlowControl
  import opened FlowModel
  import opened Pipeline
  import opened PipelineInvariant

  // ---------- verdicts ----------

  /** Everything in some queues. */
  ghost function AllQueued<T>(queues: seq<seq<T>>): multiset<T> {
    if queues == [] then multiset{} else AllQueued(queues[..|queues| - 1]) + multiset(queues[|queues| - 1])
  }

  function TotalLength<T>(queues: seq<seq<T>>): nat {
    if queues == [] then 0 else TotalLength(queues[..|queues| - 1]) + |queues[|queues| - 1]|
  }

  lemma {:induction false} QueueLengths<T>(queues: seq<seq<T>>)
    ensures |AllQueued(queues)| == TotalLength(queues)
  {
    if queues != [] {
      QueueLengths(queues[..|queues| - 1]);
    }
  }

  lemma {:induction false} NothingIn<T>(queues: seq<seq<T>>)
    requires forall q :: 0 <= q < |queues| ==> queues[q] == []
    ensures AllQueued(queues) == multiset{}
  {
    if queues != [] {
      NothingIn(queues[..|queues| - 1]);
    }
  }

  /** Every submitted packet was accepted, or dropped, or is queued, or is in hand: exactly one of these. */
  ghost predicate Balanced(m: Manager, hand: seq<Packet>) {
    multiset(m.history.submitted) ==
      multiset(m.history.accepted) + multiset(m.history.dropped) + AllQueued(m.lines) + multiset(hand)
  }

  lemma {:induction false} QueueUpdate<T>(queues: seq<seq<T>>, q: nat, x: seq<T>)
    requires q < |queues|
    ensures AllQueued(queues[q := x]) + multiset(queues[q]) == AllQueued(queues) + multiset(x)
  {
    var n := |queues| - 1;
    if q < n {
      QueueUpdate(queues[..n], q, x);
      assert queues[q := x][..n] == queues[..n][q := x];
      assert AllQueued(queues[q := x]) == AllQueued(queues[..n][q := x]) + multiset(queues[n]);
      assert AllQueued(queues) == AllQueued(queues[..n]) + multiset(queues[n]);
      SumsShift(AllQueued(queues[..n][q := x]), multiset(queues[q]), AllQueued(queues[..n]), multiset(x), multiset(queues[n]));
    } else {
      assert queues[q := x][..n] == queues[..n];
    }
  }

  lemma SumsShift<T>(a: multiset<T>, b: multiset<T>, c: multiset<T>, d: multiset<T>, e: multiset<T>)
    requires a + b == c + d
    ensures a + e + b == c + e + d
  {
    assert a + e + b == (a + b) + e && c + e + d == (c + d) + e;
  }

  lemma PushAdds<T>(queues: seq<seq<T>>, q: nat, p: T)
    requires q < |queues|
    ensures AllQueued(queues[q := queues[q] + [p]]) == AllQueued(queues) + multiset{p}
  {
    QueueUpdate(queues, q, queues[q] + [p]);
    Cancel(AllQueued(queues[q := queues[q] + [p]]), AllQueued(queues), multiset(queues[q]), multiset{p});
  }

  lemma PopRemoves<T>(queues: seq<seq<T>>, q: nat)
    requires q < |queues| && queues[q] != []
    ensures AllQueued(queues[q := queues[q][1..]]) + multiset{queues[q][0]} == AllQueued(queues)
  {
    QueueUpdate(queues, q, queues[q][1..]);
    assert queues[q] == [queues[q][0]] + queues[q][1..];
    Cancel(AllQueued(queues), AllQueued(queues[q := queues[q][1..]]), multiset(queues[q][1..]), multiset{queues[q][0]});
  }

  lemma Cancel<T>(a: multiset<T>, b: multiset<T>, c: multiset<T>, d: multiset<T>)
    requires a + c == b + (c + d)
    ensures a == b + d
  {
    assert a + c - c == a && b + (c + d) - c == b + d;
  }

  // ---------- the part of a step that only concerns flows ----------

  /** Same verdicts, same queues, same deliveries. */
  ghost predicate SameTraffic(m: Manager, r: Manager) {
    && r.lines == m.lines && SameFlags(m, r)
    && r.history.submitted == m.history.submitted && r.history.accepted == m.history.accepted && r.history.dropped == m.history.dropped
    && r.history.taken == m.history.taken && r.history.processed == m.history.processed
  }

  lemma GetFlowTraffic(s: Setup, m: Manager, p: Packet, caller: Caller)
    requires WellFormed(s, m) && (caller.Worker? ==> caller.index < s.workers)
    ensures SameTraffic(m, GetFlow(s, m, p, caller))
  {
    hide TupleKey, WellFormed, Install, WorthReporting, Reports, Expired;
    var h := KeyOf(p);
    if h !in m.flows {
      InstallEffect(s, m, p, caller);
    } else if Expired(s.timeouts, m.flows[h].flow, p) {
      FinishKeepsWellFormed(s, m, h);
      InstallEffect(s, Finish(s, m, h), p, caller);
    }
  }

  lemma NotifyTraffic(s: Setup, m: Manager, h: Key)
    requires h in m.flows
    ensures SameTraffic(m, NotifyFinished(s, m, h)) && h in NotifyFinished(s, m, h).flows
  {
    hide WorthReporting, Reports;
  }

  lemma DeleteTraffic(m: Manager, h: Key)
    requires h in m.flows
    ensures SameTraffic(m, DeleteFlow(m, h))
  {
  }

  lemma RetireTraffic(s: Setup, m: Manager, h: Key)
    requires h in m.flows
    ensures SameTraffic(m, Retire(s, m, h))
  {
    hide NotifyFinished, DeleteFlow;
    NotifyTraffic(s, m, h);
    DeleteTraffic(m, h);
    DeleteTraffic(NotifyFinished(s, m, h), h);
  }

  lemma ProcessTraffic(s: Setup, m: Manager, p: Packet, caller: Caller)
    requires Inv(s, m, [p]) && (caller.Worker? ==> caller.index < s.workers)
    ensures KeyOf(p) in m.flows
    ensures var r := ProcessPacket(s, m, p, caller);
            && r.lines == m.lines && SameFlags(m, r)
            && r.history.submitted == m.history.submitted && r.history.dropped == m.history.dropped && r.history.taken == m.history.taken
            && r.history.accepted == m.history.accepted + [p]
            && r.history.processed == m.history.processed + [Delivery(p, m.flows[KeyOf(p)].id)]
  {
    hide TupleKey, WellFormed, UniqueIds, Routed, Placed, GetFlow, Retire, FlowStep, Reports, Calm;
    WorkerFindsCountedFlow(s, m, p, caller);
    var m1 := Count(m, KeyOf(p), -1);
    UncountKeepsBase(s, m, p);
    RetireTraffic(s, Feed(s, m1, p), KeyOf(p));
  }

  /** What becomes of a submitted packet: accepted unseen after a shutdown; dropped when, and only
      when, the queue of its flow is full; queued; or processed at once where there are no workers. */
  lemma AddPacketTraffic(s: Setup, m: Manager, p: Packet)
    requires Inv(s, m, [])
    ensures WellFormed(s, Submit(m, p))
    ensures var t, r, g, h := m.history, AddPacket(s, m, p), GetFlow(s, Submit(m, p), p, Reader), KeyOf(p);
            var u := r.history;
            && u.submitted == t.submitted + [p] && SameFlags(m, r)
            && if m.shutdown then
                 u.accepted == t.accepted + [p] && u.dropped == t.dropped && u.taken == t.taken && u.processed == t.processed && r.lines == m.lines
               else
                 var Entry(id, f) := g.flows[h];
                 if s.workers == 0 then
                   && u.accepted == t.accepted + [p] && u.dropped == t.dropped && r.lines == m.lines
                   && u.taken == t.taken + [Delivery(p, id)] && u.processed == t.processed + [Delivery(p, id)]
                 else
                   && 0 <= f.queueId < |m.lines| && u.accepted == t.accepted && u.processed == t.processed
                   && if |Queue(m, f.queueId)| >= s.capacity then
                        u.dropped == t.dropped + [p] && u.taken == t.taken && r.lines == m.lines
                      else
                        && u.dropped == t.dropped && u.taken == t.taken + [Delivery(p, id)]
                        && r.lines == m.lines[f.queueId := m.lines[f.queueId] + [p]]
  {
    hide TupleKey, WellFormed, Placed, Routed, UniqueIds, GetFlow, ProcessPacket, Calm, KeyOf;
    SubmitKeepsInv(s, m, p);
    if !m.shutdown {
      AddPacketUnfolds(s, m, p);
      GetFlowTraffic(s, Submit(m, p), p, Reader);
      var h, g := KeyOf(p), GetFlow(s, Submit(m, p), p, Reader);
      var c := Count(g, h, 1);
      hide AddPacket;
      if s.workers == 0 {
        SameTableInHand(s, c, Take(c, p), p);
        ProcessTraffic(s, Take(c, p), p, Reader);
      }
    }
  }

  lemma AddPacketBalances(s: Setup, m: Manager, p: Packet)
    requires Inv(s, m, []) && Balanced(m, [])
    ensures Balanced(AddPacket(s, m, p), [])
  {
    hide Inv, GetFlow, AddPacket, AllQueued, KeyOf;
    AddPacketTraffic(s, m, p);
    if !m.shutdown && s.workers > 0 {
      var q := GetFlow(s, Submit(m, p), p, Reader).flows[KeyOf(p)].flow.queueId;
      PushAdds(m.lines, q, p);
    }
  }

  lemma WorkBalances(s: Setup, m: Manager, q: nat)
    requires Inv(s, m, []) && q < s.workers == |m.lines| && m.lines[q] != [] && Balanced(m, [])
    ensures Balanced(Work(s, m, q), [])
  {
    hide TupleKey, Base, ProcessPacket, Calm, AllQueued, KeyOf;
    UnloadKeepsInv(s, m, q);
    ProcessTraffic(s, Unload(m, q), m.lines[q][0], Worker(q));
    PopRemoves(m.lines, q);
  }

  lemma FinishTraffic(s: Setup, m: Manager, h: Key)
    requires h in m.flows
    ensures SameTraffic(m, Finish(s, m, h))
  {
    hide WorthReporting, Reports;
  }

  // ---------- order of processing ----------

  function DeliveriesOf(ds: seq<Delivery>, h: Key): seq<Delivery> {
    if ds == [] then []
    else DeliveriesOf(ds[..|ds| - 1], h) + if KeyOf(ds[|ds| - 1].packet) == h then [ds[|ds| - 1]] else []
  }

  function Tag(ps: seq<Packet>, id: nat): (ds: seq<Delivery>)
    ensures |ds| == |ps|
  {
    seq(|ps|, i requires 0 <= i < |ps| => Delivery(ps[i], id))
  }

  function IdAt(m: Manager, h: Key): nat {
    if h in m.flows then m.flows[h].id else 0
  }

  /** The packets taken under a key are those processed, then the one in hand, then those waiting:
      the same packets in the same order, each for the flow that is in the table. */
  ghost predicate Sequenced(m: Manager, hand: seq<Packet>, h: Key) {
    DeliveriesOf(m.history.taken, h) ==
      DeliveriesOf(m.history.processed, h) + Tag(OfKey(hand, h) + Waiting(m, h), IdAt(m, h))
  }

  lemma DeliveriesAppend(ds: seq<Delivery>, d: Delivery, h: Key)
    ensures DeliveriesOf(ds + [d], h) == DeliveriesOf(ds, h) + if KeyOf(d.packet) == h then [d] else []
  {
    hide KeyOf;
    assert (ds + [d])[..|ds|] == ds;
  }

  lemma GetFlowKeepsOrder(s: Setup, m: Manager, p: Packet, h: Key)
    requires Inv(s, m, []) && Sequenced(m, [], h)
    ensures Sequenced(GetFlow(s, m, p, Reader), [], h)
  {
    hide TupleKey, WellFormed, UniqueIds, Routed, GetFlow, DeliveriesOf, Calm;
    var r := GetFlow(s, m, p, Reader);
    GetFlowTraffic(s, m, p, Reader);
    GetFlowKeepsInv(s, m, p);
    GetFlowChangesOneEntry(s, m, p);
    if h in r.flows && !(h in m.flows && r.flows[h] == m.flows[h]) {
      NothingQueuedUnder(s, m, h);
      NothingQueuedUnder(s, r, h);
      NothingOfKeyAtAll();
    } else {
      assert Waiting(r, h) == Waiting(m, h);
    }
  }

  /** A lookup leaves every other entry alone; the one it returns is as it was, or new and replacing
      one that counted no packets. */
  lemma GetFlowChangesOneEntry(s: Setup, m: Manager, p: Packet)
    requires WellFormed(s, m)
    ensures var r, h := GetFlow(s, m, p, Reader), KeyOf(p);
            && h in r.flows && r.flows == m.flows[h := r.flows[h]]
            && (|| (h in m.flows && r == m)
                || (r.flows[h].flow.pktsInQueue == 0 && (h in m.flows ==> m.flows[h].flow.pktsInQueue <= 0)))
  {
    hide TupleKey, WellFormed, Install;
    var h := KeyOf(p);
    if h !in m.flows {
      InstallEffect(s, m, p, Reader);
    } else if Expired(s.timeouts, m.flows[h].flow, p) {
      FinishKeepsWellFormed(s, m, h);
      InstallEffect(s, Finish(s, m, h), p, Reader);
    }
  }

  lemma CountKeepsOrder(m: Manager, hand: seq<Packet>, k: Key, change: int, h: Key)
    requires k in m.flows && Sequenced(m, hand, h)
    ensures Sequenced(Count(m, k, change), hand, h)
  {
    hide DeliveriesOf, OfKey;
    assert Waiting(Count(m, k, change), h) == Waiting(m, h);
  }

  lemma PushKeepsOrder(m: Manager, p: Packet, q: nat, h: Key)
    requires KeyOf(p) in m.flows && q == m.flows[KeyOf(p)].flow.queueId < |m.lines| && Sequenced(m, [], h)
    ensures Sequenced(Push(m, p, q), [], h)
  {
    hide KeyOf, DeliveriesOf, Waiting, Tag, OfKey;
    var r, id := Push(m, p, q), IdAt(m, h);
    DeliveriesAppend(m.history.taken, Delivery(p, m.flows[KeyOf(p)].id), h);
    PushedPacketWaits(m, p, q, h);
    NothingOfKeyAtAll();
    assert [] + Waiting(r, h) == Waiting(r, h) && [] + Waiting(m, h) == Waiting(m, h);
    if KeyOf(p) == h {
      TagAppends(Waiting(m, h), p, id);
    } else {
      assert DeliveriesOf(m.history.taken, h) + [] == DeliveriesOf(m.history.taken, h);
      assert Waiting(m, h) + [] == Waiting(m, h);
    }
  }

  lemma PushedPacketWaits(m: Manager, p: Packet, q: nat, h: Key)
    requires KeyOf(p) in m.flows && q == m.flows[KeyOf(p)].flow.queueId < |m.lines|
    ensures Waiting(Push(m, p, q), h) == Waiting(m, h) + if KeyOf(p) == h then [p] else []
  {
    hide TupleKey, OfKey;
    OfKeyAppends(m.lines[q], p, h);
    assert Waiting(m, h) + [] == Waiting(m, h);
  }

  lemma TagAppends(w: seq<Packet>, p: Packet, id: nat)
    ensures Tag(w + [p], id) == Tag(w, id) + [Delivery(p, id)]
  {
  }

  lemma UnloadKeepsOrder(s: Setup, m: Manager, q: nat, h: Key)
    requires Inv(s, m, []) && q < |m.lines| && m.lines[q] != [] && Sequenced(m, [], h)
    ensures Sequenced(Unload(m, q), [m.lines[q][0]], h)
  {
    hide TupleKey, WellFormed, UniqueIds, Placed, Calm, DeliveriesOf;
    var p, r := m.lines[q][0], Unload(m, q);
    UnloadKeepsRouted(m, q);
    hide Routed;
    OfOne(p, h);
    NothingOfKeyAtAll();
    assert OfKey(m.lines[q], h) == (if KeyOf(p) == h then [p] else []) + OfKey(m.lines[q][1..], h);
    assert OfKey([p], h) + Waiting(r, h) == [] + Waiting(m, h);
  }

  lemma TakeInHandKeepsOrder(s: Setup, m: Manager, p: Packet, h: Key)
    requires KeyOf(p) in m.flows && m.lines == [] && Sequenced(m, [], h)
    ensures Sequenced(Take(m, p), [p], h)
  {
    hide TupleKey, DeliveriesOf;
    DeliveriesAppend(m.history.taken, Delivery(p, m.flows[KeyOf(p)].id), h);
    OfOne(p, h);
    NothingOfKeyAtAll();
    assert Tag([p] + [], IdAt(m, h)) == [Delivery(p, IdAt(m, h))];
    assert DeliveriesOf(m.history.taken, h) + [] == DeliveriesOf(m.history.taken, h);
  }

  lemma ProcessKeepsWaiting(s: Setup, m: Manager, p: Packet, caller: Caller, h: Key)
    requires Inv(s, m, [p]) && (caller.Worker? ==> caller.index < s.workers)
    ensures var r := ProcessPacket(s, m, p, caller);
            && Waiting(r, h) == Waiting(m, h)
            && (h in r.flows ==> IdAt(r, h) == IdAt(m, h))
            && (h !in r.flows ==> Waiting(r, h) == [])
  {
    hide TupleKey, WellFormed, UniqueIds, Routed, Placed, Calm, ProcessPacket;
    var r := ProcessPacket(s, m, p, caller);
    ProcessTraffic(s, m, p, caller);
    ProcessKeepsInv(s, m, p, caller);
    ProcessChangesOneEntry(s, m, p, caller);
    if h in m.flows && h !in r.flows {
      NothingQueuedUnder(s, r, h);
      if 0 <= m.flows[h].flow.queueId < |m.lines| {
        NothingOfKey(m.lines[m.flows[h].flow.queueId], h);
      }
    }
  }

  lemma TagHead(p: Packet, w: seq<Packet>, id: nat)
    ensures Tag([p] + w, id) == [Delivery(p, id)] + Tag([] + w, id)
  {
    assert [] + w == w;
  }

  /** Processing delivers the packet in hand, to the flow that counted it. */
  lemma ProcessKeepsOrder(s: Setup, m: Manager, p: Packet, caller: Caller, h: Key)
    requires Inv(s, m, [p]) && (caller.Worker? ==> caller.index < s.workers) && Sequenced(m, [p], h)
    ensures Sequenced(ProcessPacket(s, m, p, caller), [], h)
  {
    hide TupleKey, Inv, DeliveriesOf, ProcessPacket, Waiting, Tag, OfKey;
    assert WellFormed(s, m) by { InvIsWellFormed(s, m, [p]); }
    hide WellFormed;
    var r, id := ProcessPacket(s, m, p, caller), IdAt(m, KeyOf(p));
    ProcessTraffic(s, m, p, caller);
    ProcessKeepsWaiting(s, m, p, caller, h);
    DeliveriesAppend(m.history.processed, Delivery(p, id), h);
    OfOne(p, h);
    NothingOfKeyAtAll();
    var w := Waiting(m, h);
    if KeyOf(p) == h {
      TagHead(p, w, id);
      if h !in r.flows {
        TagNothing(id);
        TagNothing(IdAt(r, h));
      }
    } else {
      assert [] + w == w;
      assert DeliveriesOf(m.history.processed, h) + [] == DeliveriesOf(m.history.processed, h);
      if h !in r.flows {
        TagNothing(IdAt(m, h));
        TagNothing(IdAt(r, h));
      }
    }
  }

  lemma InvIsWellFormed(s: Setup, m: Manager, hand: seq<Packet>)
    requires Inv(s, m, hand)
    ensures WellFormed(s, m)
  {
    hide WellFormed, Placed, Routed, UniqueIds;
  }

  lemma TagNothing(id: nat)
    ensures Tag([] + [], id) == []
  {
  }

  lemma ProcessChangesOneEntry(s: Setup, m: Manager, p: Packet, caller: Caller)
    requires Base(s, m, [p]) && (caller.Worker? ==> caller.index < s.workers)
    ensures var r, h := ProcessPacket(s, m, p, caller), KeyOf(p);
            && h in m.flows && r.nextId == m.nextId
            && (forall k :: k != h ==> (k in r.flows <==> k in m.flows) && (k in m.flows ==> r.flows[k] == m.flows[k]))
            && (h in r.flows ==> r.flows[h].id == m.flows[h].id && r.flows[h].flow.queueId == m.flows[h].flow.queueId)
  {
    hide TupleKey, WellFormed, UniqueIds, Routed, Placed, GetFlow, Retire, FlowStep, Feed;
    var h := KeyOf(p);
    WorkerFindsCountedFlow(s, m, p, caller);
    var m1 := Count(m, h, -1);
    UncountKeepsBase(s, m, p);
    FeedEffect(s, m1, p);
    WellFormedFlows(s, m1, h);
    FlowStepKeepsPlace(s.env, m1.flows[h].flow, p);
    RetireEffect(s, Feed(s, m1, p), h);
  }

  lemma AddPacketKeepsOrder(s: Setup, m: Manager, p: Packet, h: Key)
    requires Inv(s, m, []) && Sequenced(m, [], h)
    ensures Sequenced(AddPacket(s, m, p), [], h)
  {
    hide TupleKey, WellFormed, Placed, Routed, UniqueIds, GetFlow, ProcessPacket, Calm, DeliveriesOf, OfKey;
    if m.shutdown {
      assert Waiting(AddPacket(s, m, p), h) == Waiting(m, h);
    } else {
      SubmitKeepsInv(s, m, p);
      AddPacketUnfolds(s, m, p);
      assert Waiting(Submit(m, p), h) == Waiting(m, h);
      GetFlowKeepsOrder(s, Submit(m, p), p, h);
      var k, g := KeyOf(p), GetFlow(s, Submit(m, p), p, Reader);
      var c := Count(g, k, 1);
      CountKeepsOrder(g, [], k, 1, h);
      hide AddPacket;
      if s.workers == 0 {
        SameTableInHand(s, c, Take(c, p), p);
        WellFormedFlows(s, c, k);
        TakeInHandKeepsOrder(s, c, p, h);
        ProcessKeepsOrder(s, Take(c, p), p, Reader, h);
      } else if |Queue(c, c.flows[k].flow.queueId)| < s.capacity {
        PushKeepsOrder(c, p, c.flows[k].flow.queueId, h);
      } else {
        CountKeepsOrder(c, [], k, -1, h);
        assert Waiting(Drop(c, p), h) == Waiting(Count(c, k, -1), h);
      }
    }
  }

  lemma WorkKeepsOrder(s: Setup, m: Manager, q: nat, h: Key)
    requires Inv(s, m, []) && q < s.workers == |m.lines| && m.lines[q] != [] && Sequenced(m, [], h)
    ensures Sequenced(Work(s, m, q), [], h)
  {
    hide TupleKey, Base, ProcessPacket, Calm, Sequenced;
    UnloadKeepsInv(s, m, q);
    UnloadKeepsOrder(s, m, q, h);
    ProcessKeepsOrder(s, Unload(m, q), m.lines[q][0], Worker(q), h);
  }

  lemma FinishKeepsOrder(s: Setup, m: Manager, k: Key, h: Key)
    requires Inv(s, m, []) && k in m.flows && !HasPackets(m.flows[k].flow) && Sequenced(m, [], h)
    ensures Sequenced(Finish(s, m, k), [], h)
  {
    hide TupleKey, WellFormed, Placed, Routed, UniqueIds, Calm, DeliveriesOf, Finish, OfKey;
    FinishTraffic(s, m, k);
    FinishEffect(s, m, k);
    if h == k {
      NothingQueuedUnder(s, m, h);
      NothingOfKeyAtAll();
      TagNothing(IdAt(m, h));
      TagNothing(0);
    } else {
      assert Waiting(Finish(s, m, k), h) == Waiting(m, h);
    }
  }
}
