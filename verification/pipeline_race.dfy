/**
  When the steps of `Pipeline` are too coarse.  In the code a reader looks a flow up
  under the table's lock and counts its packet after the lock is released
  (src/common/src/FlowManager.cpp, addPacket).  Here these are two steps, with any
  steps of the workers in between; the theorems say when that is as good as one step.
*/
module PipelineRace {
  import opened Packets
  import opened FlowKey
  import opened FlowControl
  import opened FlowModel
  import opened Pipeline
  import opened PipelineInvariant
  import opened PipelineHistory
  import opened PipelineRuns

  /** The reader's first half: it has the flow of its packet. */
  ghost function Lookup(s: Setup, m: Manager, p: Packet): (r: Manager)
    requires Inv(s, m, [])
    ensures Inv(s, r, []) && KeyOf(p) in r.flows
  {
    hide GetFlow, Base, Calm, KeyOf;
    SubmitKeepsInv(s, m, p);
    GetFlowKeepsInv(s, Submit(m, p), p);
    InvIsWellFormed(s, Submit(m, p), []);
    GetFlow(s, Submit(m, p), p, Reader)
  }

  /** The reader's second half, for the flow that it found: the flow object counts the packet, which is
      pushed, or uncounted and dropped.  That the flow may have left the table is not noticed. */
  ghost function CountLate(s: Setup, m: Manager, p: Packet, id: nat, q: nat): Manager
    requires q < |m.lines|
  {
    var h := KeyOf(p);
    if h in m.flows && m.flows[h].id == id then
      var m := Count(m, h, 1);
      if |Queue(m, q)| < s.capacity then Push(m, p, q) else Drop(m, p)
    else if |Queue(m, q)| < s.capacity then
      m.(lines := m.lines[q := m.lines[q] + [p]], history := m.history.(taken := m.history.taken + [Delivery(p, id)]))
    else m.(history := m.history.(dropped := m.history.dropped + [p]))
  }

  /** What other threads do in between. */
  predicate IsOthers(a: Action) {
    a.Look? || a.Fetch? || a.Serve? || a.ShutDown?
  }

  ghost function Meanwhile(s: Setup, m: Manager, steps: seq<Action>): (r: Manager)
    requires Inv(s, m, [])
    ensures Inv(s, r, [])
  {
    hide Inv, Enabled, Next;
    if steps == [] then m
    else
      var r, a := Meanwhile(s, m, steps[..|steps| - 1]), steps[|steps| - 1];
      InvIsWellFormed(s, r, []);
      if IsOthers(a) && Enabled(s, r, a) then
        NextKeepsInv(s, r, a);
        Next(s, r, a)
      else r
  }

  predicate Over(state: State) {
    state in {Finished, FinishedNotified}
  }

  /** What a worker leaves of the flow of the packet that it serves: the flow has taken one packet more,
      and is gone if that was the last one waiting and the flow is over. */
  lemma ServedFlow(s: Setup, m: Manager, q: nat)
    requires Base(s, m, []) && q < s.workers == |m.lines| && m.lines[q] != []
    ensures WellFormed(s, m)
    ensures var p, h, r := m.lines[q][0], KeyOf(m.lines[q][0]), Work(s, m, q);
            h in m.flows &&
            var f := m.flows[h].flow;
            var c := FlowControl.Step(f.control, p);
            && f.queueId == q && (h in r.flows <==> f.pktsInQueue > 1 || !Over(c.state))
            && (h in r.flows ==>
                  && r.flows[h].id == m.flows[h].id && r.flows[h].flow.queueId == q
                  && r.flows[h].flow.pktsInQueue == f.pktsInQueue - 1
                  && r.flows[h].flow.control == if Over(c.state) then c.(state := FinishedNotified) else c)
  {
    hide TupleKey, WellFormed, UniqueIds, Routed, Placed, GetFlow, Retire, FlowStep, FlowControl.Step, Feed;
    BaseIsWellFormed(s, m, []);
    UnloadKeepsBase(s, m, q);
    UnloadKeepsRouted(m, q);
    var p, h, popped := m.lines[q][0], KeyOf(m.lines[q][0]), Unload(m, q);
    WorkerFindsCountedFlow(s, popped, p, Worker(q));
    var m1 := Count(popped, h, -1);
    UncountKeepsBase(s, popped, p);
    FeedEffect(s, m1, p);
    WellFormedFlows(s, m1, h);
    FlowStepKeepsPlace(s.env, m1.flows[h].flow, p);
    RetireEffect(s, Feed(s, m1, p), h);
  }

  // ---------- what becomes of the flow that was looked up ----------

  /** How many packets of a key were processed since `g`. */
  function Served(g: Manager, m: Manager, h: Key): int {
    |DeliveriesOf(m.history.processed, h)| - |DeliveriesOf(g.history.processed, h)|
  }

  /** The flow has taken the first of the packets that waited for it, and those alone; it is gone if they
      were all of them and it is over. */
  ghost predicate Follows(g: Manager, m: Manager, h: Key)
    requires h in g.flows
  {
    var f, w, k := g.flows[h].flow, Waiting(g, h), Served(g, m, h);
    && 0 <= k <= |w|
    && var c := FlowControl.Run(f.control, w[..k]);
    && (h in m.flows <==> k < |w| || !Over(c.state))
    && (h in m.flows ==>
          && m.flows[h].id == g.flows[h].id && m.flows[h].flow.queueId == f.queueId
          && Waiting(m, h) == w[k..]
          && m.flows[h].flow.control == if Over(c.state) then c.(state := FinishedNotified) else c)
  }

  lemma NothingServedYet(s: Setup, g: Manager, h: Key)
    requires Inv(s, g, []) && h in g.flows
    ensures Follows(g, g, h)
  {
    hide TupleKey, WellFormed, Routed, UniqueIds, DeliveriesOf, OfKey;
    assert Placed(s, g, [], h) && Calm(g.flows[h].flow);
    NothingOfKeyAtAll();
  }

  lemma SameFollows(g: Manager, m: Manager, r: Manager, h: Key)
    requires h in g.flows && Follows(g, m, h) && r.history.processed == m.history.processed
    requires Waiting(r, h) == Waiting(m, h) && (h in r.flows <==> h in m.flows)
    requires h in m.flows ==> r.flows[h] == m.flows[h]
    ensures Follows(g, r, h)
  {
    hide DeliveriesOf, Waiting, FlowControl.Run;
  }

  /** A worker serves a packet of another key. */
  lemma OtherServed(s: Setup, g: Manager, m: Manager, q: nat, h: Key)
    requires Inv(s, m, []) && q < s.workers == |m.lines| && m.lines[q] != []
    requires h in g.flows && Follows(g, m, h) && KeyOf(m.lines[q][0]) != h
    ensures WellFormed(s, m) && Follows(g, Work(s, m, q), h)
  {
    hide TupleKey, WellFormed, Placed, UniqueIds, Routed, ProcessPacket, Calm, DeliveriesOf, FlowControl.Run;
    InvIsWellFormed(s, m, []);
    var p, r := m.lines[q][0], Work(s, m, q);
    UnloadKeepsInv(s, m, q);
    ProcessTraffic(s, Unload(m, q), p, Worker(q));
    ProcessChangesOneEntry(s, Unload(m, q), p, Worker(q));
    DeliveriesAppend(m.history.processed, Delivery(p, m.flows[KeyOf(p)].id), h);
    assert DeliveriesOf(m.history.processed, h) + [] == DeliveriesOf(m.history.processed, h);
    assert OfKey(m.lines[q], h) == [] + OfKey(m.lines[q][1..], h);
    assert Waiting(r, h) == Waiting(m, h);
  }

  lemma ControlFollows(c: Control, w: seq<Packet>, k: nat, d: Control)
    requires k < |w|
    requires var r := FlowControl.Run(c, w[..k]); d == if Over(r.state) then r.(state := FinishedNotified) else r
    ensures var r, e := FlowControl.Run(c, w[..k + 1]), FlowControl.Step(d, w[k]);
            && Over(e.state) == Over(r.state)
            && (if Over(e.state) then e.(state := FinishedNotified) else e) == (if Over(r.state) then r.(state := FinishedNotified) else r)
  {
    hide FlowControl.Step, FlowControl.Run;
    RunStep(c, w, k);
    StatesOnlyAdvance(FlowControl.Run(c, w[..k]), w[k]);
    StatesOnlyAdvance(d, w[k]);
  }

  /** A worker serves a packet of this key: the next of those that waited. */
  lemma OwnServed(s: Setup, g: Manager, m: Manager, q: nat, h: Key)
    requires Inv(s, m, []) && q < s.workers == |m.lines| && m.lines[q] != []
    requires h in g.flows && Follows(g, m, h) && KeyOf(m.lines[q][0]) == h
    ensures WellFormed(s, m) && Follows(g, Work(s, m, q), h)
  {
    hide TupleKey, WellFormed, Placed, UniqueIds, Routed, ProcessPacket, Calm, DeliveriesOf, FlowControl.Run, FlowControl.Step, Over;
    InvIsWellFormed(s, m, []);
    var p, r, w, k := m.lines[q][0], Work(s, m, q), Waiting(g, h), Served(g, m, h);
    ServedFlow(s, m, q);
    UnloadKeepsInv(s, m, q);
    ProcessTraffic(s, Unload(m, q), p, Worker(q));
    DeliveriesAppend(m.history.processed, Delivery(p, m.flows[h].id), h);
    assert OfKey(m.lines[q], h) == [p] + OfKey(m.lines[q][1..], h);
    assert w[k..] == [p] + OfKey(m.lines[q][1..], h);
    assert w[k] == p && w[k + 1..] == OfKey(m.lines[q][1..], h);
    ControlFollows(g.flows[h].flow.control, w, k, m.flows[h].flow.control);
    WaitingIsCounted(s, m, h);
  }

  lemma WaitingIsCounted(s: Setup, m: Manager, h: Key)
    requires Inv(s, m, []) && h in m.flows
    ensures m.flows[h].flow.pktsInQueue == |Waiting(m, h)|
  {
    hide TupleKey, WellFormed, Routed, UniqueIds, OfKey;
    assert Placed(s, m, [], h);
    NothingOfKeyAtAll();
  }

  lemma {:induction false} EveryFlowIsFollowed(s: Setup, g: Manager, steps: seq<Action>, h: Key)
    requires Inv(s, g, []) && h in g.flows
    ensures Follows(g, Meanwhile(s, g, steps), h)
  {
    hide Inv, Follows, KeyOf, Work;
    if steps == [] {
      NothingServedYet(s, g, h);
    } else {
      var m, a := Meanwhile(s, g, steps[..|steps| - 1]), steps[|steps| - 1];
      EveryFlowIsFollowed(s, g, steps[..|steps| - 1], h);
      InvIsWellFormed(s, m, []);
      if IsOthers(a) && Enabled(s, m, a) {
        if !a.Serve? {
          assert Waiting(Next(s, m, a), h) == Waiting(m, h);
          SameFollows(g, m, Next(s, m, a), h);
        } else if KeyOf(m.lines[a.queue][0]) == h {
          OwnServed(s, g, m, a.queue, h);
        } else {
          OtherServed(s, g, m, a.queue, h);
        }
      }
    }
  }

  // ---------- when two steps are as good as one ----------

  /** The flow that was found is still in the table, the same one and with the same queue, unless all the
      packets that waited for it have been served and it was over after them. */
  lemma FlowIsGoneIff(s: Setup, m: Manager, p: Packet, steps: seq<Action>)
    requires Inv(s, m, [])
    ensures var g, h := Lookup(s, m, p), KeyOf(p);
            var r := Meanwhile(s, g, steps);
            && (h in r.flows ==> r.flows[h].id == g.flows[h].id && r.flows[h].flow.queueId == g.flows[h].flow.queueId)
            && (h !in r.flows <==>
                  Served(g, r, h) == |Waiting(g, h)| && Over(FlowControl.Run(g.flows[h].flow.control, Waiting(g, h)).state))
  {
    hide Inv, Lookup, Meanwhile, Waiting, DeliveriesOf, FlowControl.Run, KeyOf, Over;
    var g, h := Lookup(s, m, p), KeyOf(p);
    EveryFlowIsFollowed(s, g, steps, h);
    assert Waiting(g, h)[..|Waiting(g, h)|] == Waiting(g, h);
  }

  /** The reader's second half, whenever it comes, keeps the table and the queues in agreement if the flow
      is still there, and otherwise only if the queue is full. */
  lemma CountLateKeepsInvIff(s: Setup, m: Manager, p: Packet, id: nat, q: nat)
    requires Inv(s, m, []) && q < |m.lines|
    requires KeyOf(p) in m.flows ==> m.flows[KeyOf(p)].id == id && m.flows[KeyOf(p)].flow.queueId == q
    ensures Inv(s, CountLate(s, m, p, id, q), []) <==> KeyOf(p) in m.flows || |Queue(m, q)| >= s.capacity
  {
    hide TupleKey, WellFormed, Placed, UniqueIds, Calm, KeyOf;
    var h, r := KeyOf(p), CountLate(s, m, p, id, q);
    if h in m.flows {
      CountKeepsInv(s, m, p);
      if |Queue(Count(m, h, 1), q)| < s.capacity {
        PushKeepsInv(s, Count(m, h, 1), p, q);
      } else {
        DropUndoesCount(m, p);
        SameTableInv(s, m, r);
      }
    } else if |Queue(m, q)| < s.capacity {
      assert r.lines[q][|m.lines[q]|] == p;
    } else {
      SameTableInv(s, m, r);
    }
  }

  /** A reader looks up the flow of its packet; the workers do what they will; the reader counts and queues
      the packet.  Table and queues agree afterwards if and only if, in between, not all the packets that
      waited for the flow at the lookup were served, or the flow was not over after them, or by now the
      queue is full. */
  lemma LookupAndCountAgreeIff(s: Setup, m: Manager, p: Packet, steps: seq<Action>)
    requires Inv(s, m, []) && s.workers > 0
    ensures var g, h := Lookup(s, m, p), KeyOf(p);
            var r, f, w := Meanwhile(s, g, steps), g.flows[h].flow, Waiting(g, h);
            && 0 <= f.queueId < |r.lines|
            && (Inv(s, CountLate(s, r, p, g.flows[h].id, f.queueId), []) <==>
                  || Served(g, r, h) < |w|
                  || !Over(FlowControl.Run(f.control, w).state)
                  || |Queue(r, f.queueId)| >= s.capacity)
  {
    hide Inv, Lookup, Meanwhile, Waiting, DeliveriesOf, FlowControl.Run, KeyOf, Over, CountLate, Queue, Served;
    var g, h := Lookup(s, m, p), KeyOf(p);
    var r := Meanwhile(s, g, steps);
    PinnedToALine(s, g, r, h);
    EveryFlowIsFollowed(s, g, steps, h);
    FlowIsGoneIff(s, m, p, steps);
    CountLateKeepsInvIff(s, r, p, g.flows[h].id, g.flows[h].flow.queueId);
  }

  lemma PinnedToALine(s: Setup, g: Manager, r: Manager, h: Key)
    requires Inv(s, g, []) && Inv(s, r, []) && s.workers > 0 && h in g.flows
    ensures 0 <= g.flows[h].flow.queueId < |r.lines|
  {
    hide TupleKey, ValidMeters, Env.Valid, OfKey, Routed, UniqueIds, Calm;
    assert Placed(s, g, [], h);
  }

  // ---------- what comes of a packet that no flow counts ----------

  /** A worker that serves a packet whose flow is not in the table creates one of its own, with a counter of -1; it
      stays in the table, with that counter, exactly when the packet does not end it. */
  lemma UncountedPacketUnderflows(s: Setup, m: Manager, q: nat)
    requires WellFormed(s, m) && q < s.workers == |m.lines| && m.lines[q] != [] && KeyOf(m.lines[q][0]) !in m.flows
    ensures var p, r := m.lines[q][0], Work(s, m, q);
            && (KeyOf(p) in r.flows <==> FlowControl.Step(Fresh(p), p).state != Finished)
            && (KeyOf(p) in r.flows ==> r.flows[KeyOf(p)].flow.pktsInQueue == -1 && r.flows[KeyOf(p)].flow.queueId == q && !Base(s, r, []))
  {
    hide TupleKey, Install, FlowStep, ValidMeters, Feed, Retire, Base, FlowControl.Step;
    var p := m.lines[q][0];
    var h, popped := KeyOf(p), Unload(m, q);
    InstallEffect(s, popped, p, Worker(q));
    var m1 := Count(Install(s, popped, p, Worker(q)), h, -1);
    CountKeepsWellFormed(s, Install(s, popped, p, Worker(q)), h, -1);
    hide WellFormed;
    FeedEffect(s, m1, p);
    WellFormedFlows(s, m1, h);
    FlowStepKeepsPlace(s.env, m1.flows[h].flow, p);
    StatesOnlyAdvance(Fresh(p), p);
    RetireEffect(s, Feed(s, m1, p), h);
    if h in Work(s, m, q).flows && Base(s, Work(s, m, q), []) {
      CountsAreNotNegative(s, Work(s, m, q), h);
    }
  }

  lemma CountsAreNotNegative(s: Setup, m: Manager, h: Key)
    requires Base(s, m, []) && h in m.flows
    ensures m.flows[h].flow.pktsInQueue >= 0
  {
    hide TupleKey, WellFormed, UniqueIds, Routed, OfKey;
    assert Placed(s, m, [], h);
  }
}
