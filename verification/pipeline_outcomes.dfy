/**
  What runs of the flow manager come to, told by the packets and the numbers of the
  flows: when a flow is replaced, by what time, which queue it gets, and whether it is
  reported.
*/
module PipelineOutcomes {
  import opened Packets
  import opened FlowKey
  import Murmur3
  import opened FlowControl
  import opened ControlHistory
  import opened Meters
  import opened FlowModel
  import opened FlowHistories
  import opened Pipeline
  import opened PipelineInvariant
  import opened PipelineHistory
  import opened PipelineLives
  import opened PipelineFlows
  import opened PipelineRuns
  import opened PipelineSettling

  // ---------- replacement ----------

  /** The flow under a packet's key is too old for it: nothing of it waits, and it has seen no data for longer than
      the UDP timeout, or, for TCP, the timeout is 0 and the clock has moved. */
  predicate TooOld(t: Timeouts, f: FlowData, p: Packet) {
    && f.pktsInQueue <= 0
    && if p.IsUdp() then p.seconds - f.control.lastSeconds > t.udp else t.tcp == 0 && p.seconds != f.control.lastSeconds
  }

  lemma CalmFlowsExpireWhenTooOld(t: Timeouts, f: FlowData, p: Packet)
    requires Calm(f)
    ensures Expired(t, f, p) <==> TooOld(t, f, p)
  {
  }

  /** A lookup that replaces a flow settles it; any other settles nothing. */
  lemma LookupRecord(s: Setup, m: Manager, p: Packet)
    requires WellFormed(s, m)
    ensures var g, h := GetFlow(s, m, p, Reader), KeyOf(p);
            if h in m.flows && Expired(s.timeouts, m.flows[h].flow, p) then
              var Entry(id, f) := m.flows[h];
              && g.history.removed == m.history.removed + multiset{id}
              && g.history.retired == (if f.control.state == FinishedNotified then m.history.retired else m.history.retired[id := f.control])
              && g.history.origin == m.history.origin[m.nextId := p] && g.nextId == m.nextId + 1
            else if h in m.flows then g == m
            else
              && g.history.removed == m.history.removed && g.history.retired == m.history.retired
              && g.history.origin == m.history.origin[m.nextId := p] && g.nextId == m.nextId + 1
  {
    hide TupleKey, WellFormed, Install, Expired, WorthReporting, Reports;
    var h := KeyOf(p);
    if h !in m.flows {
      InstallEffect(s, m, p, Reader);
    } else if Expired(s.timeouts, m.flows[h].flow, p) {
      FinishKeepsWellFormed(s, m, h);
      InstallEffect(s, Finish(s, m, h), p, Reader);
    }
  }

  /** The flow under a packet's key and the record of flows, as a lookup for the packet leaves them. */
  ghost predicate SameButCounted(g: Manager, r: Manager, h: Key) {
    && r.history.removed == g.history.removed && r.history.retired == g.history.retired && r.history.origin == g.history.origin
    && r.nextId == g.nextId && h in g.flows && h in r.flows && r.flows[h].id == g.flows[h].id
  }

  lemma UdpPacketsEndNothing(c: Control, p: Packet)
    requires p.IsUdp() && c.state !in {Finished, FinishedNotified}
    ensures FlowControl.Step(c, p).state !in {Finished, FinishedNotified}
  {
    hide PacketDirection;
  }

  /** Processed at once, a UDP packet leaves its flow in the table. */
  lemma ProcessedUdp(s: Setup, m: Manager, p: Packet, caller: Caller)
    requires Base(s, m, [p]) && (caller.Worker? ==> caller.index < s.workers) && p.IsUdp()
    requires KeyOf(p) in m.flows && m.flows[KeyOf(p)].flow.control.state !in {Finished, FinishedNotified}
    ensures WellFormed(s, m) && SameButCounted(m, ProcessPacket(s, m, p, caller), KeyOf(p))
  {
    hide TupleKey, WellFormed, UniqueIds, Routed, Placed, GetFlow, FlowStep, FlowControl.Step, Reports;
    BaseIsWellFormed(s, m, [p]);
    var h := KeyOf(p);
    WorkerFindsCountedFlow(s, m, p, caller);
    var m1 := Count(m, h, -1);
    UncountKeepsBase(s, m, p);
    FeedEffect(s, m1, p);
    WellFormedFlows(s, m1, h);
    FlowStepKeepsPlace(s.env, m1.flows[h].flow, p);
    UdpPacketsEndNothing(m1.flows[h].flow.control, p);
  }

  /** What is done with a UDP packet after the lookup is of no consequence for the table's flows. */
  lemma AddedUdp(s: Setup, m: Manager, p: Packet)
    requires Inv(s, m, []) && !m.shutdown && p.IsUdp()
    ensures WellFormed(s, m) && WellFormed(s, Submit(m, p))
    ensures SameButCounted(GetFlow(s, Submit(m, p), p, Reader), AddPacket(s, m, p), KeyOf(p))
  {
    hide TupleKey, WellFormed, UniqueIds, Routed, Placed, GetFlow, ProcessPacket, KeyOf;
    InvIsBase(s, m);
    BaseIsWellFormed(s, m, []);
    AddPacketUnfolds(s, m, p);
    BaseIsWellFormed(s, Submit(m, p), []) by { AddPacketParts(s, m, p); }
    var h, g := KeyOf(p), GetFlow(s, Submit(m, p), p, Reader);
    var c := Count(g, h, 1);
    hide AddPacket;
    if s.workers == 0 {
      SameTable(s, c, Take(c, p), [p]);
      NothingIsOver(s, g, h);
      ProcessedUdp(s, Take(c, p), p, Reader);
    }
  }

  /** Without workers no flow in the table is over. */
  lemma NothingIsOver(s: Setup, m: Manager, h: Key)
    requires Inv(s, m, []) && s.workers == 0 && h in m.flows
    ensures m.flows[h].flow.control.state !in {Finished, FinishedNotified}
  {
    hide TupleKey, ValidMeters, Env.Valid, UniqueIds, Routed, OfKey;
    assert Placed(s, m, [], h) && Calm(m.flows[h].flow);
    NothingOfKeyAtAll();
  }

  /** After any run, a UDP packet that the reader adds replaces the flow under its key if and only if nothing of
      that flow waits and it has seen no data for longer than the UDP timeout: the flow then has left the table,
      once, as it was, and the entry is a new one, made for this packet; otherwise it is still the flow. */
  lemma UdpFlowIsReplacedIff(s: Setup, run: seq<Action>, p: Packet)
    requires s.env.Valid() && p.IsUdp() && KeyOf(p) in After(s, run).flows
    requires !After(s, run).shutdown && !After(s, run).closing
    ensures var m, r, h := After(s, run), After(s, run + [Add(p)]), KeyOf(p);
            var Entry(id, f) := m.flows[h];
            && h in r.flows
            && if f.pktsInQueue <= 0 && p.seconds - f.control.lastSeconds > s.timeouts.udp then
                 && r.flows[h].id == m.nextId != id && r.history.origin == m.history.origin[m.nextId := p]
                 && r.history.removed[id] == 1 && r.history.retired == m.history.retired[id := f.control]
               else
                 && r.flows[h].id == id && r.history.origin == m.history.origin
                 && r.history.removed[id] == 0 && r.history.retired == m.history.retired
  {
    hide After, AddPacket, GetFlow, KeyOf, Base, WellFormed, Told, Reported, Expired;
    var m, h := After(s, run), KeyOf(p);
    OneStepMore(s, run, Add(p));
    EveryRunIsTold(s, run);
    InvIsBase(s, m);
    BaseIsNumbered(s, m, []);
    AddedUdp(s, m, p);
    LookupEffect(s, Submit(m, p), p);
    LookupRecord(s, Submit(m, p), p);
    CalmFlowsExpireWhenTooOld(s.timeouts, m.flows[h].flow, p);
    assert Lived(m, m.flows[h].id) && InTable(m, m.flows[h].id);
  }

  lemma AddedNumbers(s: Setup, m: Manager, p: Packet)
    requires Inv(s, m, []) && !m.shutdown
    ensures WellFormed(s, m) && WellFormed(s, Submit(m, p))
    ensures AddPacket(s, m, p).nextId == GetFlow(s, Submit(m, p), p, Reader).nextId
  {
    hide TupleKey, WellFormed, UniqueIds, Routed, Placed, GetFlow, ProcessPacket, KeyOf;
    InvIsBase(s, m);
    BaseIsWellFormed(s, m, []);
    AddPacketParts(s, m, p);
    BaseIsWellFormed(s, Submit(m, p), []);
    var g := GetFlow(s, Submit(m, p), p, Reader);
    var c := Count(g, KeyOf(p), 1);
    hide AddPacket;
    if s.workers == 0 {
      SameTable(s, c, Take(c, p), [p]);
      ProcessChangesOneEntry(s, Take(c, p), p, Reader);
    }
  }

  /** After any run, a packet that the reader adds, TCP or UDP, has a new flow made for it if and only if there is
      none under its key, or one that is too old. */
  lemma NewFlowIsMadeIff(s: Setup, run: seq<Action>, p: Packet)
    requires s.env.Valid() && !After(s, run).shutdown && !After(s, run).closing
    ensures var m, r, h := After(s, run), After(s, run + [Add(p)]), KeyOf(p);
            r.nextId == m.nextId + if h in m.flows && !TooOld(s.timeouts, m.flows[h].flow, p) then 0 else 1
  {
    hide After, AddPacket, GetFlow, KeyOf, Base, WellFormed, Expired, TooOld;
    var m, h := After(s, run), KeyOf(p);
    OneStepMore(s, run, Add(p));
    AddedNumbers(s, m, p);
    LookupRecord(s, Submit(m, p), p);
    if h in m.flows {
      CalmFlowsExpireWhenTooOld(s.timeouts, m.flows[h].flow, p);
    }
  }

  // ---------- what a flow in the table holds ----------

  /** After any run, a flow in the table tells of the packets processed for it, and of no others: its state (but
      for the mark of a notified flow), its counters, its directions, its first payload, and its clock, which is
      that of the last data packet processed for it or else of the packet that it was made for. */
  lemma TableTellsOfPackets(s: Setup, run: seq<Action>, h: Key)
    requires s.env.Valid() && h in After(s, run).flows
    ensures var Entry(id, f) := After(s, run).flows[h];
            var t := After(s, run).history;
            id in t.origin &&
            var first, ps := t.origin[id], PacketsOf(t.processed, id);
            Tells(Fresh(first), ps, if f.control.state == FinishedNotified then f.control.(state := Finished) else f.control)
  {
    hide After, Tells, KeyOf, PacketsOf, FlowRun, Env.Valid;
    TableHoldsReplays(s, run, h);
    var id, t := After(s, run).flows[h].id, After(s, run).history;
    FlowTells(s.env, t.origin[id], s.junk(id), PacketsOf(t.processed, id));
  }

  /** So, in particular, what its clock says. */
  lemma ClockOfAFlow(s: Setup, run: seq<Action>, h: Key)
    requires s.env.Valid() && h in After(s, run).flows
    ensures var Entry(id, f) := After(s, run).flows[h];
            var t := After(s, run).history;
            id in t.origin &&
            var first, ps := t.origin[id], PacketsOf(t.processed, id);
            var d := DataPackets(first.tuple, ps);
            f.control.lastSeconds == if d == [] then first.seconds else ps[d[|d| - 1]].seconds
  {
    hide After, KeyOf, PacketsOf, KeepsFirst, StateOf, DataPackets;
    TableTellsOfPackets(s, run, h);
  }

  // ---------- reports ----------

  /** When the final call has returned, a finish observer has heard once of each flow that had a data packet and, up
      to the packet that ended it, three packets over all, or two for UDP; and never of any other. */
  lemma FlowsAreReportedForTheirPackets(s: Setup, run: seq<Action>, id: nat, k: nat)
    requires s.env.Valid() && Enabled(s, After(s, run), Return)
    ensures var m := After(s, run + [Return]);
            var t := m.history;
            && (forall i: nat :: i in t.origin <==> i < m.nextId)
            && if id < m.nextId then
                 var first := t.origin[id];
                 var ps := UpToEnd(first, PacketsOf(t.processed, id));
                 CallsTo(t.finishCalls, k, id) ==
                   if k < s.finishObservers && DataPackets(first.tuple, ps) != [] && |ps| >= (if first.IsTcp() then 3 else 2) then 1 else 0
               else CallsTo(t.finishCalls, k, id) == 0
  {
    hide After, Enabled, FlowControl.Run, UpToEnd, PacketsOf, CallsTo, DataPackets, KeepsFirst, StateOf, Lives, TrueRecord, Replayed, Env.Valid;
    EveryFlowIsSettledOnce(s, run, id, k);
    EveryRunIsTold(s, run + [Return]);
    var t := After(s, run + [Return]).history;
    if id < After(s, run + [Return]).nextId {
      ControlHasClosedForm(Fresh(t.origin[id]), UpToEnd(t.origin[id], PacketsOf(t.processed, id)));
    }
  }

  // ---------- turns ----------

  /** With workers, the flow numbered `id` is pinned to queue `id` modulo their number, and the next flow will be to the
      next. */
  ghost predicate InTurn(s: Setup, m: Manager) {
    s.workers > 0 ==>
      && |m.lines| == s.workers && NextQueue(m) == m.nextId % s.workers
      && forall h :: h in m.flows ==> m.flows[h].flow.queueId == m.flows[h].id % s.workers
  }

  lemma InstallTakesTurn(s: Setup, m: Manager, p: Packet)
    requires WellFormed(s, m) && InTurn(s, m)
    ensures InTurn(s, Install(s, m, p, Reader))
  {
    hide TupleKey, WellFormed, FreshMeters;
    InstallEffect(s, m, p, Reader);
    if s.workers > 0 {
      NextInTurn(m.nextId, s.workers);
    }
  }

  lemma NextInTurn(n: nat, w: nat)
    requires w > 0
    ensures (n + 1) % w == if n % w + 1 == w then 0 else n % w + 1
  {
    var q, r := n / w, n % w;
    assert n == w * q + r;
    if r + 1 == w {
      assert n + 1 == w * (q + 1);
      Murmur3.RemainderIsUnique(n + 1, w, q + 1, 0);
    } else {
      Murmur3.RemainderIsUnique(n + 1, w, q, r + 1);
    }
  }

  ghost predicate SameTurns(m: Manager, r: Manager) {
    && |r.lines| == |m.lines| && r.currentQueue == m.currentQueue && r.nextId == m.nextId
    && forall h :: h in r.flows ==> h in m.flows && r.flows[h].id == m.flows[h].id && r.flows[h].flow.queueId == m.flows[h].flow.queueId
  }

  lemma SameTurnsAreInTurn(s: Setup, m: Manager, r: Manager)
    requires InTurn(s, m) && SameTurns(m, r)
    ensures InTurn(s, r)
  {
  }

  lemma GetFlowTakesTurn(s: Setup, m: Manager, p: Packet)
    requires WellFormed(s, m) && InTurn(s, m)
    ensures InTurn(s, GetFlow(s, m, p, Reader))
  {
    hide TupleKey, WellFormed, Install, Finish, Expired, InTurn;
    var h := KeyOf(p);
    if h !in m.flows {
      InstallTakesTurn(s, m, p);
    } else if Expired(s.timeouts, m.flows[h].flow, p) {
      FinishEffect(s, m, h);
      FinishKeepsWellFormed(s, m, h);
      SameTurnsAreInTurn(s, m, Finish(s, m, h));
      InstallTakesTurn(s, Finish(s, m, h), p);
    }
  }

  lemma ProcessedTurns(s: Setup, m: Manager, p: Packet, caller: Caller)
    requires Base(s, m, [p]) && (caller.Worker? ==> caller.index < s.workers)
    ensures WellFormed(s, m) && SameTurns(m, ProcessPacket(s, m, p, caller))
  {
    hide TupleKey, WellFormed, UniqueIds, Routed, Placed, GetFlow, FlowStep, Feed, Retire;
    BaseIsWellFormed(s, m, [p]);
    WorkerFindsCountedFlow(s, m, p, caller);
    var m1 := Count(m, KeyOf(p), -1);
    UncountKeepsBase(s, m, p);
    FeedEffect(s, m1, p);
    WellFormedFlows(s, m1, KeyOf(p));
    FlowStepKeepsPlace(s.env, m1.flows[KeyOf(p)].flow, p);
    RetireEffect(s, Feed(s, m1, p), KeyOf(p));
  }

  lemma AddTakesTurn(s: Setup, m: Manager, p: Packet)
    requires Inv(s, m, []) && InTurn(s, m)
    ensures InTurn(s, AddPacket(s, m, p))
  {
    hide TupleKey, WellFormed, UniqueIds, Routed, Placed, GetFlow, ProcessPacket, KeyOf, InTurn;
    if m.shutdown {
      SameTurnsAreInTurn(s, m, AddPacket(s, m, p));
    } else {
      InvIsBase(s, m);
      AddPacketParts(s, m, p);
      BaseIsWellFormed(s, Submit(m, p), []);
      SameTurnsAreInTurn(s, m, Submit(m, p));
      GetFlowTakesTurn(s, Submit(m, p), p);
      var g := GetFlow(s, Submit(m, p), p, Reader);
      var c := Count(g, KeyOf(p), 1);
      hide AddPacket;
      if s.workers == 0 {
        SameTable(s, c, Take(c, p), [p]);
        ProcessedTurns(s, Take(c, p), p, Reader);
      }
      SameTurnsAreInTurn(s, g, AddPacket(s, m, p));
    }
  }

  lemma NextTakesTurn(s: Setup, m: Manager, a: Action)
    requires Inv(s, m, []) && Enabled(s, m, a) && InTurn(s, m)
    ensures WellFormed(s, m) && InTurn(s, Next(s, m, a))
  {
    hide Base, AddPacket, ProcessPacket, Finish, Calm, InTurn;
    InvIsBase(s, m);
    BaseIsWellFormed(s, m, []);
    match a
    case Add(p) => AddTakesTurn(s, m, p);
    case Serve(q) =>
      UnloadKeepsBase(s, m, q);
      ProcessedTurns(s, Unload(m, q), m.lines[q][0], Worker(q));
      SameTurnsAreInTurn(s, m, Work(s, m, q));
    case Settle(h) =>
      FinishEffect(s, m, h);
      SameTurnsAreInTurn(s, m, Finish(s, m, h));
    case _ => SameTurnsAreInTurn(s, m, Next(s, m, a));
  }

  lemma {:induction false} EveryRunTakesTurns(s: Setup, run: seq<Action>)
    requires s.env.Valid()
    ensures InTurn(s, After(s, run))
  {
    hide Inv, Next, Enabled, InTurn;
    if run == [] {
      NothingTakesTurns(s);
    } else {
      var m, a := After(s, run[..|run| - 1]), run[|run| - 1];
      EveryRunTakesTurns(s, run[..|run| - 1]);
      if Enabled(s, m, a) {
        NextTakesTurn(s, m, a);
      }
    }
  }

  lemma NothingTakesTurns(s: Setup)
    ensures InTurn(s, Start(s))
  {
  }

  /** After any run with workers, each flow in the table is pinned to the queue whose turn it was when it was made:
      the queues take flows in turn, whatever becomes of the flows. */
  lemma QueuesTakeFlowsInTurn(s: Setup, run: seq<Action>, h: Key)
    requires s.env.Valid() && s.workers > 0 && h in After(s, run).flows
    ensures var Entry(id, f) := After(s, run).flows[h]; f.queueId == id % s.workers
  {
    hide After;
    EveryRunTakesTurns(s, run);
  }
}
