/**
  Short runs in which the flow manager does what its callers would not expect: the
  inputs behind the conditions in `PipelineRuns`, `PipelineEnding` and `PipelineRace`.
*/
module PipelineExamples {
  import opened Packets
  import opened FlowKey
  import opened FlowControl
  import opened FlowModel
  import opened Pipeline
  import opened PipelineInvariant
  import opened PipelineHistory
  import opened PipelineRuns
  import opened PipelineEnding
  import opened PipelineRace
  import opened PipelineLives
  import opened PipelineSettling
  import opened PipelineOutcomes

  /** One packet was submitted: its flow is new and the packet waits, with all workers before their tests. */
  ghost predicate OnePacketIn(s: Setup, m: Manager, p: Packet) {
    var h := KeyOf(p);
    && h in m.flows && |m.lines| == |m.stages| == s.workers && !m.shutdown && !m.closing
    && 0 <= m.flows[h].flow.queueId < s.workers
    && m.lines[m.flows[h].flow.queueId] == [p] && m.stages[m.flows[h].flow.queueId] == Idle
    && m.flows[h].flow.control == Fresh(p)
    && m.flows[h].flow.pktsInQueue == 1
    && (forall q :: 0 <= q < |m.lines| && q != m.flows[h].flow.queueId ==> m.lines[q] == [])
    && m.nextId == 1
  }

  lemma FirstPacket(s: Setup, p: Packet)
    requires s.env.Valid() && s.workers > 0 && s.capacity > 0
    ensures OnePacketIn(s, After(s, [Add(p)]), p)
  {
    hide TupleKey, WellFormed, Placed, Routed, UniqueIds, Calm, Install, AddPacket, After, FreshFlow;
    var m := After(s, []);
    assert m == Start(s) by { StartOfAll(s); }
    OneStepMore(s, [], Add(p));
    assert [] + [Add(p)] == [Add(p)];
    SubmitKeepsInv(s, m, p);
    AddPacketUnfolds(s, m, p);
    InstallEffect(s, Submit(m, p), p, Reader);
  }

  lemma StartOfAll(s: Setup)
    requires s.env.Valid()
    ensures After(s, []) == Start(s)
  {
    hide Inv;
  }

  /** One packet was submitted and popped. */
  lemma FirstPacketPopped(s: Setup, p: Packet) returns (run: seq<Action>)
    requires s.env.Valid() && s.workers > 0 && s.capacity > 0
    ensures var m, h := After(s, run), KeyOf(p);
            && h in m.flows && |m.lines| == |m.stages| == s.workers && !m.shutdown && !m.closing
            && 0 <= m.flows[h].flow.queueId < s.workers && m.lines[m.flows[h].flow.queueId] == [p]
            && Holding(m, m.flows[h].flow.queueId)
            && (forall k :: 0 <= k < |m.lines| && k != m.flows[h].flow.queueId ==> m.lines[k] == [])
            && m.flows[h].flow.control == Fresh(p) && m.flows[h].flow.pktsInQueue == 1
  {
    hide After, KeyOf, Inv, AddPacket, Work;
    FirstPacket(s, p);
    var q := After(s, [Add(p)]).flows[KeyOf(p)].flow.queueId;
    OneStepMore(s, [Add(p)], Look(q));
    OneStepMore(s, [Add(p)] + [Look(q)], Fetch(q));
    run := [Add(p)] + [Look(q)] + [Fetch(q)];
  }

  // ---------- the final call ----------

  /** A shutdown that finds a packet in a queue: no more steps of any thread make the final call return. */
  lemma ShutdownStrandsPackets(s: Setup, p: Packet, rest: seq<Action>)
    requires s.env.Valid() && s.workers > 0 && s.capacity > 0
    ensures !Returns(s, [Add(p), ShutDown], rest)
  {
    hide After, Returns, KeyOf, Inv;
    FirstPacket(s, p);
    OneStepMore(s, [Add(p)], ShutDown);
    assert [Add(p)] + [ShutDown] == [Add(p), ShutDown];
    var m := After(s, [Add(p), ShutDown]);
    var q := m.flows[KeyOf(p)].flow.queueId;
    assert !WillDrain(m, q);
    FinalCallCanReturnIff(s, [Add(p), ShutDown]);
  }

  /** The same final call may return or not: with a packet just popped and all queues empty it can, and if it
      looks at the queues now, it never does. */
  lemma EmptyQueuesAreNotEnough(s: Setup, p: Packet) returns (run: seq<Action>)
    requires s.env.Valid() && s.workers > 0 && s.capacity > 0
    ensures exists rest :: Returns(s, run, rest)
    ensures Enabled(s, After(s, run), Close)
    ensures forall rest :: !Returns(s, run + [Close], rest)
  {
    hide After, Returns, KeyOf, Inv, AddPacket, Work;
    run := FirstPacketPopped(s, p);
    var popped := After(s, run);
    var q := popped.flows[KeyOf(p)].flow.queueId;
    forall k | 0 <= k < |popped.lines| ensures WillDrain(popped, k) && Queue(popped, k) == [] {
    }
    FinalCallCanReturnIff(s, run);
    OneStepMore(s, run, Close);
    FinalCallCanReturnIff(s, run + [Close]);
    assert Holding(After(s, run + [Close]), q);
  }

  // ---------- a packet that is served ----------

  /** One packet was submitted and served. */
  lemma FirstPacketServed(s: Setup, p: Packet) returns (run: seq<Action>)
    requires s.env.Valid() && s.workers > 0 && s.capacity > 0 && FlowControl.Step(Fresh(p), p).state != Finished
    ensures var m, h := After(s, run), KeyOf(p);
            && h in m.flows && m.flows[h].flow.pktsInQueue == 0 && m.flows[h].flow.control == FlowControl.Step(Fresh(p), p)
            && !m.shutdown && !m.closing
  {
    hide After, KeyOf, Inv, AddPacket, FlowControl.Step, Work;
    run := FirstPacketPopped(s, p);
    var popped := After(s, run);
    var q := popped.flows[KeyOf(p)].flow.queueId;
    OneStepMore(s, run, Serve(q));
    run := run + [Serve(q)];
    InvIsBase(s, popped);
    ServedFlow(s, popped, q);
    ServingShortensLines(s, popped, q);
    StatesOnlyAdvance(Fresh(p), p);
  }

  // ---------- the UDP timeout ----------

  /** A UDP packet is processed; another between the same ports comes later than the UDP timeout allows: the old
      flow is settled, and the packet has a flow of its own. */
  lemma UdpFlowTimesOut(s: Setup, p: Packet, next: Packet) returns (run: seq<Action>)
    requires s.env.Valid() && s.workers > 0 && s.capacity > 0
    requires p.IsUdp() && next.tuple == p.tuple && next.seconds - p.seconds > s.timeouts.udp
    ensures var m, r, h := After(s, run), After(s, run + [Add(next)]), KeyOf(p);
            && h in m.flows && h in r.flows && r.flows[h].id != m.flows[h].id
            && r.history.removed[m.flows[h].id] == 1 && m.flows[h].id in r.history.retired
  {
    hide After, TupleKey, Inv;
    run := FirstPacketServed(s, p);
    UdpFlowIsReplacedIff(s, run, next);
  }

  // ---------- a TCP timeout of zero ----------

  /** With a TCP timeout of 0, a connection that has only just begun is replaced by its second packet, if
      that comes within another second. */
  lemma TimeoutZeroReplacesLiveFlows(s: Setup, p: Packet, next: Packet) returns (run: seq<Action>)
    requires s.env.Valid() && s.workers > 0 && s.capacity > 0 && s.timeouts.tcp == 0
    requires p.IsTcp() && p.flags.syn && !p.flags.fin && !p.flags.rst && p.Size() == 0
    requires next.tuple == p.tuple && next.seconds != p.seconds
    ensures var m, h := After(s, run), KeyOf(p);
            && h in m.flows && m.flows[h].flow.control.state == Establishing && KeyOf(next) == h
            && WellFormed(s, m) && GetFlow(s, m, next, Reader).flows[h].id != m.flows[h].id
  {
    hide After, TupleKey, WellFormed, Routed, UniqueIds, OfKey, Install, Waiting;
    run := FirstPacketServed(s, p);
    var m := After(s, run);
    InvIsWellFormed(s, m, []);
    assert Placed(s, m, [], KeyOf(p));
    var c := FlowControl.Step(Fresh(p), p);
    assert c.state == Establishing && c.lastSeconds == p.seconds;
    FinishEffect(s, m, KeyOf(p));
    FinishKeepsWellFormed(s, m, KeyOf(p));
    InstallEffect(s, Finish(s, m, KeyOf(p)), next, Reader);
  }

  // ---------- the reader's two halves ----------

  lemma LookupFindsWaitingFlow(s: Setup, m: Manager, p: Packet)
    requires Inv(s, m, []) && KeyOf(p) in m.flows && m.flows[KeyOf(p)].flow.pktsInQueue > 0
    ensures Lookup(s, m, p) == Submit(m, p)
  {
    hide TupleKey, WellFormed, Placed, Routed, UniqueIds, Install;
    InvIsWellFormed(s, m, []);
  }

  lemma StepMeanwhile(s: Setup, m: Manager, steps: seq<Action>, a: Action)
    requires Inv(s, m, []) && IsOthers(a) && Enabled(s, Meanwhile(s, m, steps), a)
    ensures WellFormed(s, Meanwhile(s, m, steps))
    ensures Meanwhile(s, m, steps + [a]) == Next(s, Meanwhile(s, m, steps), a)
  {
    hide Inv, Enabled, Next;
    assert (steps + [a])[..|steps|] == steps;
    InvIsWellFormed(s, Meanwhile(s, m, steps), []);
  }

  lemma MeanwhileNothing(s: Setup, m: Manager)
    requires Inv(s, m, [])
    ensures Meanwhile(s, m, []) == m
  {
    hide Inv;
  }

  /** A stray packet that ends its flow waits in a queue.  The reader looks up that flow for a new SYN of the
      same endpoints; the worker serves the stray packet, and the flow is gone; the reader counts the SYN for
      the flow object that it holds, and queues it; the worker serves it.  The table then has a flow whose
      packet counter is -1. */
  lemma LookupAndCountCanFail(s: Setup, stray: Packet, p: Packet) returns (steps: seq<Action>, late: Manager)
    requires s.env.Valid() && s.workers > 0 && s.capacity > 0
    requires stray.IsTcp() && (stray.flags.fin || stray.flags.rst || !stray.flags.syn)
    requires p.tuple == stray.tuple && p.flags.syn && !p.flags.fin && !p.flags.rst
    ensures var m, h := After(s, [Add(stray)]), KeyOf(p);
            var g := Lookup(s, m, p);
            var q := g.flows[h].flow.queueId;
            && 0 <= q < s.workers && q < |Meanwhile(s, g, steps).lines|
            && late == CountLate(s, Meanwhile(s, g, steps), p, g.flows[h].id, q)
            && !Inv(s, late, []) && WellFormed(s, late) && q < |late.lines| && late.lines[q] == [p]
            && h in Work(s, late, q).flows && Work(s, late, q).flows[h].flow.pktsInQueue == -1
  {
    hide After, TupleKey, Inv, AddPacket, Work, Lookup, WellFormed;
    FirstPacket(s, stray);
    var m, h := After(s, [Add(stray)]), KeyOf(p);
    LookupFindsWaitingFlow(s, m, p);
    var g := Lookup(s, m, p);
    var q := g.flows[h].flow.queueId;
    MeanwhileNothing(s, g);
    StepMeanwhile(s, g, [], Look(q));
    StepMeanwhile(s, g, [] + [Look(q)], Fetch(q));
    var popped := Meanwhile(s, g, [] + [Look(q)] + [Fetch(q)]);
    StepMeanwhile(s, g, [] + [Look(q)] + [Fetch(q)], Serve(q));
    steps := [] + [Look(q)] + [Fetch(q)] + [Serve(q)];
    var r := Meanwhile(s, g, steps);
    InvIsBase(s, popped);
    ServedFlow(s, popped, q);
    ServingShortensLines(s, popped, q);
    hide Meanwhile;
    CountLateKeepsInvIff(s, r, p, g.flows[h].id, q);
    late := CountLate(s, r, p, g.flows[h].id, q);
    InvIsWellFormed(s, r, []);
    SameShapeIsWellFormed(s, r, late);
    UncountedPacketUnderflows(s, late, q);
  }

  lemma SameShapeIsWellFormed(s: Setup, m: Manager, r: Manager)
    requires WellFormed(s, m) && r.flows == m.flows && |r.lines| == |m.lines|
    ensures WellFormed(s, r)
  {
    hide ValidMeters, Env.Valid;
  }

  // ---------- the worker's three parts ----------

  lemma AddedToQuiet(s: Setup, m: Manager, p: Packet)
    requires Base(s, m, []) && !m.shutdown && s.workers > 0 && s.capacity > 0 && Quiet(m)
    ensures WellFormed(s, m) && !Quiet(AddPacket(s, m, p))
  {
    hide TupleKey, WellFormed, Placed, Routed, UniqueIds, GetFlow, ProcessPacket, KeyOf, AddPacket;
    BaseIsWellFormed(s, m, []);
    AddPacketParts(s, m, p);
    BaseIsWellFormed(s, Submit(m, p), []);
    GetFlowTraffic(s, Submit(m, p), p, Reader);
    var c := Count(GetFlow(s, Submit(m, p), p, Reader), KeyOf(p), 1);
    var q := c.flows[KeyOf(p)].flow.queueId;
    assert AddPacket(s, m, p).lines[q] == [] + [p];
  }

  /** A flow that is over and has been reported is replaced by a late enough packet of its endpoints. */
  lemma ReportedFlowIsReplaced(s: Setup, m: Manager, stray: Packet, p: Packet, q: nat)
    requires Base(s, m, []) && q < s.workers == |m.lines| && m.lines[q] != [] && m.lines[q][0] == stray
    requires stray.IsTcp() && (stray.flags.fin || stray.flags.rst || !stray.flags.syn)
    requires p.tuple == stray.tuple && p.seconds - stray.seconds > s.timeouts.tcpCloseWait
    requires var h := KeyOf(p); h in m.flows && m.flows[h].flow.control == Fresh(stray) && m.flows[h].flow.pktsInQueue == 1
    ensures var h, fed := KeyOf(p), FeedPart(s, m, q);
            && KeyOf(stray) == h && FoundOver(fed, h, fed.flows[h].id)
            && var told := ReportPart(s, fed, h, fed.flows[h].id);
            && h in told.flows && fed.flows[h].id < told.nextId && told.lines == fed.lines && Expired(s.timeouts, told.flows[h].flow, p)
            && told.shutdown == fed.shutdown && told.closing == fed.closing
  {
    hide TupleKey, Base, FeedPart, WorthReporting, Reports;
    BaseIsNumbered(s, m, []);
    FedFlow(s, m, q);
  }

  lemma OneStepBetween(s: Setup, m: Manager, q: nat, a: Action)
    requires Base(s, m, []) && q < s.workers && IsOfOthers(a, q) && Enabled(s, m, a)
    ensures WellFormed(s, m) && InBetween(s, m, q, [a]) == Next(s, m, a)
  {
    hide Base, Next, Enabled;
    BaseIsWellFormed(s, m, []);
    assert [a][..0] == [];
  }

  lemma LateSynIsThrownOut(s: Setup, m: Manager, stray: Packet, p: Packet, q: nat)
    requires Inv(s, m, []) && Lives(s, m) && q < s.workers == |m.lines| && m.lines[q] == [stray] && s.capacity > 0
    requires stray.IsTcp() && (stray.flags.fin || stray.flags.rst || !stray.flags.syn)
    requires p.tuple == stray.tuple && p.seconds - stray.seconds > s.timeouts.tcpCloseWait
    requires var h := KeyOf(p); h in m.flows && m.flows[h].flow.control == Fresh(stray) && m.flows[h].flow.pktsInQueue == 1
    requires !m.shutdown && !m.closing && forall k :: 0 <= k < |m.lines| && k != q ==> m.lines[k] == []
    ensures var r := ServeSlowly(s, m, q, [], [Add(p)]);
            KeyOf(p) !in r.flows && !Quiet(r) && !(Inv(s, r, []) && Lives(s, r))
  {
    hide TupleKey, Base, Calm, Lives, AddPacket, FeedPart, ReportPart, FoundOver, Expired, FlowControl.Step, Fresh, InBetween;
    FedFlow(s, m, q);
    ReportedFlowIsReplaced(s, m, stray, p, q);
    var fed := FeedPart(s, m, q);
    var told := ReportPart(s, fed, KeyOf(p), fed.flows[KeyOf(p)].id);
    AddedEntry(s, told, p);
    AddedToQuiet(s, told, p);
    OneStepBetween(s, told, q, Add(p));
    assert InBetween(s, fed, q, []) == fed by { NoStepBetween(s, fed, q); }
    ServingSlowlyAgreesIff(s, m, q, [], [Add(p)]);
  }

  lemma NoStepBetween(s: Setup, m: Manager, q: nat)
    requires Base(s, m, []) && q < s.workers
    ensures InBetween(s, m, q, []) == m
  {
    hide Base;
  }

  /** A worker feeds a stray packet to its flow, which is over, and has it reported; a SYN of the same
      endpoints comes, stamped later than the close-wait timeout allows, and replaces the flow; the worker
      deletes the new flow, whose packet is queued.  No flow is left, and one packet. */
  lemma LateSynLosesItsFlow(s: Setup, stray: Packet, p: Packet) returns (run: seq<Action>)
    requires s.env.Valid() && s.workers > 0 && s.capacity > 0
    requires stray.IsTcp() && (stray.flags.fin || stray.flags.rst || !stray.flags.syn)
    requires p.tuple == stray.tuple && p.seconds - stray.seconds > s.timeouts.tcpCloseWait
    ensures var m, h := After(s, run), KeyOf(p);
            && h in m.flows && 0 <= m.flows[h].flow.queueId < s.workers == |m.lines|
            && Holding(m, m.flows[h].flow.queueId) && m.lines[m.flows[h].flow.queueId] == [stray]
            && var r := ServeSlowly(s, m, m.flows[h].flow.queueId, [], [Add(p)]);
            h !in r.flows && !Quiet(r) && !(Inv(s, r, []) && Lives(s, r))
  {
    hide After, TupleKey, Inv, Lives, ServeSlowly, Fresh;
    run := FirstPacketPopped(s, stray);
    EveryRunIsTold(s, run);
    InvIsBase(s, After(s, run));
    LateSynIsThrownOut(s, After(s, run), stray, p, After(s, run).flows[KeyOf(p)].flow.queueId);
  }
}
