/**
  The netfilter handler, which answers the kernel for every packet it receives
  (src/netfilter/src/PacketHandler.cpp), on top of its flow manager.

  The handler counts what it receives and what it answers.  `VerdictAfterClassification`
  decides who answers for a TCP or UDP packet: the handler at once, or the packet
  object when the flow manager is done with it.  The theorems hold after any calls,
  of the reader, of the workers, of a shutdown and of the final call.
*/
module PacketHandlers {
  import opened Packets
  import opened Pipeline
  import opened PipelineInvariant
  import opened PipelineHistory
  import opened IPv4Packets
  import opened FlowManagers

  function Ids(answers: seq<Answer>): (ids: seq<nat>)
    ensures |ids| == |answers|
  {
    seq(|answers|, i requires 0 <= i < |answers| => answers[i].id)
  }

  function IdsOf(ps: seq<Packet>): (ids: seq<nat>)
    ensures |ids| == |ps|
  {
    seq(|ps|, i requires 0 <= i < |ps| => ps[i].id)
  }

  /** The packet numbers in the workers' lines. */
  function QueuedIds(lines: seq<seq<Packet>>): (ids: seq<seq<nat>>)
    ensures |ids| == |lines|
  {
    seq(|lines|, q requires 0 <= q < |lines| => IdsOf(lines[q]))
  }

  /** Every received packet was answered once, or waits in a queue or in a worker's hands and is still to be
      answered, once; the drops among the answers are the manager's, if it is up to the manager at all. */
  ghost predicate Settled(vac: bool, received: seq<nat>, answers: seq<Answer>, m: Manager) {
    && multiset(received) == multiset(Ids(answers)) + (if vac then AllQueued(QueuedIds(m.lines)) else multiset{})
    && Times(answers, NF_DROP) == if vac then |m.history.dropped| else 0
  }

  lemma NothingReceived(vac: bool, s: Setup)
    ensures Settled(vac, [], [], Start(s))
  {
    NothingIn(QueuedIds(Start(s).lines));
    assert Ids([]) == [];
  }

  lemma OneMoreAnswer(answers: seq<Answer>, a: Answer)
    ensures Ids(answers + [a]) == Ids(answers) + [a.id]
    ensures Times(answers + [a], NF_DROP) == Times(answers, NF_DROP) + if a.verdict == NF_DROP then 1 else 0
  {
    assert (answers + [a])[..|answers|] == answers;
  }

  lemma OtherIsSettled(vac: bool, received: seq<nat>, answers: seq<Answer>, m: Manager, id: nat)
    requires Settled(vac, received, answers, m)
    ensures Settled(vac, received + [id], answers + [Answer(id, NF_ACCEPT)], m)
  {
    OneMoreAnswer(answers, Answer(id, NF_ACCEPT));
  }

  /** The answers that a submitted packet brings about at once, by its handler or by what it tells. */
  function AnswersNow(vac: bool, id: nat, fate: Fate): seq<Answer> {
    if !vac then [Answer(id, NF_ACCEPT)]
    else
      match fate
      case Accepted => [Answer(id, NF_ACCEPT)]
      case Dropped => [Answer(id, NF_DROP)]
      case Queued(_) => []
  }

  lemma QueuedIdsGrow(lines: seq<seq<Packet>>, q: nat, p: Packet)
    requires q < |lines|
    ensures AllQueued(QueuedIds(lines[q := lines[q] + [p]])) == AllQueued(QueuedIds(lines)) + multiset{p.id}
  {
    var ids := QueuedIds(lines);
    assert IdsOf(lines[q] + [p]) == IdsOf(lines[q]) + [p.id];
    assert QueuedIds(lines[q := lines[q] + [p]]) == ids[q := ids[q] + [p.id]];
    PushAdds(ids, q, p.id);
  }

  lemma QueuedIdsShrink(lines: seq<seq<Packet>>, q: nat)
    requires q < |lines| && lines[q] != []
    ensures AllQueued(QueuedIds(lines[q := lines[q][1..]])) + multiset{lines[q][0].id} == AllQueued(QueuedIds(lines))
  {
    var ids := QueuedIds(lines);
    assert IdsOf(lines[q][1..]) == IdsOf(lines[q])[1..];
    assert QueuedIds(lines[q := lines[q][1..]]) == ids[q := ids[q][1..]];
    PopRemoves(ids, q);
  }

  lemma FateIsSettled(vac: bool, received: seq<nat>, answers: seq<Answer>, s: Setup, m: Manager, r: Manager, p: Packet, fate: Fate)
    requires Settled(vac, received, answers, m) && Added(s, m, r, p, fate)
    ensures Settled(vac, received + [p.id], answers + AnswersNow(vac, p.id, fate), r)
  {
    hide AllQueued, QueuedIds, AddPacket, WellFormed;
    if fate.Queued? {
      QueuedIdsGrow(m.lines, fate.queue, p);
    }
    if !vac || !fate.Queued? {
      OneMoreAnswer(answers, AnswersNow(vac, p.id, fate)[0]);
    } else {
      assert answers + [] == answers;
    }
  }

  lemma ServedIsSettled(vac: bool, received: seq<nat>, answers: seq<Answer>, s: Setup, m: Manager, r: Manager, q: nat, p: Packet)
    requires Settled(vac, received, answers, m) && ServedNow(s, m, r, q, p)
    ensures Settled(vac, received, answers + if vac then [Answer(p.id, NF_ACCEPT)] else [], r)
  {
    hide AllQueued, QueuedIds, WellFormed, Work;
    QueuedIdsShrink(m.lines, q);
    if vac {
      OneMoreAnswer(answers, Answer(p.id, NF_ACCEPT));
    } else {
      assert answers + [] == answers;
    }
  }

  lemma SameLinesAreSettled(vac: bool, received: seq<nat>, answers: seq<Answer>, m: Manager, r: Manager)
    requires Settled(vac, received, answers, m) && r.lines == m.lines && r.history.dropped == m.history.dropped
    ensures Settled(vac, received, answers, r)
  {
  }

  lemma {:induction false} FinishingAllTraffic(s: Setup, m: Manager, order: seq<Key>)
    requires Distinct(m, order)
    ensures FinishAll(s, m, order).lines == m.lines && FinishAll(s, m, order).history.dropped == m.history.dropped
    decreases |order|
  {
    hide Finish;
    if order != [] {
      FinishTraffic(s, m, order[0]);
      FinishEffect(s, m, order[0]);
      FinishingAllTraffic(s, Finish(s, m, order[0]), order[1..]);
    }
  }

  lemma {:induction false} SameLengths<S, T>(a: seq<seq<S>>, b: seq<seq<T>>)
    requires |a| == |b| && forall q :: 0 <= q < |a| ==> |a[q]| == |b[q]|
    ensures TotalLength(a) == TotalLength(b)
  {
    if a != [] {
      SameLengths(a[..|a| - 1], b[..|b| - 1]);
    }
  }

  /** What the handler receives: a TCP or UDP packet, or anything else. */
  datatype Datagram = Transport(packet: Packet) | Other(id: nat) {
    function Id(): nat {
      if Transport? then packet.id else id
    }
  }

  /** Each packet object ever made has passed on one verdict, or waits and has passed on none. */
  ghost predicate ToldOnce(made: set<IPv4Packet>, waiting: set<IPv4Packet>, setter: VerdictSetter)
    reads made
  {
    && waiting <= made
    && forall o :: o in made ==>
                     && o.answersTo == setter
                     && if o in waiting then o.Pending() else o.verdictSetter == null && |o.told| == 1
  }

  lemma OneMoreTold(made: set<IPv4Packet>, waiting: set<IPv4Packet>, packet: IPv4Packet, queued: bool, setter: VerdictSetter)
    requires ToldOnce(made, waiting, setter) && packet !in made && packet.answersTo == setter
    requires if queued then packet.Pending() else packet.verdictSetter == null && |packet.told| == 1
    ensures ToldOnce(made + {packet}, waiting + if queued then {packet} else {}, setter)
  {
  }

  lemma WaitingAreMade(made: set<IPv4Packet>, waiting: set<IPv4Packet>, setter: VerdictSetter)
    requires ToldOnce(made, waiting, setter)
    ensures waiting <= made
  {
  }

  class PacketHandler {
    const setter: VerdictSetter
    const flowManager: FlowManager
    var numPackets: nat
    var shutdown: bool
    ghost var received: seq<nat>
    ghost var made: set<IPv4Packet>

    ghost predicate Coherent()
      reads this, setter, flowManager, flowManager.parts, Objects(flowManager.lines), made
    {
      && flowManager.answersTo == setter && flowManager.Valid()
      && this !in flowManager.parts && flowManager.parts !! made
      && ToldOnce(made, Objects(flowManager.lines), setter)
      && Settled(setter.verdictAfterClassification, received, setter.answers, flowManager.model)
    }

    ghost predicate Valid()
      reads this, setter, flowManager, flowManager.parts, Objects(flowManager.lines), made
    {
      Coherent() && numPackets == |received|
    }

    constructor (verdictAfterClassification: bool, setup: Setup)
      requires setup.env.Valid()
      ensures Valid() && numPackets == 0 && !shutdown && setter.verdictAfterClassification == verdictAfterClassification
      ensures flowManager.setup == setup && flowManager.model == Start(setup) && fresh(flowManager) && fresh(setter)
    {
      var s := new VerdictSetter(verdictAfterClassification);
      setter := s;
      flowManager := new FlowManager(setup, s);
      numPackets, received, made, shutdown := 0, [], {}, false;
      new;
      NothingReceived(verdictAfterClassification, setup);
    }

    /** A TCP or UDP packet becomes an object; it is answered here unless that is up to the flow manager. */
    method TakeIn(packet: Packet) returns (pkt: IPv4Packet)
      requires flowManager.answersTo == setter && flowManager.Valid()
      modifies setter
      ensures flowManager.Valid() && fresh(pkt) && pkt.data == packet && pkt.Pending() && pkt.answersTo == setter
      ensures setter.answers == old(setter.answers) + if setter.verdictAfterClassification then [] else [Answer(packet.id, NF_ACCEPT)]
    {
      hide FlowManager.TableValid, VerdictSetter.Valid, Carried, Arranged;
      pkt := new IPv4Packet(packet, setter);
      if !setter.verdictAfterClassification {
        var _ := setter.SetVerdict(packet.id, NF_ACCEPT);
      }
    }

    /** The flow manager gets the packet. */
    method HandleTransport(packet: Packet) returns (fate: Fate)
      requires Coherent()
      modifies this`received, this`made, setter, flowManager, flowManager.parts
      ensures Coherent() && received == old(received) + [packet.id]
      ensures fresh(flowManager.parts - old(flowManager.parts)) && fresh(made - old(made))
      ensures Added(flowManager.setup, old(flowManager.model), flowManager.model, packet, fate)
      ensures setter.answers == old(setter.answers) + AnswersNow(setter.verdictAfterClassification, packet.id, fate)
    {
      hide FlowManager.TableValid, VerdictSetter.Valid, Settled, Carried, Arranged, AddPacket, WellFormed, ToldOnce, Added, FateIs;
      flowManager.ModelAgrees();
      WaitingAreMade(made, Objects(flowManager.lines), setter);
      ghost var m, answers, waiting := flowManager.model, setter.answers, Objects(flowManager.lines);
      var pkt := TakeIn(packet);
      fate := flowManager.AddPacket(pkt);
      assert setter.answers == answers + AnswersNow(setter.verdictAfterClassification, packet.id, fate);
      FateIsSettled(setter.verdictAfterClassification, received, answers, flowManager.setup, m, flowManager.model, packet, fate);
      OneMoreTold(made, waiting, pkt, fate.Queued?, setter);
      received := received + [packet.id];
      made := made + {pkt};
    }

    /** Whatever arrives is counted, and answered once: here, or when the flow manager is done with it. */
    method HandlePacket(d: Datagram)
      requires Valid()
      modifies this`numPackets, this`received, this`made, setter, flowManager, flowManager.parts
      ensures Valid() && fresh(flowManager.parts - old(flowManager.parts)) && fresh(made - old(made))
      ensures received == old(received) + [d.Id()]
      ensures d.Transport? ==> exists fate :: Added(flowManager.setup, old(flowManager.model), flowManager.model, d.packet, fate)
      ensures d.Other? ==> flowManager.model == old(flowManager.model) && setter.answers == old(setter.answers) + [Answer(d.id, NF_ACCEPT)]
    {
      hide FlowManager.TableValid, Settled, Carried, Arranged, ToldOnce, AddPacket, Added;
      numPackets := numPackets + 1;
      match d
      case Other(id) =>
        OtherIsSettled(setter.verdictAfterClassification, received, setter.answers, flowManager.model, id);
        var _ := setter.SetVerdict(id, NF_ACCEPT);
        received := received + [id];
      case Transport(packet) =>
        var fate := HandleTransport(packet);
    }

    // ---------- the worker threads ----------

    method Look(q: nat)
      requires Valid() && q < |flowManager.hands| && flowManager.hands[q].AtRest?
      modifies flowManager
      ensures Valid() && flowManager.parts == old(flowManager.parts)
    {
      hide FlowManager.TableValid, Settled, Carried, Arranged, ToldOnce;
      var _ := flowManager.Look(q);
      SameLinesAreSettled(setter.verdictAfterClassification, received, setter.answers, old(flowManager.model), flowManager.model);
    }

    method Fetch(q: nat)
      requires Valid() && q < |flowManager.hands| && flowManager.hands[q].SetOut?
      modifies flowManager
      ensures Valid() && flowManager.parts == old(flowManager.parts)
    {
      hide FlowManager.TableValid, Settled, Carried, Arranged, ToldOnce;
      var _ := flowManager.Fetch(q);
      SameLinesAreSettled(setter.verdictAfterClassification, received, setter.answers, old(flowManager.model), flowManager.model);
    }

    /** The packet that a worker holds is processed, has told its verdict, and is gone. */
    method Serve(q: nat) returns (packet: IPv4Packet)
      requires Valid() && q < |flowManager.hands| && flowManager.hands[q].Holds?
      modifies setter, flowManager, flowManager.parts, flowManager.hands[q].packet
      ensures Valid() && fresh(flowManager.parts - old(flowManager.parts))
      ensures packet == old(flowManager.hands[q].packet) && packet.told == [NF_ACCEPT]
      ensures ServedNow(flowManager.setup, old(flowManager.model), flowManager.model, q, packet.data)
      ensures setter.answers == old(setter.answers) + if setter.verdictAfterClassification then [Answer(packet.data.id, NF_ACCEPT)] else []
    {
      hide FlowManager.TableValid, Settled, Carried, Arranged, ServedNow;
      ghost var m, answers := flowManager.model, setter.answers;
      packet := flowManager.Serve(q);
      ServedIsSettled(setter.verdictAfterClassification, received, answers, flowManager.setup, m, flowManager.model, q, packet.data);
    }

    // ---------- shutdown and the final call ----------

    method Shutdown()
      requires Valid()
      modifies this`shutdown, flowManager
      ensures Valid() && shutdown && flowManager.shutdown && flowManager.parts == old(flowManager.parts)
    {
      hide FlowManager.TableValid, Settled, Carried, Arranged, ToldOnce;
      shutdown := true;
      flowManager.Shutdown();
      SameLinesAreSettled(setter.verdictAfterClassification, received, setter.answers, old(flowManager.model), flowManager.model);
    }

    method Close() returns (closed: bool)
      requires Valid() && !flowManager.finishing
      modifies flowManager
      ensures Valid() && flowManager.parts == old(flowManager.parts)
    {
      hide FlowManager.TableValid, Settled, Carried, Arranged, ToldOnce;
      closed := flowManager.Close();
      SameLinesAreSettled(setter.verdictAfterClassification, received, setter.answers, old(flowManager.model), flowManager.model);
    }

    method FinishFlows() returns (done: bool)
      requires Valid() && flowManager.finishing
      modifies flowManager, flowManager.parts
      ensures Valid() && flowManager.parts == old(flowManager.parts)
      ensures done <==> forall h :: h in old(flowManager.model).flows ==> !HasPackets(old(flowManager.model).flows[h].flow)
    {
      hide FlowManager.TableValid, Settled, Carried, Arranged, HasPackets, Finish;
      flowManager.ModelAgrees();
      ghost var order;
      done, order := flowManager.FinishFlows();
      FinishingAllTraffic(flowManager.setup, old(flowManager.model), order);
      SameLinesAreSettled(setter.verdictAfterClassification, received, setter.answers, old(flowManager.model), flowManager.model);
    }

    // ---------- what holds after any of these calls ----------

    /** The handler's counter is the sum of its statistics, plus the packets still queued or being processed
        only where the verdict waits for the flow manager; the drops counted are the manager's. */
    lemma StatisticsAddUp()
      requires Valid()
      ensures numPackets == Total(setter.verdictStats) + if setter.verdictAfterClassification then TotalLength(flowManager.lines) else 0
      ensures setter.verdictStats[NF_DROP] == if setter.verdictAfterClassification then |flowManager.model.history.dropped| else 0
    {
      hide FlowManager.TableValid, Carried, ToldOnce;
      TotalOfTally(setter.answers);
      QueueLengths(QueuedIds(flowManager.model.lines));
      SameLengths(QueuedIds(flowManager.model.lines), flowManager.lines);
      ghost var waiting := AllQueued(QueuedIds(flowManager.model.lines));
      assert |multiset(received)| == |multiset(Ids(setter.answers))| + if setter.verdictAfterClassification then |waiting| else 0;
    }

    /** No packet number is answered more often than it was received, and no packet object passes on more
        than one verdict: those no longer queued or being processed have passed on exactly one. */
    lemma NoVerdictTwice(id: nat)
      requires Valid()
      ensures multiset(Ids(setter.answers))[id] <= multiset(received)[id]
      ensures forall o :: o in made ==> |o.told| == if o in Objects(flowManager.lines) then 0 else 1
    {
      hide FlowManager.TableValid, Carried, Arranged, AllQueued;
    }
  }
}
