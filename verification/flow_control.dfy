/**
  The control part of a flow (src/common/src/Flow.cpp): the state machine, the
  packet counters and the choice of the packets that count as data.  Nothing
  here depends on measurements or on classification.
*/
module FlowControl {
  import opened Packets
  import opened FlowKey

  const PACKET_MAX_BUFFER_SIZE := 2048

  datatype State = New | Establishing | Established | Finishing | Finished | FinishedNotified

  datatype Control = Control(
    tuple: Tuple,
    state: State,
    pktCount: nat,            // data packets
    overallPktCount: nat,     // all packets
    isFirstPacket: bool,
    firstData: seq<Byte>,     // first payload from originator to responder
    currentDirection: Direction,
    lastDirection: Direction,
    lastSeconds: int)         // time of the last data packet

  /** A new flow, named after the packet that caused it. */
  function Fresh(p: Packet): Control {
    Control(p.tuple, New, 0, 0, false, [], Unknown, Unknown, p.seconds)
  }

  /** What the state machine makes of a packet: the next state, whether the packet
      goes no further, and whether it is the first payload of the flow. */
  datatype Arrival = Arrival(state: State, stops: bool, isFirst: bool)

  function Arrive(c: Control, p: Packet): Arrival {
    var direction := PacketDirection(c.tuple, p.tuple);
    match c.state
    case New =>
      if p.IsUdp() then Arrival(Establishing, false, true)
      else if p.flags.fin || p.flags.rst then Arrival(Finished, true, false)
      else if !p.flags.syn then Arrival(Finished, false, false)
      else Arrival(Establishing, false, false)
    case Establishing =>
      if p.IsUdp() then Arrival(if direction == DestToOrig then Established else Establishing, false, false)
      else if p.flags.fin || p.flags.rst then Arrival(Finished, true, false)
      else if p.flags.syn then Arrival(Establishing, false, false)
      else Arrival(Established, false, false)
    case Established =>
      if p.IsTcp() then
        if p.flags.fin then Arrival(Finished, true, false)
        else if p.flags.rst then Arrival(Finished, true, false)
        else Arrival(Established, false, |c.firstData| == 0 && direction == OrigToDest)
      else Arrival(Established, false, false)
    case Finishing =>
      if p.IsTcp() && (p.flags.fin || p.flags.rst) then Arrival(Finished, true, false)
      else Arrival(Finishing, false, false)
    case Finished => Arrival(Finished, true, false)
    case FinishedNotified => Arrival(FinishedNotified, true, false)
  }

  /** Empty TCP packets with SYN or ACK are not data. */
  predicate CarriesData(p: Packet) {
    !(p.IsTcp() && p.Size() == 0 && (p.flags.syn || p.flags.ack))
  }

  /** Whether the flow counts `p` as a data packet. */
  predicate IsData(c: Control, p: Packet) {
    !Arrive(c, p).stops && CarriesData(p)
  }

  function Truncated(payload: seq<Byte>): seq<Byte> {
    if PACKET_MAX_BUFFER_SIZE < |payload| then payload[..PACKET_MAX_BUFFER_SIZE] else payload
  }

  function Step(c: Control, p: Packet): Control {
    var a := Arrive(c, p);
    var c := c.(overallPktCount := c.overallPktCount + 1, state := a.state, isFirstPacket := a.isFirst,
                firstData := if a.isFirst then Truncated(p.payload) else c.firstData);
    if !a.stops && CarriesData(p) then
      c.(pktCount := c.pktCount + 1, lastDirection := c.currentDirection,
         currentDirection := PacketDirection(c.tuple, p.tuple), lastSeconds := p.seconds)
    else c
  }

  /** The flow `c` after the packets `ps`. */
  function Run(c: Control, ps: seq<Packet>): Control {
    if ps == [] then c else Step(Run(c, ps[..|ps| - 1]), ps[|ps| - 1])
  }

  // ---------- the state machine in closed form ----------

  function Rank(s: State): nat {
    match s
    case New => 0
    case Establishing => 1
    case Established => 2
    case Finishing => 3
    case Finished => 4
    case FinishedNotified => 5
  }

  /** Packet `i` ends the flow: a TCP packet with FIN or RST, or a first TCP packet without SYN. */
  predicate Ends(ps: seq<Packet>, i: nat)
    requires i < |ps|
  {
    !ps[i].IsUdp() && (ps[i].flags.fin || ps[i].flags.rst || (i == 0 && !ps[i].flags.syn))
  }

  /** Packet `i` shows an answer: after the first packet, a UDP reply or a TCP packet without SYN. */
  predicate Answers(t: Tuple, ps: seq<Packet>, i: nat)
    requires i < |ps|
  {
    i > 0 && if ps[i].IsUdp() then PacketDirection(t, ps[i].tuple) == DestToOrig else !ps[i].flags.syn
  }

  ghost predicate SomeEnds(ps: seq<Packet>) {
    exists i :: 0 <= i < |ps| && Ends(ps, i)
  }

  ghost predicate SomeAnswers(t: Tuple, ps: seq<Packet>) {
    exists i :: 0 <= i < |ps| && Answers(t, ps, i)
  }

  ghost function StateOf(t: Tuple, ps: seq<Packet>): State {
    if ps == [] then New
    else if SomeEnds(ps) then Finished
    else if SomeAnswers(t, ps) then Established
    else Establishing
  }

  lemma LastPacketEndsOrAnswers(t: Tuple, ps: seq<Packet>)
    requires ps != []
    ensures var n := |ps| - 1;
            && (SomeEnds(ps) <==> SomeEnds(ps[..n]) || Ends(ps, n))
            && (SomeAnswers(t, ps) <==> SomeAnswers(t, ps[..n]) || Answers(t, ps, n))
  {
    hide PacketDirection;
    var n := |ps| - 1;
    var front := ps[..n];
    forall i | 0 <= i < n ensures Ends(front, i) == Ends(ps, i) && Answers(t, front, i) == Answers(t, ps, i) {
      assert front[i] == ps[i];
    }
  }

  lemma StepFollowsArrival(c: Control, p: Packet)
    ensures Step(c, p).state == Arrive(c, p).state
    ensures Step(c, p).tuple == c.tuple
    ensures Step(c, p).overallPktCount == c.overallPktCount + 1
  {
    hide Arrive;
  }

  /** Whatever packets a flow has seen, in whatever mix, its state is this. */
  lemma {:induction false} StateHasClosedForm(c: Control, ps: seq<Packet>)
    requires c.state == New
    ensures Run(c, ps).state == StateOf(c.tuple, ps)
    ensures Run(c, ps).tuple == c.tuple
    ensures Run(c, ps).overallPktCount == c.overallPktCount + |ps|
  {
    hide PacketDirection, Step, SomeEnds, SomeAnswers;
    if ps != [] {
      var n := |ps| - 1;
      StateHasClosedForm(c, ps[..n]);
      LastPacketEndsOrAnswers(c.tuple, ps);
      StepFollowsArrival(Run(c, ps[..n]), ps[n]);
      NothingBeforeTheFirstPacket(c.tuple);
    }
  }

  lemma NothingBeforeTheFirstPacket(t: Tuple)
    ensures !SomeEnds([]) && !SomeAnswers(t, [])
  {
  }

  /** States only advance, FINISHING is never entered, and a finished flow only counts packets. */
  lemma StatesOnlyAdvance(c: Control, p: Packet)
    ensures Rank(Step(c, p).state) >= Rank(c.state)
    ensures Step(c, p).state == Finishing ==> c.state == Finishing
    ensures Step(c, p).state == New ==> false
    ensures c.state in {Finished, FinishedNotified} ==>
              Step(c, p) == c.(overallPktCount := c.overallPktCount + 1, isFirstPacket := false)
    ensures c.state != FinishedNotified ==> Step(c, p).state != FinishedNotified
  {
  }

  // ---------- the first payload ----------

  /** Packet `i` is handed to the meters as the first payload of the flow, and is not empty. */
  predicate IsFirstPayload(c: Control, ps: seq<Packet>, i: nat)
    requires i < |ps|
  {
    Run(c, ps[..i + 1]).isFirstPacket && ps[i].Size() > 0
  }

  lemma RunStep(c: Control, ps: seq<Packet>, n: nat)
    requires n < |ps|
    ensures Run(c, ps[..n + 1]) == Step(Run(c, ps[..n]), ps[n])
  {
    assert ps[..n + 1][..n] == ps[..n];
  }

  lemma FirstDataIsKept(c: Control, p: Packet)
    requires c.state != New && |c.firstData| > 0
    ensures Step(c, p).state != New && Step(c, p).firstData == c.firstData
  {
    hide PacketDirection;
  }

  lemma {:induction false} FirstDataStays(c: Control, ps: seq<Packet>, i: nat, j: nat)
    requires i <= j <= |ps|
    requires Run(c, ps[..i]).state != New && |Run(c, ps[..i]).firstData| > 0
    ensures Run(c, ps[..j]).state != New && Run(c, ps[..j]).firstData == Run(c, ps[..i]).firstData
    decreases j
  {
    hide Step, Run;
    if i < j {
      FirstDataStays(c, ps, i, j - 1);
      RunStep(c, ps, j - 1);
      FirstDataIsKept(Run(c, ps[..j - 1]), ps[j - 1]);
    }
  }

  lemma FirstPayloadIsKept(c: Control, p: Packet)
    requires Step(c, p).isFirstPacket && p.Size() > 0
    ensures c.state == New || c.firstData == []
    ensures Step(c, p).state != New && Step(c, p).firstData == Truncated(p.payload) != []
    ensures IsData(c, p)
  {
    hide PacketDirection;
  }

  /** At most one non-empty packet of a flow is its first payload; it is a data packet and
      its bytes, cut to the buffer, are kept. */
  lemma FirstPayloadIsUnique(c: Control, ps: seq<Packet>, i: nat, j: nat)
    requires i < |ps| && j < |ps| && IsFirstPayload(c, ps, i) && IsFirstPayload(c, ps, j)
    ensures i == j
    ensures IsData(Run(c, ps[..i]), ps[i])
    ensures Run(c, ps).firstData == Truncated(ps[i].payload)
  {
    hide PacketDirection;
    RunStep(c, ps, i);
    RunStep(c, ps, j);
    FirstPayloadIsKept(Run(c, ps[..i]), ps[i]);
    FirstPayloadIsKept(Run(c, ps[..j]), ps[j]);
    hide Step;
    if i < j {
      FirstDataStays(c, ps, i + 1, j);
    } else if j < i {
      FirstDataStays(c, ps, j + 1, i);
    }
    FirstDataStays(c, ps, i + 1, |ps|);
    assert ps[..|ps|] == ps;
  }
}
