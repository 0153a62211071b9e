/**
  The control part of a flow told by its packets alone: which of them are data, which is
  the first payload, and what every counter, direction and time then says.
*/
module ControlHistory {
  import opened Packets
  import opened FlowKey
  import opened FlowControl

  /** Packet `i` of a flow counts as data: the flow was not over, the packet does not end a TCP
      connection, and it is not an empty SYN or ACK. */
  ghost predicate CountsAsData(t: Tuple, ps: seq<Packet>, i: nat)
    requires i < |ps|
  {
    && StateOf(t, ps[..i]) != Finished
    && (ps[i].IsTcp() ==> !ps[i].flags.fin && !ps[i].flags.rst && (ps[i].payload == [] ==> !ps[i].flags.syn && !ps[i].flags.ack))
  }

  /** The positions of the data packets. */
  ghost function DataPackets(t: Tuple, ps: seq<Packet>): (d: seq<nat>)
    ensures forall k :: 0 <= k < |d| ==> d[k] < |ps|
  {
    if ps == [] then []
    else DataPackets(t, ps[..|ps| - 1]) + if CountsAsData(t, ps, |ps| - 1) then [|ps| - 1] else []
  }

  /** Packet `i` is handed on as the first payload: it is the first packet, and UDP; or it runs from the
      originator to the responder of an established flow, does not end it, and no payload came before. */
  ghost predicate Flagged(t: Tuple, ps: seq<Packet>, i: nat)
    requires i < |ps|
    decreases i
  {
    if ps[i].IsUdp() then i == 0
    else
      && !ps[i].flags.fin && !ps[i].flags.rst
      && StateOf(t, ps[..i]) == Established && PacketDirection(t, ps[i].tuple) == OrigToDest
      && forall j :: 0 <= j < i && ps[j].payload != [] ==> !Flagged(t, ps, j)
  }

  /** The part of a payload that is kept. */
  function Kept(payload: seq<Byte>): seq<Byte> {
    if |payload| <= 2048 then payload else payload[..2048]
  }

  /** The bytes of the first flagged payload, if there is one. */
  ghost predicate KeepsFirst(t: Tuple, ps: seq<Packet>, data: seq<Byte>) {
    if data == [] then forall i :: 0 <= i < |ps| && ps[i].payload != [] ==> !Flagged(t, ps, i)
    else exists i :: 0 <= i < |ps| && ps[i].payload != [] && Flagged(t, ps, i) && data == Kept(ps[i].payload)
  }

  function DirectionAt(t: Tuple, ps: seq<Packet>, i: nat): Direction
    requires i < |ps|
  {
    PacketDirection(t, ps[i].tuple)
  }

  /** A flow that has seen no packet. */
  ghost predicate JustMade(c: Control) {
    && c.state == New && c.pktCount == 0 && c.overallPktCount == 0 && c.firstData == []
    && c.currentDirection == Unknown && c.lastDirection == Unknown
  }

  /** What a flow's control holds after its packets. */
  ghost predicate Tells(c: Control, ps: seq<Packet>, r: Control) {
    var t, d := c.tuple, DataPackets(c.tuple, ps);
    && r.tuple == t && r.state == StateOf(t, ps) && r.overallPktCount == |ps|
    && r.pktCount == |d|
    && r.currentDirection == (if d == [] then Unknown else DirectionAt(t, ps, d[|d| - 1]))
    && r.lastDirection == (if |d| < 2 then Unknown else DirectionAt(t, ps, d[|d| - 2]))
    && r.lastSeconds == (if d == [] then c.lastSeconds else ps[d[|d| - 1]].seconds)
    && (ps != [] ==> (r.isFirstPacket <==> Flagged(t, ps, |ps| - 1)))
    && KeepsFirst(t, ps, r.firstData)
  }

  // ---------- histories grow ----------

  lemma {:induction false} FlaggedLocally(t: Tuple, ps: seq<Packet>, n: nat, i: nat)
    requires i < n <= |ps|
    ensures Flagged(t, ps[..n], i) == Flagged(t, ps, i)
    decreases i
  {
    hide StateOf, PacketDirection;
    assert ps[..n][..i] == ps[..i];
    forall j | 0 <= j < i ensures Flagged(t, ps[..n], j) == Flagged(t, ps, j) {
      FlaggedLocally(t, ps, n, j);
    }
  }

  lemma DataLocally(t: Tuple, ps: seq<Packet>)
    requires ps != []
    ensures var n := |ps| - 1;
            DataPackets(t, ps) == DataPackets(t, ps[..n]) + if CountsAsData(t, ps, n) then [n] else []
  {
  }

  lemma KeptIsNotEmpty(payload: seq<Byte>)
    ensures Kept(payload) == [] <==> payload == []
  {
  }

  lemma KeepsLocally(t: Tuple, ps: seq<Packet>, data: seq<Byte>)
    requires ps != [] && KeepsFirst(t, ps[..|ps| - 1], data)
    ensures var n := |ps| - 1;
            && (Flagged(t, ps, n) && ps[n].payload != [] && data == [] ==> KeepsFirst(t, ps, Kept(ps[n].payload)))
            && (!Flagged(t, ps, n) || ps[n].payload == [] ==> KeepsFirst(t, ps, data))
            && (data == [] <==> forall j :: 0 <= j < n && ps[j].payload != [] ==> !Flagged(t, ps, j))
  {
    hide Flagged, Kept;
    var n := |ps| - 1;
    var front := ps[..n];
    KeptIsNotEmpty(ps[n].payload);
    forall i | 0 <= i < n ensures front[i] == ps[i] && Flagged(t, front, i) == Flagged(t, ps, i) {
      FlaggedLocally(t, ps, n, i);
    }
    if data != [] {
      var i :| 0 <= i < n && front[i].payload != [] && Flagged(t, front, i) && data == Kept(front[i].payload);
      assert ps[i].payload != [] && Flagged(t, ps, i) && data == Kept(ps[i].payload);
    }
  }

  /** The first payload of a TCP flow, by what is kept so far. */
  lemma FlaggedLast(t: Tuple, ps: seq<Packet>, data: seq<Byte>)
    requires ps != [] && KeepsFirst(t, ps[..|ps| - 1], data)
    ensures var n := |ps| - 1;
            Flagged(t, ps, n) <==>
              if ps[n].IsUdp() then n == 0
              else !ps[n].flags.fin && !ps[n].flags.rst && StateOf(t, ps[..n]) == Established && PacketDirection(t, ps[n].tuple) == OrigToDest && data == []
  {
    hide StateOf, PacketDirection, KeepsFirst;
    KeepsLocally(t, ps, data);
  }

  lemma Truncates(payload: seq<Byte>)
    ensures Truncated(payload) == Kept(payload)
  {
  }

  /** What a packet is taken for follows from the state and from what is kept. */
  lemma ArrivesAsTold(t: Tuple, ps: seq<Packet>, c: Control)
    requires ps != [] && c.tuple == t && c.state == StateOf(t, ps[..|ps| - 1]) && KeepsFirst(t, ps[..|ps| - 1], c.firstData)
    ensures Arrive(c, ps[|ps| - 1]).isFirst <==> Flagged(t, ps, |ps| - 1)
    ensures IsData(c, ps[|ps| - 1]) <==> CountsAsData(t, ps, |ps| - 1)
    ensures Arrive(c, ps[|ps| - 1]).isFirst ==> c.firstData == []
  {
    hide SomeEnds, SomeAnswers, PacketDirection, Flagged, KeepsFirst;
    FlaggedLast(t, ps, c.firstData);
    KeepsLocally(t, ps, c.firstData);
  }

  lemma StepCounts(c: Control, p: Packet)
    ensures var r := Step(c, p);
            && r.isFirstPacket == Arrive(c, p).isFirst && r.tuple == c.tuple && r.state == Arrive(c, p).state
            && r.overallPktCount == c.overallPktCount + 1
            && r.firstData == (if Arrive(c, p).isFirst then Truncated(p.payload) else c.firstData)
            && if IsData(c, p) then
                 && r.pktCount == c.pktCount + 1 && r.lastDirection == c.currentDirection
                 && r.currentDirection == PacketDirection(c.tuple, p.tuple) && r.lastSeconds == p.seconds
               else
                 && r.pktCount == c.pktCount && r.lastDirection == c.lastDirection
                 && r.currentDirection == c.currentDirection && r.lastSeconds == c.lastSeconds
  {
    hide Arrive, CarriesData, Truncated;
  }

  lemma StepTells(c: Control, ps: seq<Packet>, before: Control)
    requires JustMade(c) && ps != [] && Tells(c, ps[..|ps| - 1], before)
    requires Step(before, ps[|ps| - 1]).state == StateOf(c.tuple, ps)
    ensures Tells(c, ps, Step(before, ps[|ps| - 1]))
  {
    hide StateOf, PacketDirection, Flagged, KeepsFirst, DataPackets, CountsAsData, IsData, Arrive, Step, Truncated, Kept;
    var n, t := |ps| - 1, c.tuple;
    DataLocally(t, ps);
    KeepsLocally(t, ps, before.firstData);
    ArrivesAsTold(t, ps, before);
    StepCounts(before, ps[n]);
    Truncates(ps[n].payload);
    if ps[n].payload == [] {
      Truncates([]);
      assert Kept([]) == [] by { NothingIsKept(); }
    }
    assert DataPackets(t, ps[..n]) + [] == DataPackets(t, ps[..n]);
  }

  lemma NothingIsKept()
    ensures Kept([]) == []
  {
  }

  /** Whatever packets a flow has seen, its control holds exactly this. */
  lemma {:induction false} ControlHasClosedForm(c: Control, ps: seq<Packet>)
    requires JustMade(c)
    ensures Tells(c, ps, Run(c, ps))
  {
    hide Tells, Step;
    if ps == [] {
      NothingIsTold(c);
    } else {
      ControlHasClosedForm(c, ps[..|ps| - 1]);
      StateHasClosedForm(c, ps);
      StepTells(c, ps, Run(c, ps[..|ps| - 1]));
    }
  }

  lemma NothingIsTold(c: Control)
    requires JustMade(c)
    ensures Tells(c, [], c)
  {
  }

  /** A packet of any history is flagged, and counted, exactly so. */
  lemma EachPacketIsTold(c: Control, ps: seq<Packet>, i: nat)
    requires JustMade(c) && i < |ps|
    ensures Run(c, ps[..i + 1]).isFirstPacket <==> Flagged(c.tuple, ps, i)
    ensures Run(c, ps[..i + 1]).pktCount == Run(c, ps[..i]).pktCount + if CountsAsData(c.tuple, ps, i) then 1 else 0
  {
    hide Run, StateOf, Flagged, KeepsFirst, PacketDirection;
    ControlHasClosedForm(c, ps[..i + 1]);
    ControlHasClosedForm(c, ps[..i]);
    FlaggedLocally(c.tuple, ps, i + 1, i);
    assert ps[..i + 1][..i] == ps[..i];
    DataLocally(c.tuple, ps[..i + 1]);
  }
}
