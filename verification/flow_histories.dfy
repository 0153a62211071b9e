/**
  What the meters of a flow hold, told by the flow's packets alone: which packets they
  are shown, in what direction each ran, and what is counted of them.
*/
module FlowHistories {
  import opened Packets
  import opened FlowKey
  import opened FlowControl
  import opened ControlHistory
  import opened Meters
  import opened MeterLaws
  import opened Classifier
  import opened FlowModel
  import opened FlowLaws

  // ---------- what the meters are shown ----------

  /** Call `k` shows the meters data packet `k`, and the flow as that packet leaves it, but for the clock. */
  ghost predicate Shows(first: Packet, ps: seq<Packet>, k: nat, call: Call) {
    var t, d := first.tuple, DataPackets(first.tuple, ps);
    k < |d| &&
    var i, c := d[k], call.flow;
    && call.packet == ps[i]
    && c.tuple == t && c.state == StateOf(t, ps[..i + 1]) && c.overallPktCount == i + 1 && c.pktCount == k + 1
    && c.currentDirection == DirectionAt(t, ps, i)
    && c.lastDirection == (if k == 0 then Unknown else DirectionAt(t, ps, d[k - 1]))
    && c.lastSeconds == (if k == 0 then first.seconds else ps[d[k - 1]].seconds)
    && (c.isFirstPacket <==> Flagged(t, ps, i))
    && KeepsFirst(t, ps[..i + 1], c.firstData)
  }

  /** The flow is still unclassified when data packet `k` comes, and that is within the cut-off limit. */
  ghost predicate LooksAtData(env: Env, first: Packet, junk: Junk, ps: seq<Packet>, k: nat)
    requires env.Valid()
  {
    FreshFlowIsValid(env, first, junk);
    var d := DataPackets(first.tuple, ps);
    k < |d| && k < env.db.cutoffLimit && !FlowRun(env, FreshFlow(env, first, junk), ps[..d[k]]).verdict.classified
  }

  ghost predicate AllShown(env: Env, first: Packet, junk: Junk, ps: seq<Packet>, calls: seq<Call>)
    requires env.Valid()
  {
    && (forall k :: 0 <= k < |calls| ==> Shows(first, ps, k, calls[k]))
    && (forall k: nat :: k < |calls| <==> LooksAtData(env, first, junk, ps, k))
  }

  lemma DataGrows(t: Tuple, ps: seq<Packet>, k: nat)
    requires ps != [] && k < |DataPackets(t, ps[..|ps| - 1])|
    ensures k < |DataPackets(t, ps)| && DataPackets(t, ps)[k] == DataPackets(t, ps[..|ps| - 1])[k]
  {
  }

  lemma ShowsLater(first: Packet, ps: seq<Packet>, k: nat, call: Call)
    requires ps != [] && Shows(first, ps[..|ps| - 1], k, call)
    ensures Shows(first, ps, k, call)
  {
    hide StateOf, KeepsFirst, Flagged, PacketDirection, DataPackets;
    var t, n := first.tuple, |ps| - 1;
    DataGrows(t, ps, k);
    var i := DataPackets(t, ps)[k];
    if k > 0 {
      DataGrows(t, ps, k - 1);
    }
    FlaggedLocally(t, ps, n, i);
    assert ps[..n][..i + 1] == ps[..i + 1];
  }

  lemma LooksLater(env: Env, first: Packet, junk: Junk, ps: seq<Packet>, k: nat)
    requires env.Valid() && ps != [] && k < |DataPackets(first.tuple, ps[..|ps| - 1])|
    ensures LooksAtData(env, first, junk, ps[..|ps| - 1], k) == LooksAtData(env, first, junk, ps, k)
  {
    hide FlowRun, DataPackets, Env.Valid;
    DataGrows(first.tuple, ps, k);
    assert ps[..|ps| - 1][..DataPackets(first.tuple, ps)[k]] == ps[..DataPackets(first.tuple, ps)[k]];
  }

  lemma FlowTells(env: Env, first: Packet, junk: Junk, ps: seq<Packet>)
    requires env.Valid()
    ensures ValidFlow(env, FreshFlow(env, first, junk)) && Tells(Fresh(first), ps, FlowRun(env, FreshFlow(env, first, junk), ps).control)
  {
    hide Tells, FlowRun, ValidFlow;
    FreshFlowIsValid(env, first, junk);
    ControlHasClosedForm(Fresh(first), ps);
    ControlRunsAlone(env, FreshFlow(env, first, junk), ps);
  }

  /** The last packet is shown as it should be. */
  lemma LastIsShown(first: Packet, ps: seq<Packet>, before: Control)
    requires ps != [] && Tells(Fresh(first), ps[..|ps| - 1], before) && Tells(Fresh(first), ps, FlowControl.Step(before, ps[|ps| - 1]))
    ensures IsData(before, ps[|ps| - 1]) <==> CountsAsData(first.tuple, ps, |ps| - 1)
    ensures IsData(before, ps[|ps| - 1]) ==> Shows(first, ps, before.pktCount, Call(Seen(before, ps[|ps| - 1]), ps[|ps| - 1]))
  {
    hide StateOf, KeepsFirst, Flagged, PacketDirection, DataPackets, CountsAsData, FlowControl.Step, IsData;
    var n := |ps| - 1;
    DataLocally(first.tuple, ps);
    ArrivesAsTold(first.tuple, ps, before);
    assert ps[..n + 1] == ps;
  }

  lemma OneMoreShown(env: Env, first: Packet, junk: Junk, ps: seq<Packet>, calls: seq<Call>)
    requires env.Valid() && ps != [] && ValidFlow(env, FreshFlow(env, first, junk))
    requires AllShown(env, first, junk, ps[..|ps| - 1], calls)
    requires CallsKeptUp(env, FlowRun(env, FreshFlow(env, first, junk), ps[..|ps| - 1]), calls)
    ensures var before := FlowRun(env, FreshFlow(env, first, junk), ps[..|ps| - 1]);
            AllShown(env, first, junk, ps, calls + if Measures(env, before, ps[|ps| - 1]) then [Call(Seen(before.control, ps[|ps| - 1]), ps[|ps| - 1])] else [])
  {
    hide FlowRun, ValidFlow, Env.Valid, Shows, Tells, IsData, Seen, Chained, Consecutive, DataPackets;
    var t, n, f := first.tuple, |ps| - 1, FreshFlow(env, first, junk);
    var before := FlowRun(env, f, ps[..n]);
    FlowTells(env, first, junk, ps[..n]);
    FlowTells(env, first, junk, ps);
    LastFlowStep(env, f, ps);
    LastIsShown(first, ps, before.control);
    DataCounted(first, ps, before.control);
    forall k | 0 <= k < |calls| ensures Shows(first, ps, k, calls[k]) {
      ShowsLater(first, ps, k, calls[k]);
    }
    forall k: nat | k < before.control.pktCount ensures LooksAtData(env, first, junk, ps[..n], k) == LooksAtData(env, first, junk, ps, k) {
      LooksLater(env, first, junk, ps, k);
    }
    assert calls + [] == calls;
  }

  lemma LastFlowStep(env: Env, f: FlowData, ps: seq<Packet>)
    requires env.Valid() && ValidFlow(env, f) && ps != []
    ensures FlowRun(env, f, ps).control == FlowControl.Step(FlowRun(env, f, ps[..|ps| - 1]).control, ps[|ps| - 1])
  {
    hide ValidFlow, FlowControl.Step, MeasureEach, ScoresAfter, Measures, Round;
  }

  lemma DataCounted(first: Packet, ps: seq<Packet>, before: Control)
    requires ps != [] && Tells(Fresh(first), ps[..|ps| - 1], before)
    ensures var d, n := DataPackets(first.tuple, ps), |ps| - 1;
            && before.pktCount == |DataPackets(first.tuple, ps[..n])|
            && |d| == before.pktCount + (if CountsAsData(first.tuple, ps, n) then 1 else 0)
            && (CountsAsData(first.tuple, ps, n) ==> d[before.pktCount] == n)
  {
    hide StateOf, KeepsFirst, Flagged, PacketDirection, CountsAsData;
  }

  /** The meters are shown the flow's data packets, in order and without gaps, until the flow is classified or
      past the cut-off limit; and each time the flow as its packets have made it. */
  lemma {:induction false} MetersAreShownTheData(env: Env, first: Packet, junk: Junk, ps: seq<Packet>)
    requires env.Valid()
    ensures ValidFlow(env, FreshFlow(env, first, junk)) && AllShown(env, first, junk, ps, Calls(env, FreshFlow(env, first, junk), ps))
  {
    hide FlowRun, ValidFlow, AllShown, CallsKeptUp, Measures;
    FreshFlowIsValid(env, first, junk);
    if ps == [] {
      NothingIsShown(env, first, junk);
    } else {
      MetersAreShownTheData(env, first, junk, ps[..|ps| - 1]);
      CallsAreConsecutive(env, FreshFlow(env, first, junk), ps[..|ps| - 1]);
      OneMoreShown(env, first, junk, ps, Calls(env, FreshFlow(env, first, junk), ps[..|ps| - 1]));
    }
  }

  lemma NothingIsShown(env: Env, first: Packet, junk: Junk)
    requires env.Valid()
    ensures AllShown(env, first, junk, [], [])
  {
    hide FlowRun;
  }

  // ---------- what the meters hold ----------

  ghost predicate AllShow(first: Packet, ps: seq<Packet>, calls: seq<Call>) {
    forall k :: 0 <= k < |calls| ==> Shows(first, ps, k, calls[k])
  }

  /** The number of data packets that a flow has looked at. */
  ghost function LookedAt(env: Env, first: Packet, junk: Junk, ps: seq<Packet>): nat
    requires env.Valid()
  {
    FreshFlowIsValid(env, first, junk);
    |Calls(env, FreshFlow(env, first, junk), ps)|
  }

  /** These are the data packets up to the first that a flow does not look at. */
  lemma LooksUntil(env: Env, first: Packet, junk: Junk, ps: seq<Packet>, k: nat)
    requires env.Valid()
    ensures k < LookedAt(env, first, junk, ps) <==> LooksAtData(env, first, junk, ps, k)
    ensures LookedAt(env, first, junk, ps) <= |DataPackets(first.tuple, ps)|
  {
    hide Shows, Calls, DataPackets, Env.Valid;
    MetersAreShownTheData(env, first, junk, ps);
    var n := LookedAt(env, first, junk, ps);
    if n > 0 {
      assert LooksAtData(env, first, junk, ps, n - 1);
    }
  }

  /** Each meter holds what the data packets that the flow has looked at make of it. */
  lemma MeterOfAFlow(env: Env, first: Packet, junk: Junk, ps: seq<Packet>, k: nat) returns (calls: seq<Call>)
    requires env.Valid() && k < |env.kinds|
    ensures ValidFlow(env, FreshFlow(env, first, junk)) && calls == Calls(env, FreshFlow(env, first, junk), ps)
    ensures Consecutive(calls) && AllShow(first, ps, calls) && |calls| == LookedAt(env, first, junk, ps) <= |DataPackets(first.tuple, ps)|
    ensures FlowRun(env, FreshFlow(env, first, junk), ps).meters[k] == MeasureAll(FreshMeter(env.kinds[k], junk), calls)
  {
    hide FlowRun, Calls, Measure, Shows, Chained, DataPackets, Env.Valid, LooksAtData;
    FreshFlowIsValid(env, first, junk);
    calls := Calls(env, FreshFlow(env, first, junk), ps);
    MetersAreShownTheData(env, first, junk, ps);
    CallsAreConsecutive(env, FreshFlow(env, first, junk), ps);
    MetersHoldTheirCalls(env, FreshFlow(env, first, junk), ps, k);
    LooksUntil(env, first, junk, ps, 0);
  }

  ghost function Data(t: Tuple, ps: seq<Packet>, k: nat): Packet
    requires k < |DataPackets(t, ps)|
  {
    ps[DataPackets(t, ps)[k]]
  }

  /** Data packet `k` runs another way than the one before it; the first turns if it belongs to the flow at all. */
  ghost predicate Turns(t: Tuple, ps: seq<Packet>, k: nat)
    requires k < |DataPackets(t, ps)|
  {
    if k == 0 then SameFlow(t, Data(t, ps, 0).tuple)
    else PacketDirection(t, Data(t, ps, k).tuple) != PacketDirection(t, Data(t, ps, k - 1).tuple)
  }

  ghost function TurnsAmong(t: Tuple, ps: seq<Packet>, n: nat): nat
    requires n <= |DataPackets(t, ps)|
  {
    if n == 0 then 0 else TurnsAmong(t, ps, n - 1) + if Turns(t, ps, n - 1) then 1 else 0
  }

  lemma ShownTurns(first: Packet, ps: seq<Packet>, k: nat, call: Call)
    requires Shows(first, ps, k, call)
    ensures call.flow.lastDirection != call.flow.currentDirection <==> Turns(first.tuple, ps, k)
  {
    hide StateOf, KeepsFirst, Flagged, DataPackets, PacketDirection, SameFlow;
    DirectionTellsMembership(first.tuple, call.packet.tuple);
  }

  lemma {:induction false} ChangesAreTurns(first: Packet, ps: seq<Packet>, calls: seq<Call>)
    requires AllShow(first, ps, calls) && |calls| <= |DataPackets(first.tuple, ps)|
    ensures Changes(calls) == TurnsAmong(first.tuple, ps, |calls|)
  {
    hide Shows, DataPackets, Turns;
    if calls != [] {
      var n := |calls| - 1;
      ChangesAreTurns(first, ps, calls[..n]);
      assert Shows(first, ps, n, calls[n]);
      ShownTurns(first, ps, n, calls[n]);
    }
  }

  /** A flow's direction meter holds the share of its data packets that turned, of those looked at. */
  lemma FlowDirectionChanges(env: Env, first: Packet, junk: Junk, ps: seq<Packet>, k: nat)
    requires env.Valid() && k < |env.kinds| && env.kinds[k] == DirectionChanges
    ensures ValidFlow(env, FreshFlow(env, first, junk))
    ensures var n, m := LookedAt(env, first, junk, ps), FlowRun(env, FreshFlow(env, first, junk), ps).meters[k];
            && n <= |DataPackets(first.tuple, ps)|
            && (n > 0 ==>
                  var share := TurnsAmong(first.tuple, ps, n) as real / n as real;
                  m.fingerprint == [share, 1.0 - share])
  {
    hide FlowRun, Calls, Measure, Consecutive, DataPackets, Shows, TurnsAmong, LookedAt;
    var calls := MeterOfAFlow(env, first, junk, ps, k);
    ChangesAreTurns(first, ps, calls);
    if calls != [] {
      DirectionChangesIsTheRatio(junk, calls);
    }
  }

  /** The payload bytes of the first `n` data packets that ran in a direction. */
  ghost function BytesSent(t: Tuple, ps: seq<Packet>, n: nat, direction: Direction): nat
    requires n <= |DataPackets(t, ps)|
  {
    if n == 0 then 0
    else
      BytesSent(t, ps, n - 1, direction)
      + if PacketDirection(t, Data(t, ps, n - 1).tuple) == direction then |Data(t, ps, n - 1).payload| else 0
  }

  lemma {:induction false} BytesAreSent(first: Packet, ps: seq<Packet>, calls: seq<Call>, direction: Direction)
    requires AllShow(first, ps, calls) && |calls| <= |DataPackets(first.tuple, ps)|
    ensures BytesTowards(calls, direction) == BytesSent(first.tuple, ps, |calls|, direction)
  {
    hide StateOf, KeepsFirst, Flagged, DataPackets, PacketDirection;
    if calls != [] {
      var n := |calls| - 1;
      BytesAreSent(first, ps, calls[..n], direction);
      assert Shows(first, ps, n, calls[n]);
    }
  }

  /** A flow's byte-share meter holds each side's share of the payload bytes of the data packets looked at. */
  lemma FlowDirectionBytes(env: Env, first: Packet, junk: Junk, ps: seq<Packet>, k: nat)
    requires env.Valid() && k < |env.kinds| && env.kinds[k] == DirectionBytesCount
    ensures ValidFlow(env, FreshFlow(env, first, junk))
    ensures var n, m := LookedAt(env, first, junk, ps), FlowRun(env, FreshFlow(env, first, junk), ps).meters[k];
            && n <= |DataPackets(first.tuple, ps)|
            && var forth, back := BytesSent(first.tuple, ps, n, OrigToDest), BytesSent(first.tuple, ps, n, DestToOrig);
            m.fingerprint == if forth + back == 0 then [0.0, 0.0]
                             else [forth as real / (forth + back) as real, back as real / (forth + back) as real]
  {
    hide FlowRun, Calls, Measure, DataPackets, Shows, BytesSent, LookedAt, BytesTowards;
    var calls := MeterOfAFlow(env, first, junk, ps, k);
    BytesAreSent(first, ps, calls, OrigToDest);
    BytesAreSent(first, ps, calls, DestToOrig);
    DirectionBytesIsTheRatio(junk, calls);
  }

  // ---------- reactions ----------

  /** Data packet `k` is a reaction: it has a payload, is not the first payload of the flow, and turns. */
  ghost predicate Reacts(t: Tuple, ps: seq<Packet>, k: nat)
    requires k < |DataPackets(t, ps)|
  {
    Data(t, ps, k).payload != [] && !Flagged(t, ps, DataPackets(t, ps)[k]) && Turns(t, ps, k)
  }

  /** The digits of the last non-empty one of the first `n` data packets. */
  ghost function LastDigits(t: Tuple, ps: seq<Packet>, junk: Junk, n: nat): nat
    requires n <= |DataPackets(t, ps)|
  {
    if n == 0 then ThreeDigits(junk)
    else if Data(t, ps, n - 1).payload != [] then ThreeDigits(Data(t, ps, n - 1).payload)
    else LastDigits(t, ps, junk, n - 1)
  }

  /** The reactions among the first `n` data packets whose digits, and those before, add up to a slot. */
  ghost function ReactionsAt(t: Tuple, ps: seq<Packet>, junk: Junk, n: nat, slot: nat): nat
    requires n <= |DataPackets(t, ps)|
  {
    if n == 0 then 0
    else
      ReactionsAt(t, ps, junk, n - 1, slot)
      + if Reacts(t, ps, n - 1) && LastDigits(t, ps, junk, n - 1) + ThreeDigits(Data(t, ps, n - 1).payload) == slot then 1 else 0
  }

  lemma ShownReacts(first: Packet, ps: seq<Packet>, k: nat, call: Call)
    requires Shows(first, ps, k, call)
    ensures IsReaction(call) <==> Reacts(first.tuple, ps, k)
    ensures call.packet == Data(first.tuple, ps, k)
  {
    hide StateOf, KeepsFirst, Flagged, DataPackets, PacketDirection, Turns;
    ShownTurns(first, ps, k, call);
  }

  lemma {:induction false} ReactionsAreShown(first: Packet, ps: seq<Packet>, junk: Junk, calls: seq<Call>, slot: nat)
    requires AllShow(first, ps, calls) && |calls| <= |DataPackets(first.tuple, ps)|
    ensures ReactionsIn(junk, calls, slot) == ReactionsAt(first.tuple, ps, junk, |calls|, slot)
    ensures DigitsBefore(junk, calls) == LastDigits(first.tuple, ps, junk, |calls|)
  {
    hide Shows, DataPackets, Reacts, IsReaction, ThreeDigits;
    if calls != [] {
      var n := |calls| - 1;
      ReactionsAreShown(first, ps, junk, calls[..n], slot);
      assert Shows(first, ps, n, calls[n]);
      ShownReacts(first, ps, n, calls[n]);
    }
  }

  /** A flow's action-reaction table counts, in each slot, the reactions whose digits add up to it. */
  lemma FlowReactions(env: Env, first: Packet, junk: Junk, ps: seq<Packet>, k: nat, slot: nat)
    requires env.Valid() && k < |env.kinds| && env.kinds[k] == ActionReactionFirst3ByteHash && slot < 115
    ensures ValidFlow(env, FreshFlow(env, first, junk))
    ensures var n, m := LookedAt(env, first, junk, ps), FlowRun(env, FreshFlow(env, first, junk), ps).meters[k];
            n <= |DataPackets(first.tuple, ps)| && m.fingerprint[slot] == ReactionsAt(first.tuple, ps, junk, n, slot) as real
  {
    hide FlowRun, Calls, Measure, DataPackets, Shows, ReactionsAt, LookedAt, ReactionsIn;
    var calls := MeterOfAFlow(env, first, junk, ps, k);
    ReactionsAreShown(first, ps, junk, calls, slot);
    ActionReactionIsTheTable(junk, calls);
  }

  // ---------- the first payload ----------

  /** The payloads of the calls that are flagged. */
  function FlaggedPayloads(calls: seq<Call>): seq<Byte> {
    if calls == [] then []
    else FlaggedPayloads(calls[..|calls| - 1]) + if calls[|calls| - 1].flow.isFirstPacket then calls[|calls| - 1].packet.payload else []
  }

  lemma {:induction false} FirstPacketRun(junk: Junk, calls: seq<Call>)
    requires Counted(calls)
    ensures var m, data := MeasureAll(FreshMeter(ByteFrequencyFirstOrigToDest, junk), calls), FlaggedPayloads(calls);
            && (forall b :: 0 <= b < 256 ==> m.fingerprint[b] == multiset(data)[b] as real)
            && m.total == |data| && Sum(m.fingerprint) == m.total as real
  {
    hide CountBytes, Sum;
    if calls == [] {
      SumOfZeros(256);
    } else {
      var n := |calls| - 1;
      FirstPacketRun(junk, calls[..n]);
      var m, data := MeasureAll(FreshMeter(ByteFrequencyFirstOrigToDest, junk), calls[..n]), FlaggedPayloads(calls[..n]);
      if calls[n].flow.isFirstPacket {
        CountBytesCounts(m.fingerprint, calls[n].packet.payload);
        assert FlaggedPayloads(calls) == data + calls[n].packet.payload;
      } else {
        assert FlaggedPayloads(calls) == data;
      }
    }
  }

  /** No two non-empty packets are flagged. */
  lemma FlaggedOnce(t: Tuple, ps: seq<Packet>, i: nat, j: nat)
    requires i < j < |ps| && Flagged(t, ps, i) && ps[i].payload != []
    ensures !Flagged(t, ps, j)
  {
    hide StateOf, PacketDirection;
  }

  /** Data packet `k` carries the first payload of the flow. */
  ghost predicate CarriesFirst(t: Tuple, ps: seq<Packet>, k: nat)
    requires k < |DataPackets(t, ps)|
  {
    Data(t, ps, k).payload != [] && Flagged(t, ps, DataPackets(t, ps)[k])
  }

  lemma {:induction false} DataInOrder(t: Tuple, ps: seq<Packet>, j: nat, k: nat)
    requires j < k < |DataPackets(t, ps)|
    ensures DataPackets(t, ps)[j] < DataPackets(t, ps)[k]
  {
    hide CountsAsData;
    if ps != [] && k < |DataPackets(t, ps[..|ps| - 1])| {
      DataInOrder(t, ps[..|ps| - 1], j, k);
    }
  }

  lemma CarriedOnce(t: Tuple, ps: seq<Packet>, j: nat, k: nat)
    requires j < k < |DataPackets(t, ps)|
    ensures !(CarriesFirst(t, ps, j) && CarriesFirst(t, ps, k))
  {
    hide Flagged, DataPackets;
    DataInOrder(t, ps, j, k);
    if CarriesFirst(t, ps, j) {
      FlaggedOnce(t, ps, DataPackets(t, ps)[j], DataPackets(t, ps)[k]);
    }
  }

  lemma ShownFirst(first: Packet, ps: seq<Packet>, k: nat, call: Call)
    requires Shows(first, ps, k, call)
    ensures call.flow.isFirstPacket && call.packet.payload != [] <==> CarriesFirst(first.tuple, ps, k)
    ensures call.packet == Data(first.tuple, ps, k)
  {
    hide StateOf, KeepsFirst, Flagged, DataPackets, PacketDirection;
  }

  lemma {:induction false} FirstPayloadIsShown(first: Packet, ps: seq<Packet>, calls: seq<Call>)
    requires AllShow(first, ps, calls) && |calls| <= |DataPackets(first.tuple, ps)|
    ensures forall k :: 0 <= k < |calls| && CarriesFirst(first.tuple, ps, k) ==> FlaggedPayloads(calls) == Data(first.tuple, ps, k).payload
    ensures (forall k :: 0 <= k < |calls| ==> !CarriesFirst(first.tuple, ps, k)) ==> FlaggedPayloads(calls) == []
  {
    hide Shows, DataPackets, CarriesFirst, Data;
    if calls != [] {
      var n, t := |calls| - 1, first.tuple;
      var front := FlaggedPayloads(calls[..n]);
      FirstPayloadIsShown(first, ps, calls[..n]);
      assert Shows(first, ps, n, calls[n]);
      ShownFirst(first, ps, n, calls[n]);
      forall k | 0 <= k < n ensures !(CarriesFirst(t, ps, k) && CarriesFirst(t, ps, n)) {
        CarriedOnce(t, ps, k, n);
      }
      if CarriesFirst(t, ps, n) {
        assert front == [];
      } else {
        assert FlaggedPayloads(calls) == front + [];
      }
    }
  }

  /** The first-packet meter is the byte histogram of the first payload, if that was among the data packets
      looked at, and all zero only if it was not; what is read from it sums to 1, or is all zero. */
  lemma FirstPayloadHistogram(env: Env, first: Packet, junk: Junk, ps: seq<Packet>, k: nat)
    requires env.Valid() && k < |env.kinds| && env.kinds[k] == ByteFrequencyFirstOrigToDest
    ensures ValidFlow(env, FreshFlow(env, first, junk))
    ensures var t, n, m := first.tuple, LookedAt(env, first, junk, ps), FlowRun(env, FreshFlow(env, first, junk), ps).meters[k];
            && n <= |DataPackets(t, ps)| && |m.fingerprint| == 256
            && (forall a :: 0 <= a < n && CarriesFirst(t, ps, a) ==>
                              && (forall b :: 0 <= b < 256 ==> m.fingerprint[b] == multiset(Data(t, ps, a).payload)[b] as real)
                              && IsDistribution(m.Probabilities()))
            && ((forall a :: 0 <= a < n ==> !CarriesFirst(t, ps, a)) ==> m.fingerprint == Zeros(256) == m.Probabilities())
  {
    hide FlowRun, Calls, Measure, DataPackets, Shows, CarriesFirst, LookedAt, FlaggedPayloads, IsDistribution;
    var calls := MeterOfAFlow(env, first, junk, ps, k);
    FirstPacketRun(junk, calls);
    FirstPayloadIsShown(first, ps, calls);
    var m := MeasureAll(FreshMeter(ByteFrequencyFirstOrigToDest, junk), calls);
    forall a | 0 <= a < |calls| && CarriesFirst(first.tuple, ps, a) ensures IsDistribution(m.Probabilities()) {
      FirstPayloadIsNotEmpty(first.tuple, ps, a);
      HistogramIsADistribution(m);
    }
    if forall a :: 0 <= a < |calls| ==> !CarriesFirst(first.tuple, ps, a) {
      assert m.fingerprint == Zeros(256);
      assert m.Probabilities() == Zeros(256);
    }
  }

  lemma FirstPayloadIsNotEmpty(t: Tuple, ps: seq<Packet>, k: nat)
    requires k < |DataPackets(t, ps)| && CarriesFirst(t, ps, k)
    ensures |Data(t, ps, k).payload| > 0
  {
  }
}
