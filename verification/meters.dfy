/**
  Attribute meters (src/protocol_model/src/AttributeMeter.cpp and the meters
  built on it): what each of them records of a flow, packet by packet, and what
  its fingerprint means once the packets have gone by.

  `Measure` says what one packet does to a meter; the class `AttributeMeter`
  carries out the loops of the source and is proved to do the same.
*/
module Meters {
  import opened Packets
  import opened FlowKey
  import opened FlowControl

  const NUM_AR_BYTES := 3

  /** What lies in the memory that a new meter does not initialise. */
  type Junk = s: seq<Byte> | |s| == NUM_AR_BYTES witness [0, 0, 0]

  /** One call of a meter: the flow as the meter sees it, and the packet. */
  datatype Call = Call(flow: Control, packet: Packet)

  /** The meters with a law of their own, and all others.  Of another meter only this is said: what it
      reads is some function of the memory it found, of the calls made to it, and of the position. */
  datatype Kind =
    | ByteFrequency
    | ByteFrequencyFirstOrigToDest
    | ActionReactionFirst3ByteHash
    | FirstBitPositions
    | DirectionChanges
    | DirectionBytesCount
    | Other(name: string, slots: nat, reading: (Junk, seq<Call>, nat) -> real)
  {
    function Name(): string {
      match this
      case ByteFrequency => "ByteFrequencyMeter"
      case ByteFrequencyFirstOrigToDest => "ByteFrequencyFirstOrigToDestPacket"
      case ActionReactionFirst3ByteHash => "ActionReactionFirst3ByteHashMeter"
      case FirstBitPositions => "FirstBitPositionsMeter"
      case DirectionChanges => "DirectionChangesMeter"
      case DirectionBytesCount => "DirectionBytesCountMeter"
      case Other(name, _, _) => name
    }

    function Slots(): nat {
      match this
      case ByteFrequency => 256
      case ByteFrequencyFirstOrigToDest => 256
      case ActionReactionFirst3ByteHash => 115
      case FirstBitPositions => 64
      case DirectionChanges => 2
      case DirectionBytesCount => 2
      case Other(_, slots, _) => slots
    }

    /** The probability that a meter of this kind reads at a position; -1 past the end. */
    function Read(fingerprint: seq<real>, total: nat, lastPacket: Junk, calls: seq<Call>, pos: nat): real {
      if Other? then reading(lastPacket, calls, pos)
      else if pos >= |fingerprint| then -1.0
      else if DirectionChanges? || DirectionBytesCount? then fingerprint[pos]
      else if total == 0 then 0.0
      else fingerprint[pos] / total as real
    }
  }

  /** A meter of an observed flow: its raw fingerprint, what that is counted out of, the first bytes
      of the last packet (only the action-reaction meter has those), and the calls so far (which
      only the meters without a law of their own need). */
  datatype Meter = Meter(kind: Kind, fingerprint: seq<real>, total: nat, lastPacket: Junk, calls: seq<Call>) {
    predicate Valid() {
      |fingerprint| == kind.Slots()
    }

    function At(pos: nat): real {
      kind.Read(fingerprint, total, lastPacket, calls, pos)
    }

    function Probabilities(): seq<real> {
      seq(|fingerprint|, i requires 0 <= i < |fingerprint| => At(i))
    }
  }

  ghost predicate KindsApart(kinds: seq<Kind>) {
    forall j, k :: 0 <= j < k < |kinds| ==> kinds[j].Name() != kinds[k].Name()
  }

  /** There is a kind of each of these names, of the size on record for it. */
  ghost predicate Offers(kinds: seq<Kind>, sizes: map<string, nat>, names: set<string>) {
    && KindsApart(kinds)
    && forall name :: name in names && name in sizes ==>
                        exists k :: 0 <= k < |kinds| && kinds[k].Name() == name && kinds[k].Slots() == sizes[name]
  }

  function Zeros(n: nat): seq<real> {
    seq(n, i => 0.0)
  }

  function FreshMeter(kind: Kind, junk: Junk): (m: Meter)
    ensures m.Valid()
  {
    Meter(kind, Zeros(kind.Slots()), 0, junk, [])
  }

  function Bump(fp: seq<real>, slot: nat): (r: seq<real>)
    requires slot < |fp|
    ensures |r| == |fp|
  {
    fp[slot := fp[slot] + 1.0]
  }

  // ---------- what one packet does ----------

  function CountBytes(fp: seq<real>, data: seq<Byte>): (r: seq<real>)
    requires |fp| == 256
    ensures |r| == 256
  {
    if data == [] then fp else Bump(CountBytes(fp, data[..|data| - 1]), data[|data| - 1])
  }

  function FirstBytes(payload: seq<Byte>): (r: seq<Byte>)
    ensures |r| == NUM_AR_BYTES
  {
    seq(NUM_AR_BYTES, i requires 0 <= i < NUM_AR_BYTES => if i < |payload| then payload[i] else 0)
  }

  function DigitSum(n: nat): nat {
    if n < 10 then n else n % 10 + DigitSum(n / 10)
  }

  function DigitSums(data: seq<Byte>): nat {
    if data == [] then 0 else DigitSums(data[..|data| - 1]) + DigitSum(data[|data| - 1])
  }

  /** The slot of a reaction; the sums are kept in 8-bit variables. */
  function ReactionSlot(last: seq<Byte>, current: seq<Byte>): nat {
    (DigitSums(last) % 256 + DigitSums(current) % 256) % 256
  }

  /** Bit `b` of a byte, counted from the most significant. */
  predicate Bit(byte: Byte, b: nat)
    requires b < 8
  {
    byte / Mask(b) % 2 == 1
  }

  function Mask(b: nat): (m: nat)
    requires b < 8
    ensures m > 0
  {
    if b == 0 then 128 else if b == 1 then 64 else if b == 2 then 32 else if b == 3 then 16
    else if b == 4 then 8 else if b == 5 then 4 else if b == 6 then 2 else 1
  }

  /** The slots of the first `n` bits of the byte at position `i`. */
  function CountBits(fp: seq<real>, byte: Byte, i: nat, n: nat): (r: seq<real>)
    requires |fp| == 64 && i < 4 && n <= 8
    ensures |r| == 64
  {
    if n == 0 then fp
    else Bump(CountBits(fp, byte, i, n - 1), 16 * i + (if Bit(byte, n - 1) then n - 1 else 8 + n - 1))
  }

  function CountBytesBits(fp: seq<real>, data: seq<Byte>, n: nat): (r: seq<real>)
    requires |fp| == 64 && n <= 4 && n <= |data|
    ensures |r| == 64
  {
    if n == 0 then fp else CountBits(CountBytesBits(fp, data, n - 1), data[n - 1], n - 1, 8)
  }

  function Changed(c: Control): bool {
    c.lastDirection != c.currentDirection
  }

  function MeasureReaction(m: Meter, c: Control, payload: seq<Byte>): (r: Meter)
    requires m.Valid() && m.kind.ActionReactionFirst3ByteHash?
    ensures r.Valid() && r.kind == m.kind
  {
    if |payload| == 0 then m
    else
      var current := FirstBytes(payload);
      if !c.isFirstPacket && Changed(c) then
        ReactionSlotIsInTheTable(m.lastPacket, current);
        m.(fingerprint := Bump(m.fingerprint, ReactionSlot(m.lastPacket, current)), total := m.total + 1, lastPacket := current)
      else m.(lastPacket := current)
  }

  /** A share turned back into a count by a truncating cast. */
  function Whole(share: real, total: nat): int {
    (share * total as real).Floor
  }

  function Ratio(count: int, total: nat): real
    requires total > 0
  {
    count as real / total as real
  }

  function MeasureChanges(m: Meter, c: Control): (r: Meter)
    requires m.Valid() && m.kind.DirectionChanges? && c.pktCount > 0
    ensures r.Valid() && r.kind == m.kind
  {
    var count := Whole(m.fingerprint[0], c.pktCount - 1);
    var count := if Changed(c) then count + 1 else count;
    var ratio := Ratio(count, c.pktCount);
    m.(fingerprint := [ratio, 1.0 - ratio])
  }

  function MeasureDirectionBytes(m: Meter, c: Control, payload: seq<Byte>): (r: Meter)
    requires m.Valid() && m.kind.DirectionBytesCount?
    ensures r.Valid() && r.kind == m.kind
  {
    if |payload| == 0 || c.currentDirection == Unknown then m
    else
      var forth := Whole(m.fingerprint[0], m.total);
      var back := Whole(m.fingerprint[1], m.total);
      var forth, back :=
        if c.currentDirection == OrigToDest then forth + |payload| else forth,
        if c.currentDirection == DestToOrig then back + |payload| else back;
      var total := m.total + |payload|;
      m.(fingerprint := [Ratio(forth, total), Ratio(back, total)], total := total)
  }

  /** What `calculateMeasurement` does to the meter. */
  function Measure(m: Meter, c: Control, packet: Packet): (r: Meter)
    requires m.Valid() && c.pktCount > 0
    ensures r.Valid() && r.kind == m.kind
  {
    var payload := packet.payload;
    match m.kind
    case ByteFrequency =>
      m.(fingerprint := CountBytes(m.fingerprint, payload), total := m.total + |payload|)
    case ByteFrequencyFirstOrigToDest =>
      if c.isFirstPacket then m.(fingerprint := CountBytes(m.fingerprint, payload), total := m.total + |payload|) else m
    case ActionReactionFirst3ByteHash => MeasureReaction(m, c, payload)
    case FirstBitPositions =>
      if |payload| == 0 then m
      else m.(fingerprint := CountBytesBits(m.fingerprint, payload, if |payload| < 4 then |payload| else 4), total := m.total + 32)
    case DirectionChanges => MeasureChanges(m, c)
    case DirectionBytesCount => MeasureDirectionBytes(m, c, payload)
    case Other(_, _, _) => m.(calls := m.calls + [Call(c, packet)])
  }

  function MeasureAll(m: Meter, calls: seq<Call>): (r: Meter)
    requires m.Valid() && forall k :: 0 <= k < |calls| ==> calls[k].flow.pktCount > 0
    ensures r.Valid() && r.kind == m.kind
  {
    if calls == [] then m
    else Measure(MeasureAll(m, calls[..|calls| - 1]), calls[|calls| - 1].flow, calls[|calls| - 1].packet)
  }

  // ---------- the action-reaction table is large enough ----------

  lemma DigitSumOfAByte(b: Byte)
    ensures DigitSum(b) <= 19
  {
    assert DigitSum(b / 100) <= 2;
    if b >= 100 {
      assert b / 10 / 10 == b / 100;
    }
  }

  /** Neither 8-bit sum wraps, and no reaction falls outside the 115 slots. */
  lemma ReactionSlotIsInTheTable(last: seq<Byte>, current: seq<Byte>)
    requires |last| == |current| == NUM_AR_BYTES
    ensures ReactionSlot(last, current) == DigitSums(last) + DigitSums(current) <= 114 < ActionReactionFirst3ByteHash.Slots()
  {
    hide DigitSums, DigitSum;
    DigitSumsOfThree(last);
    DigitSumsOfThree(current);
  }

  lemma DigitSumsOfThree(data: seq<Byte>)
    requires |data| == NUM_AR_BYTES
    ensures DigitSums(data) == DigitSum(data[0]) + DigitSum(data[1]) + DigitSum(data[2]) <= 57
  {
    DigitSumOfAByte(data[0]);
    DigitSumOfAByte(data[1]);
    DigitSumOfAByte(data[2]);
    var two := data[..2];
    var one := two[..1];
    assert DigitSums(one) == DigitSums(one[..0]) + DigitSum(data[0]);
  }
}
