/**
  The meters of an observed flow as objects (the `calculateMeasurement` methods
  under src/protocol_model/src).  Each call runs the loops of the source over the
  payload and leaves the meter as `Meters.Measure` says.
*/
module AttributeMeters {
  import opened Packets
  import opened FlowKey
  import opened FlowControl
  import opened Meters

  lemma SumsWrap(a: nat, b: nat)
    ensures (a % 256 + b) % 256 == (a + b) % 256
  {
    var q := a / 256;
    assert a == 256 * q + a % 256;
    assert (a + b) % 256 == (a % 256 + b + 256 * q) % 256;
  }

  /** The digits of a byte, added to an 8-bit sum from the last digit up. */
  method AddDigits(sum: nat, byte: Byte) returns (r: nat)
    ensures r == (sum + DigitSum(byte)) % 256
  {
    var rest, left := byte % 10, byte / 10;
    ghost var whole: nat := sum + rest;
    r := (sum + rest) % 256;
    while left > 0
      invariant r == whole % 256
      invariant whole + (if left > 0 then DigitSum(left) else 0) == sum + DigitSum(byte)
    {
      rest, left := left % 10, left / 10;
      SumsWrap(whole, rest);
      whole := whole + rest;
      r := (r + rest) % 256;
    }
  }

  /** The sums of the digits of the last and of the current packet's first bytes, mixed. */
  method MixedSlot(last: array<Byte>, current: array<Byte>) returns (mixed: nat)
    requires last.Length == current.Length == NUM_AR_BYTES
    ensures mixed == ReactionSlot(last[..], current[..])
  {
    hide DigitSum;
    var one, two := 0, 0;
    for i := 0 to NUM_AR_BYTES
      invariant one == DigitSums(last[..i]) % 256
      invariant two == DigitSums(current[..i]) % 256
    {
      assert last[..i + 1][..i] == last[..i] && current[..i + 1][..i] == current[..i];
      SumsWrap(DigitSums(last[..i]), DigitSum(last[i]));
      SumsWrap(DigitSums(current[..i]), DigitSum(current[i]));
      one := AddDigits(one, last[i]);
      two := AddDigits(two, current[i]);
    }
    assert last[..NUM_AR_BYTES] == last[..] && current[..NUM_AR_BYTES] == current[..];
    mixed := (one + two) % 256;
  }

  /** The first bytes of a payload, padded with zeros. */
  method ReadFirstBytes(payload: seq<Byte>) returns (current: array<Byte>)
    ensures fresh(current) && current[..] == FirstBytes(payload)
  {
    current := new Byte[NUM_AR_BYTES](_ => 0);
    for i := 0 to NUM_AR_BYTES
      invariant forall j :: 0 <= j < i ==> current[j] == if j < |payload| then payload[j] else 0
    {
      current[i] := if |payload| > i then payload[i] else 0;
    }
  }

  class AttributeMeter {
    const kind: Kind
    var fingerprint: seq<real>
    var total: nat
    const lastPacket: array<Byte>
    var calls: seq<Call>

    ghost predicate Valid()
      reads this
    {
      |fingerprint| == kind.Slots() && lastPacket.Length == NUM_AR_BYTES
    }

    /** The meter as a value. */
    ghost function View(): (m: Meter)
      requires Valid()
      reads this, lastPacket
      ensures m.Valid()
    {
      Meter(kind, fingerprint, total, lastPacket[..], calls)
    }

    constructor (kind: Kind, junk: Junk)
      ensures Valid() && fresh(lastPacket)
      ensures View() == FreshMeter(kind, junk)
    {
      this.kind := kind;
      this.fingerprint := seq(kind.Slots(), _ => 0.0);
      this.total, this.calls := 0, [];
      this.lastPacket := new Byte[NUM_AR_BYTES](i requires 0 <= i < NUM_AR_BYTES => junk[i]);
    }

    /** One more in a slot. */
    method Increment(slot: nat)
      requires Valid() && slot < |fingerprint|
      modifies this`fingerprint
      ensures fingerprint == Bump(old(fingerprint), slot)
    {
      fingerprint := fingerprint[slot := fingerprint[slot] + 1.0];
    }

    /** The byte histogram grows by a payload. */
    method CountPayload(payload: seq<Byte>)
      requires Valid() && kind.Slots() == 256
      modifies this
      ensures Valid() && fingerprint == CountBytes(old(fingerprint), payload) && total == old(total) + |payload|
      ensures calls == old(calls)
    {
      for i := 0 to |payload|
        invariant Valid() && fingerprint == CountBytes(old(fingerprint), payload[..i]) && total == old(total) && calls == old(calls)
      {
        assert payload[..i + 1][..i] == payload[..i];
        Increment(payload[i]);
      }
      assert payload[..|payload|] == payload;
      total := total + |payload|;
    }

    /** The bits of one byte, from the most significant: one slot for each set bit, another for each clear one. */
    method CountByteBits(byte: Byte, i: nat)
      requires Valid() && kind.Slots() == 64 && i < 4
      modifies this`fingerprint
      ensures Valid() && fingerprint == CountBits(old(fingerprint), byte, i, 8)
    {
      var oneOffset, zeroOffset, mask := 0, 8, 128;
      while mask != 0
        invariant 0 <= oneOffset <= 8 && zeroOffset == 8 + oneOffset
        invariant mask == if oneOffset < 8 then Mask(oneOffset) else 0
        invariant Valid() && fingerprint == CountBits(old(fingerprint), byte, i, oneOffset)
        decreases mask
      {
        if byte / mask % 2 == 1 {
          Increment(16 * i + oneOffset);
        } else {
          Increment(16 * i + zeroOffset);
        }
        oneOffset, zeroOffset, mask := oneOffset + 1, zeroOffset + 1, mask / 2;
      }
    }

    method CountPayloadBits(payload: seq<Byte>)
      requires Valid() && kind.FirstBitPositions? && payload != []
      modifies this
      ensures Valid() && fingerprint == CountBytesBits(old(fingerprint), payload, if |payload| < 4 then |payload| else 4)
      ensures total == old(total) + 32 && calls == old(calls)
    {
      var i := 0;
      while i < |payload| && i < 4
        invariant i <= |payload| && i <= 4
        invariant Valid() && total == old(total) && calls == old(calls)
        invariant fingerprint == CountBytesBits(old(fingerprint), payload, i)
      {
        CountByteBits(payload[i], i);
        i := i + 1;
      }
      total := total + 32;
    }

    /** A packet that answers one in the other direction scores in the slot of both packets' first bytes. */
    method CountReaction(flow: Control, payload: seq<Byte>)
      requires Valid() && kind.ActionReactionFirst3ByteHash?
      modifies this, lastPacket
      ensures Valid() && View() == MeasureReaction(old(View()), flow, payload)
    {
      if |payload| == 0 {
        return;
      }
      var current := ReadFirstBytes(payload);
      ghost var bytes := current[..];
      if !flow.isFirstPacket && flow.lastDirection != flow.currentDirection {
        var mixed := MixedSlot(lastPacket, current);
        ReactionSlotIsInTheTable(lastPacket[..], current[..]);
        Increment(mixed);
        total := total + 1;
      }
      forall i | 0 <= i < NUM_AR_BYTES {
        lastPacket[i] := current[i];
      }
      assert lastPacket[..] == bytes;
    }

    /** The share of data packets that changed direction, brought up to date from the share so far. */
    method CountDirectionChange(flow: Control)
      requires Valid() && kind.DirectionChanges? && flow.pktCount > 0
      modifies this`fingerprint
      ensures Valid() && View() == MeasureChanges(old(View()), flow)
    {
      hide Whole, Ratio;
      var count := Whole(fingerprint[0], flow.pktCount - 1);
      if flow.lastDirection != flow.currentDirection {
        count := count + 1;
      }
      fingerprint := fingerprint[0 := Ratio(count, flow.pktCount)];
      fingerprint := fingerprint[1 := 1.0 - fingerprint[0]];
      assert fingerprint == [fingerprint[0], 1.0 - fingerprint[0]];
    }

    /** Each side's share of the payload bytes, brought up to date from the shares so far. */
    method CountDirectionBytes(flow: Control, payload: seq<Byte>)
      requires Valid() && kind.DirectionBytesCount?
      modifies this
      ensures Valid() && View() == MeasureDirectionBytes(old(View()), flow, payload)
    {
      if |payload| == 0 {
        return;
      }
      hide Whole, Ratio;
      var forth := Whole(fingerprint[0], total);
      var back := Whole(fingerprint[1], total);
      if flow.currentDirection == OrigToDest {
        forth := forth + |payload|;
      } else if flow.currentDirection == DestToOrig {
        back := back + |payload|;
      } else {
        return;
      }
      total := total + |payload|;
      fingerprint := fingerprint[0 := Ratio(forth, total)];
      fingerprint := fingerprint[1 := Ratio(back, total)];
    }

    method CalculateMeasurement(flow: Control, packet: Packet)
      requires Valid() && flow.pktCount > 0
      modifies this, lastPacket
      ensures Valid() && View() == Measure(old(View()), flow, packet)
    {
      var payload := packet.payload;
      match kind
      case ByteFrequency =>
        if |payload| == 0 {
          return;
        }
        CountPayload(payload);
      case ByteFrequencyFirstOrigToDest =>
        if !flow.isFirstPacket {
          return;
        }
        if |payload| == 0 {
          return;
        }
        CountPayload(payload);
      case ActionReactionFirst3ByteHash => CountReaction(flow, payload);
      case FirstBitPositions =>
        if |payload| == 0 {
          return;
        }
        CountPayloadBits(payload);
      case DirectionChanges => CountDirectionChange(flow);
      case DirectionBytesCount => CountDirectionBytes(flow, payload);
      case Other(_, _, _) => calls := calls + [Call(flow, packet)];
    }

    /** The probability at a position, computed on demand. */
    function At(pos: nat): (v: real)
      requires Valid()
      reads this, lastPacket
      ensures v == View().At(pos)
    {
      kind.Read(fingerprint, total, lastPacket[..], calls, pos)
    }
  }
}
