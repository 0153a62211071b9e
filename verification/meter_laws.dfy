/**
  What the meters' fingerprints mean.  Each meter updates itself packet by
  packet; the theorems say which plain statistic of all the packets it holds.
*/
module MeterLaws {
  import opened Packets
  import opened FlowKey
  import opened FlowControl
  import opened Meters

  function Sum(v: seq<real>): real {
    if v == [] then 0.0 else Sum(v[..|v| - 1]) + v[|v| - 1]
  }

  ghost predicate IsDistribution(v: seq<real>) {
    && (forall i :: 0 <= i < |v| ==> v[i] >= 0.0)
    && Sum(v) == 1.0
  }

  ghost predicate NonNegative(v: seq<real>) {
    forall i :: 0 <= i < |v| ==> v[i] >= 0.0
  }

  lemma {:induction false} SumOfBump(v: seq<real>, slot: nat)
    requires slot < |v|
    ensures Sum(Bump(v, slot)) == Sum(v) + 1.0
  {
    var n := |v| - 1;
    if slot < n {
      SumOfBump(v[..n], slot);
      assert Bump(v, slot)[..n] == Bump(v[..n], slot);
    } else {
      assert Bump(v, slot)[..n] == v[..n];
    }
  }

  lemma {:induction false} SumOfZeros(n: nat)
    ensures Sum(Zeros(n)) == 0.0
  {
    if n > 0 {
      SumOfZeros(n - 1);
      assert Zeros(n)[..n - 1] == Zeros(n - 1);
    }
  }

  lemma {:induction false} SumOfScaled(v: seq<real>, w: seq<real>, t: real)
    requires t != 0.0 && |w| == |v| && forall i :: 0 <= i < |v| ==> w[i] == v[i] / t
    ensures Sum(w) == Sum(v) / t
  {
    if v != [] {
      var n := |v| - 1;
      SumOfScaled(v[..n], w[..n], t);
      QuotientOfSum(Sum(v[..n]), v[n], t);
    }
  }

  lemma QuotientOfSum(a: real, b: real, t: real)
    requires t != 0.0
    ensures a / t + b / t == (a + b) / t
  {
  }

  lemma QuotientTimes(a: real, t: real)
    requires t != 0.0
    ensures a / t * t == a
  {
  }

  lemma QuotientIsOne(a: real, t: real)
    requires t != 0.0
    ensures a / t == 1.0 <==> a == t
  {
  }

  lemma QuotientNonNegative(a: real, t: real)
    requires a >= 0.0 && t > 0.0
    ensures a / t >= 0.0
  {
  }

  /** What is read of a counting meter, times its total, is the count; the direction meters are read as they are;
      past the end -1 is read. */
  lemma ReadingsAreShares(m: Meter, pos: nat)
    requires m.Valid() && !m.kind.Other?
    ensures if pos >= m.kind.Slots() then m.At(pos) == -1.0
            else if m.kind in {DirectionChanges, DirectionBytesCount} then m.At(pos) == m.fingerprint[pos]
            else if m.total == 0 then m.At(pos) == 0.0
            else m.At(pos) * m.total as real == m.fingerprint[pos]
  {
    if pos < |m.fingerprint| && m.total > 0 {
      QuotientTimes(m.fingerprint[pos], m.total as real);
    }
  }

  /** Any other meter reads what it reads of the memory it found and of all its calls. */
  lemma {:induction false} OtherMetersReadTheirCalls(kind: Kind, junk: Junk, calls: seq<Call>, pos: nat)
    requires kind.Other? && Counted(calls)
    ensures MeasureAll(FreshMeter(kind, junk), calls).At(pos) == kind.reading(junk, calls, pos)
  {
    OthersKeepTheirCalls(kind, junk, calls);
  }

  lemma {:induction false} OthersKeepTheirCalls(kind: Kind, junk: Junk, calls: seq<Call>)
    requires kind.Other? && Counted(calls)
    ensures var m := MeasureAll(FreshMeter(kind, junk), calls); m.kind == kind && m.lastPacket == junk && m.calls == calls
  {
    if calls != [] {
      OthersKeepTheirCalls(kind, junk, calls[..|calls| - 1]);
    }
  }

  /** A histogram read out of its own total is a distribution. */
  lemma HistogramIsADistribution(m: Meter)
    requires m.Valid() && !m.kind.DirectionChanges? && !m.kind.DirectionBytesCount? && !m.kind.Other? && m.total > 0
    requires NonNegative(m.fingerprint) && Sum(m.fingerprint) == m.total as real
    ensures IsDistribution(m.Probabilities())
  {
    var t, p := m.total as real, m.Probabilities();
    assert forall i :: 0 <= i < |p| ==> p[i] == m.fingerprint[i] / t;
    SumOfScaled(m.fingerprint, p, t);
    QuotientIsOne(Sum(m.fingerprint), t);
    forall i | 0 <= i < |p| ensures p[i] >= 0.0 {
      QuotientNonNegative(m.fingerprint[i], t);
    }
  }

  // ---------- byte histograms ----------

  lemma {:induction false} CountBytesCounts(fp: seq<real>, data: seq<Byte>)
    requires |fp| == 256
    ensures forall b :: 0 <= b < 256 ==> CountBytes(fp, data)[b] == fp[b] + multiset(data)[b] as real
    ensures Sum(CountBytes(fp, data)) == Sum(fp) + |data| as real
  {
    if data != [] {
      var n := |data| - 1;
      CountBytesCounts(fp, data[..n]);
      SumOfBump(CountBytes(fp, data[..n]), data[n]);
      assert data == data[..n] + [data[n]];
    }
  }

  /** All payloads of the calls, one after the other. */
  function Payloads(calls: seq<Call>): seq<Byte> {
    if calls == [] then [] else Payloads(calls[..|calls| - 1]) + calls[|calls| - 1].packet.payload
  }

  ghost predicate Counted(calls: seq<Call>) {
    forall k :: 0 <= k < |calls| ==> calls[k].flow.pktCount > 0
  }

  lemma {:induction false} ByteFrequencyRun(junk: Junk, calls: seq<Call>)
    requires Counted(calls)
    ensures var m := MeasureAll(FreshMeter(ByteFrequency, junk), calls);
            && (forall b :: 0 <= b < 256 ==> m.fingerprint[b] == multiset(Payloads(calls))[b] as real)
            && m.total == |Payloads(calls)|
            && Sum(m.fingerprint) == m.total as real
  {
    if calls == [] {
      SumOfZeros(256);
    } else {
      var n := |calls| - 1;
      ByteFrequencyRun(junk, calls[..n]);
      CountBytesCounts(MeasureAll(FreshMeter(ByteFrequency, junk), calls[..n]).fingerprint, calls[n].packet.payload);
    }
  }

  /** The byte-frequency meter is the byte histogram of everything it was shown; read through
      `At` it is a distribution as soon as there was one byte, and all zero before. */
  lemma ByteFrequencyIsTheHistogram(junk: Junk, calls: seq<Call>)
    requires Counted(calls)
    ensures var m := MeasureAll(FreshMeter(ByteFrequency, junk), calls);
            && (forall b :: 0 <= b < 256 ==> m.fingerprint[b] == multiset(Payloads(calls))[b] as real)
            && if Payloads(calls) == [] then m.Probabilities() == Zeros(256) else IsDistribution(m.Probabilities())
  {
    ByteFrequencyRun(junk, calls);
    var m := MeasureAll(FreshMeter(ByteFrequency, junk), calls);
    if Payloads(calls) != [] {
      HistogramIsADistribution(m);
    }
  }

  // ---------- the action-reaction table ----------

  /** A packet that answers a packet of the other side: the calls the table counts. */
  predicate IsReaction(call: Call) {
    |call.packet.payload| > 0 && !call.flow.isFirstPacket && call.flow.lastDirection != call.flow.currentDirection
  }

  function Reactions(calls: seq<Call>): nat {
    if calls == [] then 0 else Reactions(calls[..|calls| - 1]) + if IsReaction(calls[|calls| - 1]) then 1 else 0
  }

  function ByteAt(payload: seq<Byte>, i: nat): Byte {
    if i < |payload| then payload[i] else 0
  }

  /** The three decimal digits of a byte, added. */
  function DigitsOf(b: Byte): nat {
    b / 100 + b / 10 % 10 + b % 10
  }

  /** The digits of the first three bytes; bytes that are not there are zero. */
  function ThreeDigits(payload: seq<Byte>): nat {
    DigitsOf(ByteAt(payload, 0)) + DigitsOf(ByteAt(payload, 1)) + DigitsOf(ByteAt(payload, 2))
  }

  /** The digits a reaction is hashed with: those of the last non-empty packet before it. */
  function DigitsBefore(junk: Junk, calls: seq<Call>): nat {
    if calls == [] then ThreeDigits(junk)
    else if |calls[|calls| - 1].packet.payload| > 0 then ThreeDigits(calls[|calls| - 1].packet.payload)
    else DigitsBefore(junk, calls[..|calls| - 1])
  }

  /** How many reactions fall into a slot. */
  function ReactionsIn(junk: Junk, calls: seq<Call>, slot: nat): nat {
    if calls == [] then 0
    else
      var n := |calls| - 1;
      ReactionsIn(junk, calls[..n], slot) +
      if IsReaction(calls[n]) && DigitsBefore(junk, calls[..n]) + ThreeDigits(calls[n].packet.payload) == slot then 1 else 0
  }

  lemma DigitSumIsOfThree(b: Byte)
    ensures DigitSum(b) == DigitsOf(b)
  {
    assert DigitSum(b / 10 / 10) == b / 10 / 10;
    assert b / 10 / 10 == b / 100;
  }

  lemma DigitSumsAreOfThree(payload: seq<Byte>, first: seq<Byte>)
    requires |first| == NUM_AR_BYTES && forall i :: 0 <= i < NUM_AR_BYTES ==> first[i] == ByteAt(payload, i)
    ensures DigitSums(first) == ThreeDigits(payload)
  {
    hide DigitSum, DigitSums, DigitsOf;
    DigitSumsOfThree(first);
    DigitSumIsOfThree(first[0]);
    DigitSumIsOfThree(first[1]);
    DigitSumIsOfThree(first[2]);
  }

  /** The slot a reaction falls into. */
  lemma ReactionFallsInto(last: seq<Byte>, digits: nat, payload: seq<Byte>)
    requires |last| == NUM_AR_BYTES && DigitSums(last) == digits
    ensures ReactionSlot(last, FirstBytes(payload)) == digits + ThreeDigits(payload) <= 114
    ensures DigitSums(FirstBytes(payload)) == ThreeDigits(payload)
  {
    hide DigitSums, ThreeDigits;
    DigitSumsAreOfThree(payload, FirstBytes(payload));
    ReactionSlotIsInTheTable(last, FirstBytes(payload));
  }

  lemma {:induction false} ActionReactionRun(junk: Junk, calls: seq<Call>)
    requires Counted(calls)
    ensures var m := MeasureAll(FreshMeter(ActionReactionFirst3ByteHash, junk), calls);
            && DigitSums(m.lastPacket) == DigitsBefore(junk, calls)
            && (forall s :: 0 <= s < 115 ==> m.fingerprint[s] == ReactionsIn(junk, calls, s) as real)
            && m.total == Reactions(calls)
            && Sum(m.fingerprint) == m.total as real
  {
    hide DigitSums, ThreeDigits, ReactionSlot, FirstBytes;
    if calls == [] {
      SumOfZeros(115);
      DigitSumsAreOfThree(junk, junk);
    } else {
      var n := |calls| - 1;
      ActionReactionRun(junk, calls[..n]);
      var m := MeasureAll(FreshMeter(ActionReactionFirst3ByteHash, junk), calls[..n]);
      ReactionFallsInto(m.lastPacket, DigitsBefore(junk, calls[..n]), calls[n].packet.payload);
      if IsReaction(calls[n]) {
        SumOfBump(m.fingerprint, ReactionSlot(m.lastPacket, FirstBytes(calls[n].packet.payload)));
      }
    }
  }

  /** The table holds one count per reaction, in the slot that is the sum of the two packets' digits. */
  lemma ActionReactionIsTheTable(junk: Junk, calls: seq<Call>)
    requires Counted(calls)
    ensures var m := MeasureAll(FreshMeter(ActionReactionFirst3ByteHash, junk), calls);
            && (forall s :: 0 <= s < 115 ==> m.fingerprint[s] == ReactionsIn(junk, calls, s) as real)
            && if Reactions(calls) == 0 then m.Probabilities() == Zeros(115) else IsDistribution(m.Probabilities())
  {
    ActionReactionRun(junk, calls);
    var m := MeasureAll(FreshMeter(ActionReactionFirst3ByteHash, junk), calls);
    if Reactions(calls) != 0 {
      HistogramIsADistribution(m);
    }
  }

  // ---------- bit positions ----------

  /** How many calls have a byte at position `i`. */
  function LongerThan(calls: seq<Call>, i: nat): nat {
    if calls == [] then 0 else LongerThan(calls[..|calls| - 1], i) + if |calls[|calls| - 1].packet.payload| > i then 1 else 0
  }

  function PowerOfTwo(n: nat): (r: nat)
    ensures r > 0
  {
    if n == 0 then 1 else 2 * PowerOfTwo(n - 1)
  }

  /** The binary digit of a byte at a position counted from the most significant is set. */
  predicate IsSet(byte: Byte, b: nat)
    requires b < 8
  {
    byte / PowerOfTwo(7 - b) % 2 == 1
  }

  lemma BitIsTheBinaryDigit(byte: Byte, b: nat)
    requires b < 8
    ensures Bit(byte, b) == IsSet(byte, b)
  {
    assert PowerOfTwo(3) == 8 && PowerOfTwo(7) == 128 by {
      assert PowerOfTwo(6) == 64;
    }
    assert PowerOfTwo(7 - b) == Mask(b);
  }

  /** How many calls have bit `b` set in the byte at position `i`. */
  function WithBit(calls: seq<Call>, i: nat, b: nat): nat
    requires b < 8
  {
    if calls == [] then 0
    else
      var last := calls[|calls| - 1].packet.payload;
      WithBit(calls[..|calls| - 1], i, b) + if |last| > i && IsSet(last[i], b) then 1 else 0
  }

  /** What the bits of one byte add to a slot. */
  function BitShare(byte: Byte, i: nat, n: nat, slot: nat): real
    requires n <= 8
  {
    if 16 * i <= slot < 16 * i + n && Bit(byte, slot - 16 * i) then 1.0
    else if 16 * i + 8 <= slot < 16 * i + 8 + n && !Bit(byte, slot - 16 * i - 8) then 1.0
    else 0.0
  }

  lemma {:induction false} CountBitsCounts(fp: seq<real>, byte: Byte, i: nat, n: nat)
    requires |fp| == 64 && i < 4 && n <= 8
    ensures forall slot :: 0 <= slot < 64 ==> CountBits(fp, byte, i, n)[slot] == fp[slot] + BitShare(byte, i, n, slot)
    ensures Sum(CountBits(fp, byte, i, n)) == Sum(fp) + n as real
  {
    hide Bit;
    if n > 0 {
      CountBitsCounts(fp, byte, i, n - 1);
      SumOfBump(CountBits(fp, byte, i, n - 1), 16 * i + (if Bit(byte, n - 1) then n - 1 else 8 + n - 1));
    }
  }

  lemma {:induction false} CountBytesBitsCounts(fp: seq<real>, data: seq<Byte>, n: nat, i: nat, b: nat)
    requires |fp| == 64 && n <= 4 && n <= |data| && i < 4 && b < 8
    ensures var r := CountBytesBits(fp, data, n);
            && r[16 * i + b] == fp[16 * i + b] + (if i < n && Bit(data[i], b) then 1.0 else 0.0)
            && r[16 * i + 8 + b] == fp[16 * i + 8 + b] + (if i < n && !Bit(data[i], b) then 1.0 else 0.0)
            && Sum(r) == Sum(fp) + (8 * n) as real
  {
    hide Bit, CountBits;
    if n > 0 {
      CountBytesBitsCounts(fp, data, n - 1, i, b);
      CountBitsCounts(CountBytesBits(fp, data, n - 1), data[n - 1], n - 1, 8);
    }
  }

  function BitsSeen(calls: seq<Call>): nat {
    if calls == [] then 0
    else BitsSeen(calls[..|calls| - 1]) + 8 * (if |calls[|calls| - 1].packet.payload| < 4 then |calls[|calls| - 1].packet.payload| else 4)
  }

  lemma {:induction false} FirstBitPositionsRun(junk: Junk, calls: seq<Call>, i: nat, b: nat)
    requires Counted(calls) && i < 4 && b < 8
    ensures var m := MeasureAll(FreshMeter(FirstBitPositions, junk), calls);
            && m.fingerprint[16 * i + b] == WithBit(calls, i, b) as real
            && m.fingerprint[16 * i + 8 + b] == (LongerThan(calls, i) - WithBit(calls, i, b)) as real
            && m.total == 32 * LongerThan(calls, 0)
            && Sum(m.fingerprint) == BitsSeen(calls) as real
  {
    hide Bit, IsSet, CountBytesBits;
    if calls == [] {
      SumOfZeros(64);
    } else {
      var n := |calls| - 1;
      FirstBitPositionsRun(junk, calls[..n], i, b);
      var m := MeasureAll(FreshMeter(FirstBitPositions, junk), calls[..n]);
      var data := calls[n].packet.payload;
      if |data| > i {
        BitIsTheBinaryDigit(data[i], b);
      }
      if data != [] {
        CountBytesBitsCounts(m.fingerprint, data, if |data| < 4 then |data| else 4, i, b);
      }
    }
  }

  /** Slot 16i+b counts the packets whose byte i has binary digit b set, from the most significant, and
      slot 16i+8+b those where it is clear, so together they count the packets longer than i bytes. */
  lemma BitSlotsCountPackets(junk: Junk, calls: seq<Call>, i: nat, b: nat)
    requires Counted(calls) && i < 4 && b < 8
    ensures var fp := MeasureAll(FreshMeter(FirstBitPositions, junk), calls).fingerprint;
            && fp[16 * i + b] == WithBit(calls, i, b) as real
            && fp[16 * i + b] + fp[16 * i + 8 + b] == LongerThan(calls, i) as real
  {
    hide IsSet, Measure;
    FirstBitPositionsRun(junk, calls, i, b);
  }

  lemma {:induction false} BitsSeenIsAllCharged(calls: seq<Call>)
    ensures BitsSeen(calls) <= 32 * LongerThan(calls, 0)
    ensures BitsSeen(calls) == 32 * LongerThan(calls, 0) <==> forall k :: 0 <= k < |calls| ==> |calls[k].packet.payload| == 0 || |calls[k].packet.payload| >= 4
  {
    if calls != [] {
      BitsSeenIsAllCharged(calls[..|calls| - 1]);
      assert forall k :: 0 <= k < |calls| - 1 ==> calls[k] == calls[..|calls| - 1][k];
    }
  }

  /** Every non-empty packet is charged 32 bits however short it is, so the probabilities
      sum to 1 exactly when no non-empty packet was shorter than four bytes. */
  lemma BitProbabilitiesSumToOne(junk: Junk, calls: seq<Call>)
    requires Counted(calls) && LongerThan(calls, 0) > 0
    ensures var m := MeasureAll(FreshMeter(FirstBitPositions, junk), calls);
            Sum(m.Probabilities()) == 1.0 <==> forall k :: 0 <= k < |calls| ==> |calls[k].packet.payload| == 0 || |calls[k].packet.payload| >= 4
  {
    hide Measure;
    FirstBitPositionsRun(junk, calls, 0, 0);
    BitsSeenIsAllCharged(calls);
    var m := MeasureAll(FreshMeter(FirstBitPositions, junk), calls);
    SumOfScaled(m.fingerprint, m.Probabilities(), m.total as real);
    QuotientIsOne(BitsSeen(calls) as real, m.total as real);
  }

  /** One packet with a single byte leaves probabilities that sum to a quarter. */
  lemma SingleByteSumsToAQuarter(junk: Junk, call: Call)
    requires call.flow.pktCount > 0 && |call.packet.payload| == 1
    ensures Sum(MeasureAll(FreshMeter(FirstBitPositions, junk), [call]).Probabilities()) == 0.25
  {
    hide Measure;
    var calls := [call];
    assert calls[..0] == [];
    FirstBitPositionsRun(junk, calls, 0, 0);
    var m := MeasureAll(FreshMeter(FirstBitPositions, junk), calls);
    assert BitsSeen(calls) == 8 && LongerThan(calls, 0) == 1;
    SumOfScaled(m.fingerprint, m.Probabilities(), m.total as real);
  }

  // ---------- the direction ratios ----------

  function Changes(calls: seq<Call>): nat {
    if calls == [] then 0 else Changes(calls[..|calls| - 1]) + if calls[|calls| - 1].flow.lastDirection != calls[|calls| - 1].flow.currentDirection then 1 else 0
  }

  /** The calls were made at data packets 1, 2, 3, ... of the flow. */
  ghost predicate Consecutive(calls: seq<Call>) {
    forall k :: 0 <= k < |calls| ==> calls[k].flow.pktCount == k + 1
  }

  lemma {:induction false} ChangesAreFewerThanCalls(calls: seq<Call>)
    ensures Changes(calls) <= |calls|
  {
    if calls != [] {
      ChangesAreFewerThanCalls(calls[..|calls| - 1]);
    }
  }

  lemma WholeOfRatio(count: nat, total: nat)
    requires total > 0
    ensures Whole(Ratio(count, total), total) == count
  {
    QuotientTimes(count as real, total as real);
  }

  lemma WholeOfZero(total: nat)
    ensures Whole(0.0, total) == 0
  {
  }

  /** Called at consecutive data packets, the meter holds the share of packets that changed direction. */
  lemma {:induction false} DirectionChangesIsTheRatio(junk: Junk, calls: seq<Call>)
    requires Consecutive(calls) && calls != []
    ensures var share := Ratio(Changes(calls), |calls|);
            MeasureAll(FreshMeter(DirectionChanges, junk), calls).fingerprint == [share, 1.0 - share]
  {
    hide Whole, Ratio;
    var n := |calls| - 1;
    if n > 0 {
      DirectionChangesIsTheRatio(junk, calls[..n]);
      WholeOfRatio(Changes(calls[..n]), n);
    } else {
      WholeOfZero(0);
    }
  }

  lemma DirectionChangesIsADistribution(junk: Junk, calls: seq<Call>)
    requires Consecutive(calls) && calls != []
    ensures IsDistribution(MeasureAll(FreshMeter(DirectionChanges, junk), calls).fingerprint)
  {
    hide Measure;
    DirectionChangesIsTheRatio(junk, calls);
    ChangesAreFewerThanCalls(calls);
    var share := Ratio(Changes(calls), |calls|);
    RatioIsAtMostOne(Changes(calls) as real, |calls| as real);
    SumOfPair(share, 1.0 - share);
  }

  lemma RatioIsAtMostOne(a: real, t: real)
    requires 0.0 <= a <= t && t > 0.0
    ensures 0.0 <= a / t <= 1.0
  {
  }

  lemma SumOfPair(a: real, b: real)
    ensures Sum([a, b]) == a + b
  {
    assert [a, b][..1] == [a] && [a][..0] == [];
    assert Sum([a]) == Sum([]) + a;
  }

  function BytesTowards(calls: seq<Call>, d: Direction): nat {
    if calls == [] then 0
    else BytesTowards(calls[..|calls| - 1], d) + if calls[|calls| - 1].flow.currentDirection == d then |calls[|calls| - 1].packet.payload| else 0
  }

  /** The meter holds each side's share of the payload bytes. */
  lemma {:induction false} DirectionBytesIsTheRatio(junk: Junk, calls: seq<Call>)
    requires Counted(calls)
    ensures var m := MeasureAll(FreshMeter(DirectionBytesCount, junk), calls);
            var forth, back := BytesTowards(calls, OrigToDest), BytesTowards(calls, DestToOrig);
            && m.total == forth + back
            && m.fingerprint == (if m.total == 0 then [0.0, 0.0] else [Ratio(forth, m.total), Ratio(back, m.total)])
  {
    hide Whole, Ratio;
    if calls != [] {
      var n := |calls| - 1;
      DirectionBytesIsTheRatio(junk, calls[..n]);
      var forth, back := BytesTowards(calls[..n], OrigToDest), BytesTowards(calls[..n], DestToOrig);
      if forth + back > 0 {
        WholeOfRatio(forth, forth + back);
        WholeOfRatio(back, forth + back);
      } else {
        WholeOfZero(0);
      }
    }
  }

  lemma DirectionBytesIsADistribution(junk: Junk, calls: seq<Call>)
    requires Counted(calls)
    requires BytesTowards(calls, OrigToDest) + BytesTowards(calls, DestToOrig) > 0
    ensures IsDistribution(MeasureAll(FreshMeter(DirectionBytesCount, junk), calls).fingerprint)
  {
    hide Measure;
    DirectionBytesIsTheRatio(junk, calls);
    var forth, back := BytesTowards(calls, OrigToDest), BytesTowards(calls, DestToOrig);
    var t := (forth + back) as real;
    RatioIsAtMostOne(forth as real, t);
    RatioIsAtMostOne(back as real, t);
    QuotientOfSum(forth as real, back as real, t);
    QuotientIsOne(forth as real + back as real, t);
    SumOfPair(forth as real / t, back as real / t);
  }
}
