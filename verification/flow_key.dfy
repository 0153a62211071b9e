/**
  The key of the flow table (src/common/inc/Hasher.h) and the notion of
  "same flow" it stands for (src/common/inc/Flow.h, src/common/src/IPv4.cpp).
*/
module FlowKey {
  import opened Packets
  import Murmur3

  const SEED: bv32 := 4098

  datatype Direction = OrigToDest | DestToOrig | Unknown

  function Reverse(t: Tuple): Tuple {
    Tuple(t.dstIp, t.dstPort, t.srcIp, t.srcPort, t.transport)
  }

  /** The same protocol between the same two endpoints, in either direction. */
  predicate SameFlow(t: Tuple, u: Tuple) {
    && t.transport == u.transport
    && (|| (t.srcIp == u.srcIp && t.dstIp == u.dstIp && t.srcPort == u.srcPort && t.dstPort == u.dstPort)
        || (t.srcIp == u.dstIp && t.dstIp == u.srcIp && t.srcPort == u.dstPort && t.dstPort == u.srcPort))
  }

  /** The direction of a packet `u` on the flow whose first packet was `t`. */
  function PacketDirection(t: Tuple, u: Tuple): Direction {
    if t.transport != u.transport then Unknown
    else if t.srcIp == u.srcIp && t.dstIp == u.dstIp && t.srcPort == u.srcPort && t.dstPort == u.dstPort then OrigToDest
    else if t.srcIp == u.dstIp && t.dstIp == u.srcIp && t.srcPort == u.dstPort && t.dstPort == u.srcPort then DestToOrig
    else Unknown
  }

  datatype Words = Words(w0: bv32, w1: bv32, w2: bv32, w3: bv32) {
    function At(i: nat): bv32 {
      if i == 0 then w0 else if i == 1 then w1 else if i == 2 then w2 else w3
    }
  }

  function Ports(first: bv16, second: bv16): bv32 {
    (first as bv32 << 16) | second as bv32
  }

  function ProtocolWord(transport: bv8): bv32 {
    transport as bv32
  }

  function AddressNumber(a: bv32): nat {
    a as nat
  }

  function PortNumber(p: bv16): nat {
    p as nat
  }

  predicate Below(a: bv32, b: bv32) {
    AddressNumber(a) < AddressNumber(b)
  }

  predicate AtMost(a: bv16, b: bv16) {
    PortNumber(a) <= PortNumber(b)
  }

  function Oriented(t: Tuple): Words {
    Words(t.srcIp, t.dstIp, Ports(t.srcPort, t.dstPort), ProtocolWord(t.transport))
  }

  /** The endpoint order the hasher settles on: lower address first, then lower port. */
  predicate InOrder(t: Tuple) {
    Below(t.srcIp, t.dstIp) || (t.srcIp == t.dstIp && AtMost(t.srcPort, t.dstPort))
  }

  function Canonical(t: Tuple): Words {
    Oriented(if InOrder(t) then t else Reverse(t))
  }

  /** The four bytes of a word as they lie in memory on a little-endian machine. */
  function Bytes(w: bv32): (b: seq<bv8>)
    ensures |b| == 4
  {
    [(w & 0xff) as bv8, ((w >> 8) & 0xff) as bv8, ((w >> 16) & 0xff) as bv8, ((w >> 24) & 0xff) as bv8]
  }

  function KeyBytes(k: Words): (b: seq<bv8>)
    ensures |b| == 16
  {
    Bytes(k.w0) + Bytes(k.w1) + Bytes(k.w2) + Bytes(k.w3)
  }

  function FlowHash(t: Tuple): bv32 {
    Murmur3.Hash(KeyBytes(Canonical(t)), SEED)
  }

  /** The hasher's call operator: it fills `input` branch by branch and hashes its 16 bytes. */
  method HashTuple(t: Tuple) returns (hash: bv32)
    ensures hash == FlowHash(t)
  {
    hide Murmur3.Hash, Bytes, Ports, Below, AtMost, ProtocolWord;
    OrderIsTotal(t);
    var input := new bv32[4];
    input[2] := 0;
    if Below(t.srcIp, t.dstIp) {
      input[0] := t.srcIp;
      input[1] := t.dstIp;
      input[2] := Ports(t.srcPort, t.dstPort);
      input[3] := ProtocolWord(t.transport);
    } else if Below(t.dstIp, t.srcIp) {
      input[0] := t.dstIp;
      input[1] := t.srcIp;
      input[2] := Ports(t.dstPort, t.srcPort);
      input[3] := ProtocolWord(t.transport);
    } else {
      if AtMost(t.srcPort, t.dstPort) {
        input[0] := t.srcIp;
        input[1] := t.dstIp;
        input[2] := Ports(t.srcPort, t.dstPort);
        input[3] := ProtocolWord(t.transport);
      } else {
        input[0] := t.dstIp;
        input[1] := t.srcIp;
        input[2] := Ports(t.dstPort, t.srcPort);
        input[3] := ProtocolWord(t.transport);
      }
    }
    assert Words(input[0], input[1], input[2], input[3]) == Canonical(t);
    hash := Murmur3.MurmurHash3(Bytes(input[0]) + Bytes(input[1]) + Bytes(input[2]) + Bytes(input[3]), SEED);
  }

  // ---------- the canonical form is a complete invariant of "same flow" ----------

  lemma AddressNumberIsReversible(a: bv32)
    ensures AddressNumber(a) < 0x1_0000_0000 && AddressNumber(a) as bv32 == a
  {
  }

  lemma PortNumberIsReversible(p: bv16)
    ensures PortNumber(p) < 0x1_0000 && PortNumber(p) as bv16 == p
  {
  }

  lemma OrderIsTotal(t: Tuple)
    ensures Below(t.srcIp, t.dstIp) || t.srcIp == t.dstIp || Below(t.dstIp, t.srcIp)
    ensures Below(t.srcIp, t.dstIp) ==> !Below(t.dstIp, t.srcIp) && t.srcIp != t.dstIp
    ensures AtMost(t.srcPort, t.dstPort) || AtMost(t.dstPort, t.srcPort)
    ensures AtMost(t.srcPort, t.dstPort) && AtMost(t.dstPort, t.srcPort) ==> t.srcPort == t.dstPort
  {
    hide AddressNumber, PortNumber;
    AddressNumberIsReversible(t.srcIp);
    AddressNumberIsReversible(t.dstIp);
    PortNumberIsReversible(t.srcPort);
    PortNumberIsReversible(t.dstPort);
  }

  lemma PortsAreInjective(a: bv16, b: bv16, c: bv16, d: bv16)
    requires Ports(a, b) == Ports(c, d)
    ensures a == c && b == d
  {
  }

  lemma ProtocolWordIsInjective(a: bv8, b: bv8)
    requires ProtocolWord(a) == ProtocolWord(b)
    ensures a == b
  {
  }

  lemma OrientedIsInjective(t: Tuple, u: Tuple)
    requires Oriented(t) == Oriented(u)
    ensures t == u
  {
    hide Ports, ProtocolWord;
    PortsAreInjective(t.srcPort, t.dstPort, u.srcPort, u.dstPort);
    ProtocolWordIsInjective(t.transport, u.transport);
  }

  lemma CanonicalFormIdentifiesFlows(t: Tuple, u: Tuple)
    ensures Canonical(t) == Canonical(u) <==> SameFlow(t, u)
  {
    hide Oriented, Below, AtMost;
    OrderIsTotal(t);
    OrderIsTotal(u);
    if Canonical(t) == Canonical(u) {
      OrientedIsInjective(if InOrder(t) then t else Reverse(t), if InOrder(u) then u else Reverse(u));
    }
    if SameFlow(t, u) {
      assert t == u || t == Reverse(u);
    }
  }

  lemma LowerIsLess(a: bv32, b: bv32)
    ensures Below(a, b) <==> AddressNumber(a) < AddressNumber(b)
  {
    hide AddressNumber;
  }

  /** The lower address comes first. */
  lemma LowerAddressComesFirst(t: Tuple)
    ensures var w := Canonical(t);
            AddressNumber(w.w0) <= AddressNumber(w.w1) && {w.w0, w.w1} == {t.srcIp, t.dstIp}
  {
    hide Ports, ProtocolWord, AtMost, Below, AddressNumber;
    LowerIsLess(t.srcIp, t.dstIp);
    LowerIsLess(t.dstIp, t.srcIp);
  }

  /** Of equal addresses the one with the lower port comes first. */
  lemma LowerPortComesFirst(t: Tuple)
    requires t.srcIp == t.dstIp
    ensures Canonical(t).w2 ==
              if PortNumber(t.srcPort) <= PortNumber(t.dstPort) then Ports(t.srcPort, t.dstPort) else Ports(t.dstPort, t.srcPort)
  {
    hide Ports, ProtocolWord, PortNumber, AddressNumber;
  }

  lemma SameFlowIsAnEquivalence(t: Tuple, u: Tuple, v: Tuple)
    ensures SameFlow(t, t)
    ensures SameFlow(t, u) <==> SameFlow(u, t)
    ensures SameFlow(t, u) && SameFlow(u, v) ==> SameFlow(t, v)
  {
    hide Canonical, SameFlow;
    CanonicalFormIdentifiesFlows(t, t);
    CanonicalFormIdentifiesFlows(u, t);
    CanonicalFormIdentifiesFlows(t, u);
    CanonicalFormIdentifiesFlows(u, v);
    CanonicalFormIdentifiesFlows(t, v);
  }

  /** A packet has a direction exactly on its own flow, and replies run the other way. */
  lemma DirectionTellsMembership(t: Tuple, u: Tuple)
    ensures PacketDirection(t, u) == Unknown <==> !SameFlow(t, u)
    ensures PacketDirection(t, u) == OrigToDest <==> u == t
    ensures PacketDirection(t, u) == DestToOrig <==> u == Reverse(t) && u != t
  {
  }

  // ---------- what the table key can and cannot confuse ----------

  lemma BytesAreInjective(w: bv32)
    ensures var b := Bytes(w); Murmur3.Word(b[0], b[1], b[2], b[3]) == w
  {
  }

  lemma KeyBytesHoldTheWords(k: Words, i: nat)
    requires i < 4
    ensures KeyBytes(k)[4 * i..4 * i + 4] == Bytes(k.At(i))
  {
    hide Bytes;
  }

  /** Keys that differ in one of the four words, and in no other, have different hashes. */
  lemma OneWordApartNeverCollide(k: Words, l: Words)
    requires k != l
    requires || l == k.(w0 := l.w0) || l == k.(w1 := l.w1) || l == k.(w2 := l.w2) || l == k.(w3 := l.w3)
    ensures Murmur3.Hash(KeyBytes(k), SEED) != Murmur3.Hash(KeyBytes(l), SEED)
  {
    hide Murmur3.Hash, Bytes, Murmur3.Word;
    var a, b := KeyBytes(k), KeyBytes(l);
    var i: nat := if k.w0 != l.w0 then 0 else if k.w1 != l.w1 then 1 else if k.w2 != l.w2 then 2 else 3;
    KeyBytesHoldTheWords(k, i);
    KeyBytesHoldTheWords(l, i);
    BytesAreInjective(k.At(i));
    BytesAreInjective(l.At(i));
    Murmur3.OneBlockApartNeverCollide(a, b, i, SEED);
  }

  /** Both directions of a flow find the same table entry. */
  lemma BothDirectionsHashAlike(t: Tuple, u: Tuple)
    requires SameFlow(t, u)
    ensures FlowHash(t) == FlowHash(u)
  {
    hide Murmur3.Hash, KeyBytes, Canonical;
    CanonicalFormIdentifiesFlows(t, u);
  }

  lemma ProtocolSitsInTheLastWord(t: Tuple, transport: bv8)
    ensures Canonical(t.(transport := transport)) == Canonical(t).(w3 := ProtocolWord(transport))
    ensures Canonical(t).w3 == ProtocolWord(t.transport)
  {
    hide Ports, ProtocolWord, Below, AtMost;
  }

  /** TCP and UDP traffic between the same two endpoints never shares a table entry. */
  lemma ProtocolsNeverShareAKey(t: Tuple, transport: bv8)
    requires transport != t.transport
    ensures FlowHash(t) != FlowHash(t.(transport := transport))
  {
    hide Murmur3.Hash, KeyBytes, Canonical, ProtocolWord;
    if ProtocolWord(t.transport) == ProtocolWord(transport) {
      ProtocolWordIsInjective(t.transport, transport);
    }
    ProtocolSitsInTheLastWord(t, transport);
    OneWordApartNeverCollide(Canonical(t), Canonical(t.(transport := transport)));
  }

  /** Two different flows of one protocol between the same two hosts never share a table entry. */
  lemma PortsNeverShareAKey(t: Tuple, u: Tuple)
    requires t.transport == u.transport && !SameFlow(t, u)
    requires {t.srcIp, t.dstIp} == {u.srcIp, u.dstIp}
    ensures FlowHash(t) != FlowHash(u)
  {
    hide Murmur3.Hash, KeyBytes, Ports, SameFlow, Below, AtMost, ProtocolWord;
    OrderIsTotal(t);
    OrderIsTotal(u);
    CanonicalFormIdentifiesFlows(t, u);
    assert t.srcIp in {u.srcIp, u.dstIp} && t.dstIp in {u.srcIp, u.dstIp} && u.srcIp in {t.srcIp, t.dstIp} && u.dstIp in {t.srcIp, t.dstIp};
    OneWordApartNeverCollide(Canonical(t), Canonical(u));
  }
}
