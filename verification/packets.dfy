/** Packets and 5-tuples as the flow tracker sees them, headers already parsed. */
module Packets {

  const TCP: bv8 := 6
  const UDP: bv8 := 17

  /** A payload byte, read as a number. */
  type Byte = x: nat | x < 256

  /** The 5-tuple of a packet, or of the first packet of a flow (src/common/inc/IPv4Tuple.h). */
  datatype Tuple = Tuple(srcIp: bv32, srcPort: bv16, dstIp: bv32, dstPort: bv16, transport: bv8)

  /** The TCP flag bits that are ever looked at; ignored on UDP packets. */
  datatype TcpFlags = TcpFlags(fin: bool, syn: bool, rst: bool, ack: bool)

  datatype PacketData = PacketData(id: nat, tuple: Tuple, flags: TcpFlags, payload: seq<Byte>, seconds: int) {
    predicate IsUdp() {
      tuple.transport == UDP
    }

    predicate IsTcp() {
      tuple.transport == TCP
    }

    function Size(): nat {
      |payload|
    }
  }

  /** Only TCP and UDP packets are ever handed to the flow manager. */
  type Packet = p: PacketData | p.IsUdp() || p.IsTcp()
    witness PacketData(0, Tuple(0, 0, 0, 0, UDP), TcpFlags(false, false, false, false), [], 0)
}
