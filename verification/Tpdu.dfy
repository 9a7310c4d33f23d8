/** The transport-layer PDU codec (src/libserver/tpdu.cpp). */
module Tpdu {
  import opened KnxTypes

  type Serno = x: int | 0 <= x < 16

  datatype Pdu =
    | DataXxx(data: Bytes)
    | Connect
    | Disconnect
    | Ack(serno: Serno)
    | Nack(serno: Serno)
    | DataConnected(serno: Serno, data: Bytes)
    | Unknown(pdu: Bytes)

  /** (c >> 2) & 0x0f. */
  function SernoOf(c: byte): Serno {
    c / 4 % 16
  }

  /** TPDU::fromPacket and the init function it selects. */
  function FromPacket(c: Bytes): Pdu {
    if |c| == 0 then Unknown(c)
    else if c[0] < 4 then DataXxx(c)
    else if c[0] == 0x80 then (if |c| == 1 then Connect else Unknown(c))
    else if c[0] == 0x81 then (if |c| == 1 then Disconnect else Unknown(c))
    else if c[0] / 64 == 3 && c[0] % 4 == 2 then (if |c| == 1 then Ack(SernoOf(c[0])) else Unknown(c))
    else if c[0] / 64 == 3 && c[0] % 4 == 3 then (if |c| == 1 then Nack(SernoOf(c[0])) else Unknown(c))
    else if c[0] / 64 == 1 then DataConnected(SernoOf(c[0]), c)
    else Unknown(c)
  }

  /** The encoders; the two data PDUs patch the first byte of a copy of the payload. */
  function ToPacket(p: Pdu): Bytes
    requires p.DataXxx? || p.DataConnected? ==> p.data != []
  {
    match p
    case DataXxx(data) => data[0 := data[0] % 4]
    case Connect => [0x80]
    case Disconnect => [0x81]
    case Ack(n) => [0xC2 + n * 4]
    case Nack(n) => [0xC3 + n * 4]
    case DataConnected(n, data) => data[0 := data[0] % 4 + 0x40 + n * 4]
    case Unknown(pdu) => pdu
  }

  /** An APDU as the receiving application sees it: only two bits of the first byte are its own. */
  function Mask(data: Bytes): (r: Bytes)
    ensures |r| == |data|
  {
    if data == [] then [] else data[0 := data[0] % 4]
  }

  /** Serial numbers and payloads survive the wire; of the first payload byte two bits do. */
  lemma RoundTrip(p: Pdu)
    requires p.Ack? || p.Nack? || p.Connect? || p.Disconnect? || ((p.DataXxx? || p.DataConnected?) && p.data != [])
    ensures var q := FromPacket(ToPacket(p));
      match p
      case DataXxx(data) => q == DataXxx(Mask(data))
      case DataConnected(n, data) => q.DataConnected? && q.serno == n && q.data != [] && Mask(q.data) == Mask(data)
      case _ => q == p
  {
  }
}
