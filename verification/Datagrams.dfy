/** The KNXnet/IP datagrams a tunnel exchanges (src/libserver/eibnetip.cpp). */
module Datagrams {
  import opened KnxTypes

  datatype Datagram =
    | TunnelRequest(channel: int, seqno: byte, cemi: Bytes)
    | TunnelAck(channel: int, seqno: byte, status: byte)
    | DisconnectRequest(channel: int)

  const E_NO_ERROR: byte := 0x00
  const E_TUNNELING_LAYER: byte := 0x29

  function Next(seqno: byte): byte {
    (seqno + 1) % 256
  }
}
