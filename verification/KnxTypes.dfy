/** Types shared by every part of the model: bytes, addresses and the L_Data frame. */
module KnxTypes {

  /** An unsigned byte. Bit masks are written with `/` and `%` on these. */
  type byte = x: int | 0 <= x < 256
  type Bytes = seq<byte>

  /** A 16-bit individual or group address. */
  type Address = x: int | 0 <= x < 0x10000

  datatype Option<+T> = None | Some(value: T)

  datatype Priority = Low | Normal | Urgent | System

  datatype AddressType = Group | Individual

  /** A link-layer data frame. */
  datatype LData = LData(
    priority: Priority,
    repeated: bool,
    validChecksum: bool,
    validLength: bool,
    addressType: AddressType,
    source: Address,
    dest: Address,
    hopCount: byte,
    data: Bytes)

  /** Bit number `i` of a byte, counted from the least significant one. */
  predicate Bit(c: byte, i: nat)
    requires i < 8
  {
    (if i == 0 then c else if i == 1 then c / 2 else if i == 2 then c / 4 else if i == 3 then c / 8
     else if i == 4 then c / 16 else if i == 5 then c / 32 else if i == 6 then c / 64 else c / 128) % 2 == 1
  }

  function HighByte(a: Address): byte {
    a / 256
  }

  function LowByte(a: Address): byte {
    a % 256
  }

  function MakeAddress(high: byte, low: byte): Address {
    high * 256 + low
  }

  /** The two-bit code the encoders write for a priority. */
  function PriorityCode(p: Priority): (c: byte)
    ensures c < 4
  {
    match p
    case Low => 3
    case Normal => 1
    case Urgent => 2
    case System => 0
  }

  /** The priority the decoders read from a two-bit code. */
  function CodePriority(c: byte): Priority {
    if c == 0 then System
    else if c == 1 then Urgent
    else if c == 2 then Normal
    else Low
  }

  /** Encoders and decoders disagree on codes 1 and 2. */
  function ExchangePriority(p: Priority): Priority {
    match p
    case Normal => Urgent
    case Urgent => Normal
    case _ => p
  }

  /** What a frame looks like after one trip through an encoder and a decoder. */
  function Exchange(l: LData): LData {
    l.(priority := ExchangePriority(l.priority))
  }

  function XorByte(a: byte, b: byte): byte {
    ((a as bv8) ^ (b as bv8)) as int
  }
}
