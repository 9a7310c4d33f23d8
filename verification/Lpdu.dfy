/** The TP1 link-layer frame codec (src/libserver/lpdu.cpp). */
module Lpdu {
  import opened KnxTypes
  import XorFacts

  datatype Pdu = Ack | Busy | Nack | Data(frame: LData) | Unknown(pdu: Bytes)

  /** Exclusive or of all bytes. */
  function Xor(s: Bytes): byte {
    if s == [] then 0 else XorByte(Xor(s[..|s| - 1]), s[|s| - 1])
  }

  /** The checksum byte: the complement of the exclusive or. */
  function CheckByte(s: Bytes): byte {
    255 - Xor(s)
  }

  /** The frames the encoder accepts: it asserts exactly these sizes. */
  ghost predicate Encodable(l: LData) {
    1 <= |l.data| <= 0xff && l.hopCount < 8
  }

  /** A frame built by the program itself rather than taken from a damaged packet. */
  ghost predicate WellFormed(l: LData) {
    Encodable(l) && l.validChecksum && l.validLength
  }

  /** Frame format (0x90 standard, 0x10 extended), repeat flag (inverted) and priority. */
  function ControlByte(l: LData, standard: bool): byte {
    (if standard then 0x90 else 0x10) + PriorityCode(l.priority) * 4 + (if l.repeated then 0x00 else 0x20)
  }

  /** Address type, hop count and length nibble (0 in an extended frame) in one byte. */
  function Hops(h: byte, n: byte, t: AddressType): byte {
    (if t == Group then 0x80 else 0x00) + h % 8 * 16 + n % 16
  }

  function Header(l: LData): (h: Bytes)
    requires Encodable(l)
  {
    if |l.data| <= 16 then
      [ControlByte(l, true),
       HighByte(l.source), LowByte(l.source), HighByte(l.dest), LowByte(l.dest),
       Hops(l.hopCount, |l.data| - 1, l.addressType)]
    else
      [ControlByte(l, false),
       Hops(l.hopCount, 0, l.addressType),
       HighByte(l.source), LowByte(l.source), HighByte(l.dest), LowByte(l.dest),
       |l.data| - 1]
  }

  /** Header, payload, checksum. */
  function Encode(l: LData): (pdu: Bytes)
    requires Encodable(l)
  {
    var body := Header(l) + l.data;
    body + [CheckByte(body)]
  }

  /** The control byte of an L_Data frame: (c & 0x53) == 0x10. */
  predicate IsDataControl(c: byte) {
    !Bit(c, 6) && Bit(c, 4) && c % 4 == 0
  }

  /** (c >> 2) & 0x3, read as a priority. */
  function PriorityOf(c: byte): Priority {
    CodePriority(c / 4 % 4)
  }

  /** c & 0x0f. */
  function Nibble(c: byte): (n: byte)
    ensures n < 16
  {
    c % 16
  }

  /** (c >> 4) & 0x07. */
  function HopsOf(c: byte): (h: byte)
    ensures h < 8
  {
    c / 16 % 8
  }

  function TypeOf(hops: byte): AddressType {
    if Bit(hops, 7) then Group else Individual
  }

  /** L_Data_PDU::init. */
  function Decode(c: Bytes): Option<LData> {
    if |c| < 6 || !IsDataControl(c[0]) then None
    else
      var priority := PriorityOf(c[0]);
      var repeated := !Bit(c[0], 5);
      var checksum := c[|c| - 1] == CheckByte(c[..|c| - 1]);
      if Bit(c[0], 7) then
        var len := Nibble(c[5]) + 1;
        if len + 7 != |c| then None
        else Some(LData(priority, repeated, checksum, true, TypeOf(c[5]),
                        MakeAddress(c[1], c[2]), MakeAddress(c[3], c[4]), HopsOf(c[5]), c[6..6 + len]))
      else if Nibble(c[1]) != 0 || |c| < 7 then None
      else
        var len := c[6] as int + 1;
        if len + 8 == |c| then
          Some(LData(priority, repeated, checksum, true, TypeOf(c[1]),
                     MakeAddress(c[2], c[3]), MakeAddress(c[4], c[5]), HopsOf(c[1]), c[7..7 + len]))
        else if |c| == 23 then
          Some(LData(priority, repeated, checksum, false, TypeOf(c[1]),
                     MakeAddress(c[2], c[3]), MakeAddress(c[4], c[5]), HopsOf(c[1]), c[7..15]))
        else None
  }

  /** LPDU::fromPacket. */
  function FromPacket(c: Bytes): Pdu {
    if c == [0xCC] then Ack
    else if c == [0xC0] then Busy
    else if c == [0x0C] then Nack
    else match Decode(c)
      case Some(l) => Data(l)
      case None => Unknown(c)
  }

  // ---------------------------------------------------------------- the loops

  method XorOf(c: array<byte>, n: nat) returns (x: byte)
    requires n <= c.Length
    ensures x == Xor(c[..n])
  {
    x := 0;
    for i := 0 to n
      invariant x == Xor(c[..i])
    {
      assert c[..i + 1][..i] == c[..i];
      x := XorByte(x, c[i]);
    }
  }

  /** L_Data_PDU::ToPacket: fill a buffer, then patch the checksum into its last byte. */
  method ToPacket(l: LData) returns (packet: Bytes)
    requires Encodable(l)
    ensures packet == Encode(l)
  {
    var header := Header(l);
    var pdu := new byte[|header| + |l.data| + 1];
    for i := 0 to |header|
      invariant pdu[..i] == header[..i]
    {
      pdu[i] := header[i];
    }
    for i := 0 to |l.data|
      invariant pdu[..|header| + i] == header + l.data[..i]
    {
      pdu[|header| + i] := l.data[i];
    }
    assert pdu[..|header| + |l.data|] == header + l.data;
    var c := XorOf(pdu, pdu.Length - 1);
    pdu[pdu.Length - 1] := 255 - c;
    packet := pdu[..];
  }

  // ------------------------------------------------------------- properties

  lemma ControlFields(l: LData, standard: bool)
    ensures var c := ControlByte(l, standard);
      && IsDataControl(c)
      && Bit(c, 5) == !l.repeated
      && PriorityOf(c) == ExchangePriority(l.priority)
      && Bit(c, 7) == standard
  {
  }

  lemma HopsFields(h: byte, n: byte, t: AddressType)
    requires h < 8 && n < 16
    ensures var c := Hops(h, n, t); HopsOf(c) == h && Nibble(c) == n && TypeOf(c) == t
  {
  }

  lemma AddressFields(a: Address)
    ensures MakeAddress(HighByte(a), LowByte(a)) == a
  {
  }

  lemma DecodeStandard(l: LData, c: Bytes)
    requires WellFormed(l) && |l.data| <= 16
    requires c == Encode(l)
    ensures Decode(c) == Some(Exchange(l))
  {
    hide ControlByte, IsDataControl, Bit, PriorityOf, Hops, HopsOf, Nibble, TypeOf, MakeAddress, HighByte, LowByte;
    var h := Header(l);
    assert |c| == |l.data| + 7 && c[..|c| - 1] == h + l.data && c[6..6 + |l.data|] == l.data;
    assert c[0] == h[0] && c[1] == h[1] && c[2] == h[2] && c[3] == h[3] && c[4] == h[4] && c[5] == h[5];
    ControlFields(l, true);
    HopsFields(l.hopCount, |l.data| - 1, l.addressType);
    AddressFields(l.source);
    AddressFields(l.dest);
  }

  lemma DecodeExtended(l: LData, c: Bytes)
    requires WellFormed(l) && |l.data| > 16
    requires c == Encode(l)
    ensures Decode(c) == Some(Exchange(l))
  {
    hide ControlByte, IsDataControl, Bit, PriorityOf, Hops, HopsOf, Nibble, TypeOf, MakeAddress, HighByte, LowByte;
    var h := Header(l);
    assert |c| == |l.data| + 8 && c[..|c| - 1] == h + l.data && c[7..7 + |l.data|] == l.data;
    assert c[0] == h[0] && c[1] == h[1] && c[2] == h[2] && c[3] == h[3] && c[4] == h[4] && c[5] == h[5] && c[6] == h[6];
    ControlFields(l, false);
    HopsFields(l.hopCount, 0, l.addressType);
    AddressFields(l.source);
    AddressFields(l.dest);
  }

  /** Decoding an encoded frame restores it, with the two disputed priorities exchanged. */
  lemma RoundTrip(l: LData)
    requires WellFormed(l)
    ensures Decode(Encode(l)) == Some(Exchange(l))
    ensures FromPacket(Encode(l)) == Data(Exchange(l))
  {
    if |l.data| <= 16 {
      DecodeStandard(l, Encode(l));
    } else {
      DecodeExtended(l, Encode(l));
    }
  }

  /** Two trips are the identity. */
  lemma TwoTrips(l: LData)
    requires WellFormed(l)
    ensures Decode(Encode(l)).Some?
    ensures WellFormed(Decode(Encode(l)).value)
    ensures Decode(Encode(Decode(Encode(l)).value)) == Some(l)
  {
    RoundTrip(l);
    RoundTrip(Exchange(l));
    hide Encode, Decode;
    assert Exchange(Exchange(l)) == l;
  }

  lemma ControlRebuilt(c: byte, l: LData)
    requires IsDataControl(c) && l.repeated == !Bit(c, 5) && l.priority == PriorityOf(c)
    ensures ControlByte(Exchange(l), Bit(c, 7)) == c
  {
  }

  lemma HopsRebuilt(c: byte)
    ensures Hops(HopsOf(c), Nibble(c), TypeOf(c)) == c
  {
  }

  lemma AddressRebuilt(high: byte, low: byte)
    ensures HighByte(MakeAddress(high, low)) == high && LowByte(MakeAddress(high, low)) == low
  {
  }

  lemma StandardHeaderBytes(c: Bytes, l: LData)
    requires Decode(c) == Some(l) && Bit(c[0], 7)
    ensures Encodable(Exchange(l)) && Header(Exchange(l)) == c[..6] && l.data == c[6..|c| - 1]
  {
    hide ControlByte, IsDataControl, Bit, PriorityOf, Hops, HopsOf, Nibble, TypeOf, MakeAddress, HighByte, LowByte;
    ControlRebuilt(c[0], l);
    HopsRebuilt(c[5]);
    AddressRebuilt(c[1], c[2]);
    AddressRebuilt(c[3], c[4]);
    assert Header(Exchange(l)) == [c[0], c[1], c[2], c[3], c[4], c[5]];
  }

  lemma ExtendedHeaderBytes(c: Bytes, l: LData)
    requires Decode(c) == Some(l) && !Bit(c[0], 7)
    requires l.validLength && 16 < |l.data| <= 0xff
    ensures Encodable(Exchange(l)) && Header(Exchange(l)) == c[..7] && l.data == c[7..|c| - 1]
  {
    hide ControlByte, IsDataControl, Bit, PriorityOf, Hops, HopsOf, Nibble, TypeOf, MakeAddress, HighByte, LowByte;
    ControlRebuilt(c[0], l);
    HopsRebuilt(c[1]);
    AddressRebuilt(c[2], c[3]);
    AddressRebuilt(c[4], c[5]);
    assert Header(Exchange(l)) == [c[0], c[1], c[2], c[3], c[4], c[5], c[6]];
  }

  /** The decoder loses nothing of an undamaged packet: re-encoding what it read gives the
      packet back, exactly when the sender had chosen the frame format the encoder chooses. */
  lemma DecodeIsFaithful(c: Bytes, l: LData)
    requires Decode(c) == Some(l)
    requires l.validChecksum && l.validLength && |l.data| <= 0xff
    ensures Encodable(Exchange(l))
    ensures Encode(Exchange(l)) == c <==> (Bit(c[0], 7) || |l.data| > 16)
  {
    hide ControlByte, IsDataControl, Bit, PriorityOf, Hops, HopsOf, Nibble, TypeOf, MakeAddress, HighByte, LowByte;
    if Bit(c[0], 7) {
      StandardHeaderBytes(c, l);
      assert c[..6] + c[6..|c| - 1] == c[..|c| - 1];
    } else if |l.data| > 16 {
      ExtendedHeaderBytes(c, l);
      assert c[..7] + c[7..|c| - 1] == c[..|c| - 1];
    } else {
      ControlFields(Exchange(l), true);
      assert Encode(Exchange(l))[0] == ControlByte(Exchange(l), true);
    }
  }

  lemma XorMore(s: Bytes, b: byte)
    ensures Xor(s + [b]) == XorByte(Xor(s), b)
  {
    assert (s + [b])[..|s|] == s;
  }

  /** Every packet the encoder makes, check byte included, has the exclusive or 0xFF. */
  lemma PacketSumsToOnes(l: LData)
    requires Encodable(l)
    ensures Xor(Encode(l)) == 0xFF
  {
    hide Header, XorByte;
    var body := Header(l) + l.data;
    XorMore(body, CheckByte(body));
    XorFacts.AllOnes(Xor(body), CheckByte(body));
  }

  /** And the decoder takes for undamaged exactly the packets that have. */
  lemma DamagedIffNotOnes(c: Bytes, l: LData)
    requires Decode(c) == Some(l)
    ensures l.validChecksum <==> Xor(c) == 0xFF
  {
    hide XorByte, MakeAddress, Bit, PriorityOf, HopsOf, Nibble, TypeOf, IsDataControl;
    var body, last := c[..|c| - 1], c[|c| - 1];
    assert c == body + [last];
    XorMore(body, last);
    XorFacts.AllOnes(Xor(body), last);
  }

  // ------------------------------------------------------------- the bits

  /** The fields of the control byte by their masks. */
  lemma ControlMask(c: bv8)
    ensures IsDataControl(c as int) <==> c & 0x53 == 0x10
  {
  }

  lemma ControlBits(c: bv8)
    ensures (Bit(c as int, 7) <==> c & 0x80 != 0) && (Bit(c as int, 5) <==> c & 0x20 != 0)
  {
  }

  lemma PriorityMask(c: bv8)
    ensures PriorityOf(c as int) == CodePriority(((c >> 2) & 0x03) as int)
  {
    hide CodePriority;
  }

  /** The fields of the byte with the hop count. */
  lemma HopsMasks(c: bv8)
    ensures var b := c as int;
      && Nibble(b) == (c & 0x0f) as int && HopsOf(b) == ((c >> 4) & 0x07) as int
      && (TypeOf(b) == Group <==> c & 0x80 != 0)
  {
  }

  /** An extended frame whose length field does not say how long it is, is read only if it has 23 bytes:
      its addresses, and eight bytes of its payload. */
  lemma WrongLength(c: Bytes)
    requires |c| >= 7 && IsDataControl(c[0]) && !Bit(c[0], 7) && Nibble(c[1]) == 0 && |c| != c[6] as int + 9
    ensures Decode(c).Some? <==> |c| == 23
    ensures Decode(c).Some? ==>
      var l := Decode(c).value;
      && !l.validLength && l.data == c[7..15]
      && HighByte(l.source) == c[2] && LowByte(l.source) == c[3] && HighByte(l.dest) == c[4] && LowByte(l.dest) == c[5]
      && l.hopCount == HopsOf(c[1]) && l.addressType == TypeOf(c[1])
  {
    hide IsDataControl, Bit, PriorityOf, HopsOf, TypeOf, MakeAddress, HighByte, LowByte, CheckByte;
    AddressRebuilt(c[2], c[3]);
    AddressRebuilt(c[4], c[5]);
  }

  /** LPDU::ToPacket for what is not a data frame. */
  function ControlPacket(p: Pdu): Bytes
    requires !p.Data?
  {
    match p
    case Ack => [0xCC]
    case Busy => [0xC0]
    case Nack => [0x0C]
    case Unknown(pdu) => pdu
  }

  /** Whatever is not a data frame goes out again as it came. */
  lemma ControlRoundTrip(c: Bytes)
    requires !FromPacket(c).Data?
    ensures ControlPacket(FromPacket(c)) == c
    ensures FromPacket(c).Unknown? <==> c != [0xCC] && c != [0xC0] && c != [0x0C]
  {
    hide Decode;
  }
}
