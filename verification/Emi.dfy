/** The cEMI and EMI1/2 message codecs (src/libserver/emi.cpp). */
module Emi {
  import opened KnxTypes
  import opened Lpdu

  const L_DATA_REQ: byte := 0x11
  const L_DATA_IND: byte := 0x29
  const L_DATA_CON: byte := 0x2E

  /** cEMI carries one payload byte less than the link layer. */
  ghost predicate CemiEncodable(l: LData) {
    Encodable(l) && |l.data| < 0xff
  }

  /** Only indications carry the repeat flag. */
  function CemiRepeated(code: byte, l: LData): bool {
    code == L_DATA_IND && l.repeated
  }

  function CemiBody(code: byte, l: LData): Bytes
    requires CemiEncodable(l)
  {
    [ControlByte(l.(repeated := CemiRepeated(code, l)), |l.data| <= 16),
     Hops(l.hopCount, 0, l.addressType),
     HighByte(l.source), LowByte(l.source), HighByte(l.dest), LowByte(l.dest),
     |l.data| - 1] + l.data
  }

  /** L_Data_ToCEMI: message code, no additional information, then the body. */
  function ToCemi(code: byte, l: LData): (pdu: Bytes)
    requires CemiEncodable(l)
    ensures |pdu| == 9 + |l.data| && pdu[0] == code
  {
    [code, 0] + CemiBody(code, l)
  }

  /** What a decoder reads from the body that follows the additional information. */
  function BodyFrame(code: byte, b: Bytes): LData
    requires 7 <= |b| && 7 + b[6] + 1 <= |b|
  {
    LData(PriorityOf(b[0]), code == L_DATA_IND && !Bit(b[0], 5), true, true, TypeOf(b[1]),
          MakeAddress(b[2], b[3]), MakeAddress(b[4], b[5]), HopsOf(b[1]), b[7..8 + b[6]])
  }

  /** CEMI_to_L_Data. */
  function FromCemi(c: Bytes): Option<LData> {
    if |c| < 2 then None
    else
      var start := c[1] as int + 2;
      if |c| < 7 + start || |c| < 7 + start + c[6 + start] as int + 1 then None
      else if !Bit(c[start], 7) && Nibble(c[start + 1]) != 0 then None
      else Some(BodyFrame(c[0], c[start..]))
  }

  lemma BodyRoundTrip(code: byte, l: LData)
    requires CemiEncodable(l)
    ensures BodyFrame(code, CemiBody(code, l)) ==
            Exchange(l).(repeated := CemiRepeated(code, l), validChecksum := true, validLength := true)
    ensures Nibble(CemiBody(code, l)[1]) == 0
  {
    hide ControlByte, IsDataControl, Bit, PriorityOf, Hops, HopsOf, Nibble, TypeOf, MakeAddress, HighByte, LowByte;
    ControlFields(l.(repeated := CemiRepeated(code, l)), |l.data| <= 16);
    HopsFields(l.hopCount, 0, l.addressType);
    AddressFields(l.source);
    AddressFields(l.dest);
    assert CemiBody(code, l)[7..8 + (|l.data| - 1)] == l.data;
  }

  /** Decoding skips any additional information a sender put in front of the body. */
  lemma AdditionalInfoIsSkipped(code: byte, info: Bytes, body: Bytes)
    requires |info| < 256
    ensures FromCemi([code, |info|] + info + body) == FromCemi([code, 0] + body)
  {
    hide Bit, PriorityOf, HopsOf, Nibble, TypeOf, MakeAddress;
    var c := [code, |info|] + info + body;
    var start := |info| + 2;
    assert c[start..] == body;
    assert ([code, 0] + body)[2..] == body;
    assert |c| == start + |body|;
    if 7 <= |body| {
      assert c[start] == body[0] && c[start + 1] == body[1] && c[6 + start] == body[6];
    }
  }

  /** A frame survives cEMI with the two disputed priorities exchanged; the repeat flag
      survives in indications only. */
  lemma CemiRoundTrip(code: byte, l: LData)
    requires WellFormed(l) && |l.data| < 0xff
    ensures FromCemi(ToCemi(code, l)) == Some(Exchange(l).(repeated := CemiRepeated(code, l)))
  {
    hide ControlByte, Bit, PriorityOf, Hops, HopsOf, Nibble, TypeOf, MakeAddress, HighByte, LowByte;
    var c := ToCemi(code, l);
    BodyRoundTrip(code, l);
    assert c[2..] == CemiBody(code, l);
    assert c[8] == CemiBody(code, l)[6] && c[3] == CemiBody(code, l)[1];
  }

  /** The message code is in front, without additional information behind it, and a frame with a
      payload of at most 16 bytes is marked as a standard one. */
  lemma CemiHead(code: byte, l: LData)
    requires CemiEncodable(l)
    ensures var c := ToCemi(code, l);
      c[0] == code && c[1] == 0 && (Bit(c[2], 7) <==> |l.data| <= 16)
  {
    ControlFields(l.(repeated := CemiRepeated(code, l)), |l.data| <= 16);
    hide ControlByte, Bit;
  }

  /** Two indication trips are the identity. */
  lemma CemiTwoTrips(l: LData)
    requires WellFormed(l) && |l.data| < 0xff
    ensures FromCemi(ToCemi(L_DATA_IND, l)).Some?
    ensures WellFormed(FromCemi(ToCemi(L_DATA_IND, l)).value)
    ensures FromCemi(ToCemi(L_DATA_IND, FromCemi(ToCemi(L_DATA_IND, l)).value)) == Some(l)
  {
    hide ToCemi, FromCemi;
    CemiRoundTrip(L_DATA_IND, l);
    CemiRoundTrip(L_DATA_IND, Exchange(l));
  }

  /** L_Data_ToEMI. The source is not transmitted and the length field is one nibble. */
  function ToEmi(code: byte, l: LData): (pdu: Bytes)
    requires 1 <= |l.data|
  {
    [code, PriorityCode(l.priority) * 4, 0, 0, HighByte(l.dest), LowByte(l.dest),
     Hops(l.hopCount, (|l.data| - 1) % 16, l.addressType)] + l.data
  }

  /** EMI_to_L_Data. */
  function FromEmi(c: Bytes): Option<LData> {
    if |c| < 8 then None
    else
      var len := Nibble(c[6]) + 1;
      var n := if len > |c| - 7 then |c| - 7 else len;
      Some(LData(PriorityOf(c[1]), false, true, true, TypeOf(c[6]),
                 MakeAddress(c[2], c[3]), MakeAddress(c[4], c[5]), HopsOf(c[6]), c[7..7 + n]))
  }

  lemma EmiPriority(p: Priority)
    ensures PriorityOf(PriorityCode(p) * 4) == ExchangePriority(p)
  {
  }

  /** The message code is in front. Destination, type and hop count survive EMI1/2; the payload survives if and only if it
      has at most 16 bytes. */
  lemma EmiRoundTrip(code: byte, l: LData)
    requires 1 <= |l.data| && l.hopCount < 8
    ensures ToEmi(code, l)[0] == code && FromEmi(ToEmi(code, l)).Some?
    ensures var r := FromEmi(ToEmi(code, l)).value;
      && r.dest == l.dest && r.addressType == l.addressType && r.hopCount == l.hopCount
      && r.priority == ExchangePriority(l.priority)
      && r.source == 0 && !r.repeated
      && (r.data == l.data <==> |l.data| <= 16)
      && r.data <= l.data
  {
    hide Hops, HopsOf, Nibble, TypeOf, PriorityOf, HighByte, LowByte;
    var c := ToEmi(code, l);
    HopsFields(l.hopCount, (|l.data| - 1) % 16, l.addressType);
    AddressFields(l.dest);
    EmiPriority(l.priority);
    assert c[7..] == l.data;
    var n := (|l.data| - 1) % 16 + 1;
    assert c[7..7 + n] == l.data[..n];
  }

  /** What is read from any message: the source as it stands there, and as much of the payload as the
      length field announces and the message has. */
  lemma EmiFields(c: Bytes)
    ensures FromEmi(c).Some? <==> |c| >= 8
    ensures |c| >= 8 ==>
      var l := FromEmi(c).value;
      var announced := Nibble(c[6]) as int + 1;
      && l.data <= c[7..] && |l.data| == (if announced <= |c| - 7 then announced else |c| - 7)
      && HighByte(l.source) == c[2] && LowByte(l.source) == c[3] && HighByte(l.dest) == c[4] && LowByte(l.dest) == c[5]
      && l.validChecksum && l.validLength && !l.repeated
  {
    hide HopsOf, TypeOf, PriorityOf, HighByte, LowByte, MakeAddress, Nibble;
    if |c| >= 8 {
      AddressRebuilt(c[2], c[3]);
      AddressRebuilt(c[4], c[5]);
      var n := |FromEmi(c).value.data|;
      assert c[7..7 + n] == c[7..][..n];
    }
  }
}
