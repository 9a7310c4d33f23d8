/** The TPUART line (`TPUARTwrap`) while it is online: bytes from the bus chip are cut into frames,
    each frame is acknowledged as soon as its header is known, and the echo of a frame being sent
    is told from the frames of others. */
module Tpuart {
  import opened KnxTypes
  import opened Streams
  import Lpdu
  import X = XorFacts

  /** The online states: nothing received, part of a frame received, state of the chip asked for. */
  datatype Phase = Wait | WaitMore | WaitKeepalive

  /** `myAddr` is nonzero if the chip acknowledges by itself; `skip` drops one byte between frames. */
  datatype Line = Line(
    input: Bytes,
    out: Bytes,
    acked: bool,
    echo: bool,
    skip: bool,
    phase: Phase,
    myAddr: Address)

  /** A byte sent to the chip, a frame handed up, or the layer above asked for its next frame. */
  datatype Output = Reply(b: byte) | Deliver(l: LData) | Next

  /** Which destinations are acknowledged: group or individual, and the address. */
  type AckRule = (AddressType, Address) -> bool

  /** One more header byte in an extended frame. */
  function Ext(control: byte): nat {
    if Bit(control, 7) then 0 else 1
  }

  function HeaderSize(c: Bytes): nat
    requires c != []
  {
    6 + Ext(c[0])
  }

  /** The size of a frame, once its header is known. */
  function FrameSize(c: Bytes): nat
    requires c != [] && |c| >= HeaderSize(c)
  {
    if Bit(c[0], 7) then c[5] % 16 + 8 else c[6] as int + 9
  }

  /** Equal but for the repeat flag. */
  predicate SameControl(a: byte, b: byte) {
    a == b || (Bit(a, 5) && a == b + 32) || (Bit(b, 5) && b == a + 32)
  }

  /** Is the frame being received the one being sent? Only the headers are compared. */
  predicate IsEcho(c: Bytes, out: Bytes)
    requires c != [] && |c| >= HeaderSize(c)
  {
    |out| >= HeaderSize(c) && SameControl(c[0], out[0]) && c[1..HeaderSize(c)] == out[1..HeaderSize(c)]
  }

  function AckByte(c: Bytes, ack: AckRule): byte
    requires c != [] && |c| >= HeaderSize(c)
  {
    var e := Ext(c[0]);
    var t := if Bit(c[if e == 1 then 1 else 5], 7) then Group else Individual;
    if ack(t, MakeAddress(c[3 + e], c[4 + e])) then 0x11 else 0x10
  }

  /** RecvLPDU: only undamaged data frames are handed up. */
  function RecvLpdu(c: Bytes): seq<Output> {
    match Lpdu.FromPacket(c)
    case Data(l) => if l.validChecksum then [Deliver(l)] else []
    case _ => []
  }

  /** The decision made once per frame when its header is complete. */
  function Judge(s: Line, ack: AckRule): (Line, seq<Output>)
    requires s.input != [] && |s.input| >= HeaderSize(s.input)
  {
    if s.acked || s.echo || s.myAddr != 0 then (s, [])
    else if IsEcho(s.input, s.out) then (s.(echo := true), [])
    else (s.(acked := true), [Reply(AckByte(s.input, ack))])
  }

  /** in_check. */
  function InCheck(s: Line, ack: AckRule): (Line, seq<Output>)
    requires s.input != []
  {
    if |s.input| < HeaderSize(s.input) then (s.(phase := WaitMore), [])
    else
      var (t, first) := Judge(s, ack);
      if |s.input| < FrameSize(s.input) then (t.(phase := WaitMore), first)
      else
        (t.(input := [], phase := Wait, acked := false, echo := false),
         first + if t.echo then [] else RecvLpdu(s.input))
  }

  /** An acknowledge byte is handed to RecvLPDU as a packet of one byte, whose contents are left
      open: no such packet is a frame. */
  lemma SingleByteIsNoFrame(c: byte)
    ensures RecvLpdu([c]) == []
  {
  }

  /** One turn of recv_Data's loop. */
  function RecvByte(s: Line, c: byte, ack: AckRule): (Line, seq<Output>) {
    if s.input != [] then InCheck(s.(input := s.input + [c]), ack)
    else if s.skip then (s.(skip := false), [])
    else if c == 0x03 || c == 0xCB then (s, [])
    else if c == 0x8B || c == 0x0B then
      if s.out == [] then (s, []) else (s.(out := []), [Next])
    else if Bit(c, 4) && c % 8 == 3 then (s, [])
    else if c % 8 == 7 then
      (if s.phase == WaitKeepalive then s.(phase := Wait, acked := false, echo := false) else s, [])
    else if c == 0xCC || c == 0xC0 || c == 0x0C then (s, [])
    else if !Bit(c, 6) && Bit(c, 4) then (s.(input := [c]), [])
    else (s.(acked := false), [])
  }

  /** A whole stretch of bytes. */
  function Recv(s: Line, bytes: Bytes, ack: AckRule): (Line, seq<Output>) {
    if bytes == [] then (s, [])
    else
      var (t, before) := Recv(s, bytes[..|bytes| - 1], ack);
      var (u, last) := RecvByte(t, bytes[|bytes| - 1], ack);
      (u, before + last)
  }

  lemma {:induction false} RecvConcat(s: Line, a: Bytes, b: Bytes, ack: AckRule)
    ensures var (t, x) := Recv(s, a, ack); var (u, y) := Recv(t, b, ack);
      Recv(s, a + b, ack) == (u, x + y)
    decreases b
  {
    hide RecvByte;
    var (t, x) := Recv(s, a, ack);
    if b == [] {
      assert a + b == a && x + [] == x;
    } else {
      assert (a + b)[..|a + b| - 1] == a + b[..|b| - 1];
      RecvConcat(s, a, b[..|b| - 1], ack);
      var (u, y) := Recv(t, b[..|b| - 1], ack);
      var (v, z) := RecvByte(u, b[|b| - 1], ack);
      assert (x + y) + z == x + (y + z);
    }
  }

  // ------------------------------------------------------------- one frame

  lemma ControlStartsFrame(l: LData, standard: bool)
    ensures var c := Lpdu.ControlByte(l, standard);
      Bit(c, 7) == standard && !Bit(c, 6) && Bit(c, 4) && c % 4 == 0
      && c != 0xCC && c != 0xC0 && c != 0x0C
  {
  }

  lemma LengthNibble(h: byte, n: byte, t: AddressType)
    requires h < 8 && n < 16
    ensures Lpdu.Hops(h, n, t) % 16 == n
  {
  }

  /** The header of an encoded frame announces its size. */
  lemma EncodedSizes(l: LData, e: Bytes)
    requires Lpdu.Encodable(l) && e == Lpdu.Encode(l)
    ensures |e| > HeaderSize(e) && FrameSize(e) == |e|
    ensures e[0] == Lpdu.ControlByte(l, |l.data| <= 16)
    ensures HeaderSize(e) == if |l.data| <= 16 then 6 else 7
  {
    hide Lpdu.ControlByte, Lpdu.Hops, Lpdu.CheckByte, Bit;
    ControlStartsFrame(l, |l.data| <= 16);
    if |l.data| <= 16 {
      LengthNibble(l.hopCount, |l.data| - 1, l.addressType);
      assert e[5] == Lpdu.Header(l)[5];
    } else {
      assert e[6] == Lpdu.Header(l)[6];
    }
  }

  lemma PrefixSizes(e: Bytes, k: nat)
    requires e != [] && |e| >= HeaderSize(e) && 0 < k <= |e|
    ensures HeaderSize(e[..k]) == HeaderSize(e)
    ensures k >= HeaderSize(e) ==> FrameSize(e[..k]) == FrameSize(e)
  {
  }

  lemma PrefixVerdict(e: Bytes, k: nat, out: Bytes, ack: AckRule)
    requires e != [] && |e| >= HeaderSize(e) && HeaderSize(e) <= k <= |e|
    requires HeaderSize(e[..k]) == HeaderSize(e)
    ensures IsEcho(e[..k], out) == IsEcho(e, out) && AckByte(e[..k], ack) == AckByte(e, ack)
  {
    assert e[..k][1..HeaderSize(e)] == e[1..HeaderSize(e)];
  }

  predicate Ready(s: Line) {
    s.input == [] && !s.acked && !s.echo && !s.skip
  }

  /** Does the line take this frame for the echo of its own? */
  predicate Echoes(s: Line, e: Bytes)
    requires e != [] && |e| >= HeaderSize(e)
  {
    s.myAddr == 0 && IsEcho(e, s.out)
  }

  /** The reply to a frame, due when its header is complete. */
  function Replies(s: Line, e: Bytes, k: nat, ack: AckRule): seq<Output>
    requires e != [] && |e| >= HeaderSize(e)
  {
    if k < HeaderSize(e) || s.myAddr != 0 || IsEcho(e, s.out) then [] else [Reply(AckByte(e, ack))]
  }

  /** The line after the first `k` bytes of a frame. */
  function Within(s: Line, e: Bytes, k: nat): Line
    requires e != [] && |e| >= HeaderSize(e) && 0 < k <= |e|
  {
    var judged := k >= HeaderSize(e) && s.myAddr == 0;
    s.(input := e[..k], acked := judged && !IsEcho(e, s.out), echo := judged && IsEcho(e, s.out),
       phase := if k == 1 then s.phase else WaitMore)
  }

  lemma StartOfFrame(s: Line, c: byte, ack: AckRule)
    requires s.input == [] && !s.skip && !Bit(c, 6) && Bit(c, 4) && c % 4 == 0 && c != 0xCC && c != 0xC0 && c != 0x0C
    ensures RecvByte(s, c, ack) == (s.(input := [c]), [])
  {
    assert c % 8 == 0 || c % 8 == 4;
    hide Bit;
  }

  lemma FirstByte(s: Line, l: LData, e: Bytes, ack: AckRule)
    requires Ready(s) && Lpdu.Encodable(l) && e == Lpdu.Encode(l)
    ensures |e| >= HeaderSize(e) && Recv(s, e[..1], ack) == (Within(s, e, 1), [])
  {
    EncodedSizes(l, e);
    ControlStartsFrame(l, |l.data| <= 16);
    hide Lpdu.ControlByte, Lpdu.Encode, Bit, RecvByte;
    assert e[..1][..0] == [] && e[..1] == [e[0]];
    StartOfFrame(s, e[0], ack);
    var none: seq<Output> := [];
    assert Recv(s, [], ack) == (s, none) && none + none == none;
    assert Recv(s, [e[0]], ack) == (s.(input := [e[0]]), none) by {
      assert [e[0]][..0] == [];
    }
    assert Within(s, e, 1) == s.(input := [e[0]]);
  }

  lemma NextByte(s: Line, e: Bytes, k: nat, ack: AckRule)
    requires Ready(s) && e != [] && |e| > HeaderSize(e) && FrameSize(e) == |e| && 0 < k < |e| - 1
    ensures var (t, more) := RecvByte(Within(s, e, k), e[k], ack);
      t == Within(s, e, k + 1) && Replies(s, e, k, ack) + more == Replies(s, e, k + 1, ack)
  {
    assert e[..k] + [e[k]] == e[..k + 1];
    PrefixSizes(e, k + 1);
    if k + 1 >= HeaderSize(e) {
      PrefixVerdict(e, k + 1, s.out, ack);
    }
    hide IsEcho, AckByte, FrameSize, HeaderSize, RecvLpdu;
  }

  lemma {:induction false} PartOfFrame(s: Line, l: LData, e: Bytes, k: nat, ack: AckRule)
    requires Ready(s) && Lpdu.Encodable(l) && e == Lpdu.Encode(l) && 0 < k < |e|
    ensures |e| >= HeaderSize(e)
    ensures Recv(s, e[..k], ack) == (Within(s, e, k), Replies(s, e, k, ack))
    decreases k
  {
    EncodedSizes(l, e);
    if k == 1 {
      FirstByte(s, l, e, ack);
    } else {
      hide RecvByte, Lpdu.Encode, Lpdu.Encodable, IsEcho, FrameSize;
      PartOfFrame(s, l, e, k - 1, ack);
      assert e[..k][..k - 1] == e[..k - 1];
      NextByte(s, e, k - 1, ack);
    }
  }

  lemma LastByte(s: Line, e: Bytes, ack: AckRule)
    requires Ready(s) && e != [] && |e| > HeaderSize(e) && FrameSize(e) == |e|
    ensures var k := |e| - 1;
      RecvByte(Within(s, e, k), e[k], ack) == (s.(phase := Wait), if Echoes(s, e) then [] else RecvLpdu(e))
  {
    var k := |e| - 1;
    assert e[..k] + [e[k]] == e;
    var t := Within(s, e, k);
    assert t.acked || t.echo || t.myAddr != 0;
    assert t.echo == Echoes(s, e);
    assert Judge(t.(input := e), ack) == (t.(input := e), []);
    var none: seq<Output> := [];
    assert none + RecvLpdu(e) == RecvLpdu(e) && none + none == none;
    assert InCheck(t.(input := e), ack) == (s.(phase := Wait), if Echoes(s, e) then none else RecvLpdu(e));
    hide IsEcho, AckByte, FrameSize, HeaderSize, RecvLpdu;
  }

  /** What a frame makes the line do: nothing if it is its own echo, else a reply and its delivery. */
  function Response(s: Line, l: LData, ack: AckRule): seq<Output>
    requires Lpdu.Encodable(l)
  {
    var e := Lpdu.Encode(l);
    EncodedSizes(l, e);
    Replies(s, e, |e|, ack) + if Echoes(s, e) then [] else [Deliver(Exchange(l))]
  }

  lemma WholeFrame(s: Line, l: LData, ack: AckRule)
    requires Ready(s) && Lpdu.WellFormed(l)
    ensures Recv(s, Lpdu.Encode(l), ack) == (s.(phase := Wait), Response(s, l, ack))
  {
    var e := Lpdu.Encode(l);
    EncodedSizes(l, e);
    Lpdu.RoundTrip(l);
    assert RecvLpdu(e) == [Deliver(Exchange(l))];
    hide RecvByte, Lpdu.Encode, Lpdu.Encodable, IsEcho, FrameSize, RecvLpdu;
    var k := |e| - 1;
    PartOfFrame(s, l, e, k, ack);
    LastByte(s, e, ack);
    assert Replies(s, e, k, ack) == Replies(s, e, |e|, ack);
  }

  // ------------------------------------------------------------- a stream of frames

  ghost predicate AllWellFormed(frames: seq<LData>) {
    forall k | 0 <= k < |frames| :: Lpdu.WellFormed(frames[k])
  }

  function Stream(frames: seq<LData>): Bytes
    requires AllWellFormed(frames)
  {
    if frames == [] then [] else Lpdu.Encode(frames[0]) + Stream(frames[1..])
  }

  /** The number of frames that end within the first `n` bytes. */
  function Complete(frames: seq<LData>, n: nat): (k: nat)
    requires AllWellFormed(frames)
    ensures k <= |frames|
  {
    if frames == [] || n < |Lpdu.Encode(frames[0])| then 0
    else 1 + Complete(frames[1..], n - |Lpdu.Encode(frames[0])|)
  }

  /** What a list of frames makes the line do, one frame after the other. */
  function Responses(s: Line, frames: seq<LData>, ack: AckRule): seq<Output>
    requires AllWellFormed(frames)
  {
    if frames == [] then [] else Response(s, frames[0], ack) + Responses(s, frames[1..], ack)
  }

  /** What the frame under way has made it do after the first `n` bytes of the stream. */
  function Underway(s: Line, frames: seq<LData>, n: nat, ack: AckRule): seq<Output>
    requires AllWellFormed(frames)
  {
    if frames == [] then []
    else
      var e := Lpdu.Encode(frames[0]);
      EncodedSizes(frames[0], e);
      if n < |e| then Replies(s, e, n, ack) else Underway(s, frames[1..], n - |e|, ack)
  }

  lemma NoBytes(s: Line, ack: AckRule)
    ensures Recv(s, [], ack) == (s, [])
  {
  }

  lemma PartialOutputs(s: Line, l: LData, e: Bytes, n: nat, ack: AckRule)
    requires Ready(s) && Lpdu.Encodable(l) && e == Lpdu.Encode(l) && n < |e|
    ensures |e| >= HeaderSize(e) && Recv(s, e[..n], ack).1 == Replies(s, e, n, ack)
  {
    EncodedSizes(l, e);
    if n > 0 {
      PartOfFrame(s, l, e, n, ack);
    } else {
      assert e[..0] == [];
    }
  }

  lemma {:induction false} ResponsesPhase(s: Line, frames: seq<LData>, ack: AckRule, n: nat)
    requires AllWellFormed(frames)
    ensures Responses(s.(phase := Wait), frames, ack) == Responses(s, frames, ack)
    ensures Underway(s.(phase := Wait), frames, n, ack) == Underway(s, frames, n, ack)
    decreases frames
  {
    hide Lpdu.Encode, AckByte, IsEcho;
    if frames != [] {
      var e := Lpdu.Encode(frames[0]);
      EncodedSizes(frames[0], e);
      ResponsesPhase(s, frames[1..], ack, if n < |e| then 0 else n - |e|);
    }
  }

  /** At every point of a stream of frames, whatever is being sent: the complete frames have had
      their effect one after the other, and the one under way has had its reply if due. */
  lemma {:induction false} PrefixOfStream(s: Line, frames: seq<LData>, n: nat, ack: AckRule)
    requires Ready(s) && AllWellFormed(frames) && n <= |Stream(frames)|
    ensures var (t, outputs) := Recv(s, Stream(frames)[..n], ack);
      var k := Complete(frames, n);
      && outputs == Responses(s, frames[..k], ack) + Underway(s, frames, n, ack)
      && (n == |Stream(frames)| ==> k == |frames| && Ready(t) && Underway(s, frames, n, ack) == [])
    decreases frames
  {
    hide Recv, Lpdu.Encode, Response;
    if frames == [] {
      NoBytes(s, ack);
      assert Stream(frames)[..n] == [];
    } else {
      var l := frames[0];
      var e := Lpdu.Encode(l);
      var whole := Stream(frames);
      EncodedSizes(l, e);
      if n < |e| {
        assert whole[..n] == e[..n];
        PartialOutputs(s, l, e, n, ack);
        assert frames[..0] == [];
        assert [] + Replies(s, e, n, ack) == Replies(s, e, n, ack);
      } else {
        var rest := Stream(frames[1..]);
        assert whole[..n] == e + rest[..n - |e|];
        WholeFrame(s, l, ack);
        RecvConcat(s, e, rest[..n - |e|], ack);
        var t := s.(phase := Wait);
        PrefixOfStream(t, frames[1..], n - |e|, ack);
        var k := Complete(frames, n);
        assert frames[..k][1..] == frames[1..][..k - 1];
        ResponsesPhase(s, frames[1..][..k - 1], ack, 0);
        ResponsesPhase(s, frames[1..], ack, n - |e|);
        var x, y, z := Response(s, l, ack), Responses(s, frames[1..][..k - 1], ack), Underway(s, frames[1..], n - |e|, ack);
        assert x + (y + z) == (x + y) + z;
      }
    }
  }

  /** The reply to a frame says whether its destination is served here. */
  lemma ReplyIsForDestination(l: LData, ack: AckRule)
    requires Lpdu.Encodable(l)
    ensures var e := Lpdu.Encode(l);
      && |e| >= HeaderSize(e)
      && AckByte(e, ack) == if ack(l.addressType, l.dest) then 0x11 else 0x10
  {
    var e := Lpdu.Encode(l);
    EncodedSizes(l, e);
    HeaderOfEncoded(l, e);
    var h := Lpdu.Header(l);
    var n := |h|;
    assert forall k | 0 <= k < n :: e[k] == e[..n][k] == h[k];
    ControlStartsFrame(l, |l.data| <= 16);
    Lpdu.HopsFields(l.hopCount, if |l.data| <= 16 then |l.data| - 1 else 0, l.addressType);
    Lpdu.AddressFields(l.dest);
    hide Lpdu.Encode, Lpdu.ControlByte, Lpdu.Hops, Bit, MakeAddress, HighByte, LowByte;
  }

  /** One acknowledge byte, unless the chip acknowledges by itself. */
  function ReplyTo(myAddr: Address, l: LData, ack: AckRule): seq<Output> {
    if myAddr != 0 then [] else [Reply(if ack(l.addressType, l.dest) then 0x11 else 0x10)]
  }

  /** Every frame replied to once, then handed up with the two disputed priorities exchanged. */
  function Answers(myAddr: Address, frames: seq<LData>, ack: AckRule): seq<Output> {
    if frames == [] then []
    else ReplyTo(myAddr, frames[0], ack) + [Deliver(Exchange(frames[0]))] + Answers(myAddr, frames[1..], ack)
  }

  lemma ResponseWithoutEcho(s: Line, l: LData, ack: AckRule)
    requires s.out == [] && Lpdu.WellFormed(l)
    ensures Response(s, l, ack) == ReplyTo(s.myAddr, l, ack) + [Deliver(Exchange(l))]
    ensures var e := Lpdu.Encode(l); |e| >= HeaderSize(e) && !IsEcho(e, s.out)
  {
    var e := Lpdu.Encode(l);
    EncodedSizes(l, e);
    ReplyIsForDestination(l, ack);
    hide Lpdu.Encode, AckByte;
  }

  lemma {:induction false} ResponsesAreAnswers(s: Line, frames: seq<LData>, ack: AckRule)
    requires s.out == [] && AllWellFormed(frames)
    ensures Responses(s, frames, ack) == Answers(s.myAddr, frames, ack)
    decreases frames
  {
    hide Response, ReplyTo;
    if frames != [] {
      ResponseWithoutEcho(s, frames[0], ack);
      ResponsesAreAnswers(s, frames[1..], ack);
    }
  }

  lemma {:induction false} UnderwayIsReply(s: Line, frames: seq<LData>, n: nat, ack: AckRule)
    requires s.out == [] && AllWellFormed(frames)
    ensures var k := Complete(frames, n);
      Underway(s, frames, n, ack) == [] ||
      (k < |frames| && Underway(s, frames, n, ack) == ReplyTo(s.myAddr, frames[k], ack))
    decreases frames
  {
    if frames != [] {
      var e := Lpdu.Encode(frames[0]);
      EncodedSizes(frames[0], e);
      ReplyIsForDestination(frames[0], ack);
      ResponseWithoutEcho(s, frames[0], ack);
      hide Lpdu.Encode, AckByte, IsEcho, HeaderSize;
      if n >= |e| {
        UnderwayIsReply(s, frames[1..], n - |e|, ack);
      }
    }
  }

  /** For every list of well-formed frames on the bus, encoded one after the other, and at every
      point of that stream of bytes: an idle line with nothing to send has replied to each complete
      frame once and then handed it up, in order, and done nothing else except that the reply to the
      frame under way may be out already. */
  lemma SegmentationInvertsConcatenation(s: Line, frames: seq<LData>, n: nat, ack: AckRule)
    requires Ready(s) && s.out == [] && AllWellFormed(frames) && n <= |Stream(frames)|
    ensures var (t, outputs) := Recv(s, Stream(frames)[..n], ack);
      var k := Complete(frames, n);
      var done := Answers(s.myAddr, frames[..k], ack);
      && (outputs == done || (k < |frames| && outputs == done + ReplyTo(s.myAddr, frames[k], ack)))
      && (n == |Stream(frames)| ==> k == |frames| && Ready(t) && outputs == Answers(s.myAddr, frames, ack))
  {
    hide Recv, Response, Lpdu.Encode, ReplyTo;
    PrefixOfStream(s, frames, n, ack);
    var k := Complete(frames, n);
    ResponsesAreAnswers(s, frames[..k], ack);
    UnderwayIsReply(s, frames, n, ack);
    var done := Answers(s.myAddr, frames[..k], ack);
    assert done + [] == done;
    assert frames[..|frames|] == frames;
  }

  function RecvChunks(s: Line, chunks: seq<Bytes>, ack: AckRule): (Line, seq<Output>)
    decreases chunks
  {
    if chunks == [] then (s, [])
    else
      var (t, x) := Recv(s, chunks[0], ack);
      var (u, y) := RecvChunks(t, chunks[1..], ack);
      (u, x + y)
  }

  /** Cutting the bytes into reads makes no difference. */
  lemma {:induction false} ChunksDoNotMatter(s: Line, chunks: seq<Bytes>, ack: AckRule)
    ensures RecvChunks(s, chunks, ack) == Recv(s, Flatten(chunks), ack)
    decreases chunks
  {
    hide RecvByte;
    if chunks != [] {
      RecvConcat(s, chunks[0], Flatten(chunks[1..]), ack);
      ChunksDoNotMatter(Recv(s, chunks[0], ack).0, chunks[1..], ack);
    }
  }

  // ------------------------------------------------------------- sending

  lemma {:induction false} XorOfCons(a: byte, s: Bytes)
    ensures Lpdu.Xor([a] + s) == XorByte(a, Lpdu.Xor(s))
    decreases s
  {
    hide XorByte;
    if s == [] {
      assert [a] + s == [a] && [a][..0] == [];
      X.XorCommutes(0, a);
    } else {
      var n := |s| - 1;
      assert ([a] + s)[..n + 1] == [a] + s[..n];
      XorOfCons(a, s[..n]);
      X.XorAssociates(a, Lpdu.Xor(s[..n]), s[n]);
    }
  }

  /** Toggling a bit of the first byte toggles it in the checksum. */
  lemma ToggleKeepsChecksum(a: byte, s: Bytes, bit: byte)
    ensures Lpdu.CheckByte([XorByte(a, bit)] + s) == XorByte(Lpdu.CheckByte([a] + s), bit)
  {
    hide XorByte;
    var x := Lpdu.Xor(s);
    XorOfCons(a, s);
    XorOfCons(XorByte(a, bit), s);
    X.XorAssociates(a, bit, x);
    X.XorCommutes(bit, x);
    X.XorAssociates(a, x, bit);
    X.XorComplement(a, x, bit);
  }

  lemma ControlCleared(l: LData, standard: bool)
    requires !l.repeated
    ensures XorByte(Lpdu.ControlByte(l, standard), 0x20) == Lpdu.ControlByte(l.(repeated := true), standard)
  {
    hide XorByte;
    match l.priority
    case Low => X.ClearBit(if standard then 0xBC else 0x3C);
    case Normal => X.ClearBit(if standard then 0xB4 else 0x34);
    case Urgent => X.ClearBit(if standard then 0xB8 else 0x38);
    case System => X.ClearBit(if standard then 0xB0 else 0x30);
  }

  /** The packet after it was sent: its first and last byte have bit 0x20 toggled if it was set. */
  function Flagged(out: Bytes): Bytes
    requires out != []
  {
    if !Bit(out[0], 5) then out
    else
      var cleared := out[0 := XorByte(out[0], 0x20)];
      cleared[|out| - 1 := XorByte(cleared[|out| - 1], 0x20)]
  }

  lemma FlaggedBytes(c: byte, s: Bytes, k: byte)
    requires Bit(c, 5)
    ensures Flagged([c] + s + [k]) == [XorByte(c, 0x20)] + s + [XorByte(k, 0x20)]
  {
    hide XorByte;
  }

  /** After the first transmission the packet kept for the next one is the same frame, flagged as a
      repetition, with a valid checksum; from then on it stays as it is. */
  lemma SentFrameIsRepeat(l: LData)
    requires Lpdu.Encodable(l)
    ensures Lpdu.Encode(l) != [] && Flagged(Lpdu.Encode(l)) == Lpdu.Encode(l.(repeated := true))
  {
    var standard := |l.data| <= 16;
    var c := Lpdu.ControlByte(l, standard);
    Lpdu.ControlFields(l, standard);
    assert Lpdu.Encode(l)[0] == c;
    if l.repeated {
      assert l == l.(repeated := true);
    } else {
      var s := Lpdu.Header(l)[1..] + l.data;
      var r := l.(repeated := true);
      assert Lpdu.Header(l) + l.data == [c] + s;
      assert Lpdu.Header(r) + l.data == [Lpdu.ControlByte(r, standard)] + s;
      ControlCleared(l, standard);
      assert Lpdu.Encode(l) == [c] + s + [Lpdu.CheckByte([c] + s)];
      hide XorByte, Lpdu.ControlByte, Lpdu.CheckByte, Lpdu.Header, Bit, Flagged;
      ToggleKeepsChecksum(c, s, 0x20);
      FlaggedBytes(c, s, Lpdu.CheckByte([c] + s));
    }
  }

  lemma ControlsAreSame(l: LData, m: LData, standard: bool)
    requires l == m.(repeated := l.repeated)
    ensures SameControl(Lpdu.ControlByte(l, standard), Lpdu.ControlByte(m, standard))
  {
  }

  lemma HeaderOfEncoded(l: LData, e: Bytes)
    requires Lpdu.Encodable(l) && e == Lpdu.Encode(l)
    ensures |e| > |Lpdu.Header(l)| && e[..|Lpdu.Header(l)|] == Lpdu.Header(l)
  {
  }

  lemma RepeatIsEcho(l: LData, m: LData, e: Bytes, out: Bytes)
    requires Lpdu.Encodable(l) && l == m.(repeated := l.repeated)
    requires e == Lpdu.Encode(l) && out == Lpdu.Encode(m)
    ensures |e| > HeaderSize(e) && IsEcho(e, out)
  {
    EncodedSizes(l, e);
    EncodedSizes(m, out);
    HeaderOfEncoded(l, e);
    HeaderOfEncoded(m, out);
    ControlsAreSame(l, m, |l.data| <= 16);
    var a, b := Lpdu.Header(l), Lpdu.Header(m);
    assert |a| == |b| == HeaderSize(e) && a[1..] == b[1..];
    hide Lpdu.Encode, Lpdu.Header, SameControl, Lpdu.ControlByte, HeaderSize;
    var h := HeaderSize(e);
    assert e[1..h] == e[..h][1..] && out[1..h] == out[..h][1..];
  }

  lemma NoResponse(s: Line, l: LData, ack: AckRule)
    requires Lpdu.Encodable(l) && |Lpdu.Encode(l)| > HeaderSize(Lpdu.Encode(l)) && Echoes(s, Lpdu.Encode(l))
    ensures Response(s, l, ack) == []
  {
    hide Lpdu.Encode, IsEcho, AckByte, HeaderSize;
  }

  /** The echo of the frame being sent, whatever its repeat flag by now, is neither acknowledged nor
      handed up. */
  lemma EchoIsSilent(s: Line, l: LData, m: LData, ack: AckRule)
    requires Ready(s) && Lpdu.WellFormed(l) && l == m.(repeated := l.repeated)
    requires s.out == Lpdu.Encode(m) && s.myAddr == 0
    ensures Recv(s, Lpdu.Encode(l), ack) == (s.(phase := Wait), [])
  {
    hide Lpdu.Encode, Recv, IsEcho, AckByte, HeaderSize, Response;
    RepeatIsEcho(l, m, Lpdu.Encode(l), s.out);
    NoResponse(s, l, ack);
    WholeFrame(s, l, ack);
  }

  /** The chip confirms what it sent, well or badly: the frame is released and the layer above asked
      for its next one, once; a confirmation of nothing does nothing. */
  lemma Confirmed(s: Line, c: byte, ack: AckRule)
    requires Ready(s) && (c == 0x8B || c == 0x0B)
    ensures Recv(s, [c], ack) == (s.(out := []), if s.out == [] then [] else [Next])
  {
    var none: seq<Output> := [];
    assert [c][..0] == [] && Recv(s, [], ack) == (s, none);
    assert none + [Next] == [Next] && none + none == none;
    hide InCheck;
  }

  /** The whole course of a transmission: frames of others, the echo of the frame, its confirmation,
      and frames of others again. The frames before are answered as usual unless they look like
      the echo, the echo is silent, the confirmation is followed by exactly one request for more,
      and all frames behind it are answered. */
  lemma SentFrameIsReleased(s: Line, before: seq<LData>, l: LData, m: LData, c: byte, after: seq<LData>, ack: AckRule)
    requires Ready(s) && s.myAddr == 0 && AllWellFormed(before) && AllWellFormed(after)
    requires Lpdu.WellFormed(l) && l == m.(repeated := l.repeated) && s.out == Lpdu.Encode(m)
    requires c == 0x8B || c == 0x0B
    ensures var (t, outputs) := Recv(s, Stream(before) + Lpdu.Encode(l) + [c] + Stream(after), ack);
      && outputs == Responses(s, before, ack) + [Next] + Answers(0, after, ack)
      && Ready(t) && t.out == []
  {
    hide Recv, Response, Lpdu.Encode, ReplyTo, RecvByte;
    var (s1, x) := Recv(s, Stream(before), ack);
    WholeStream(s, before, ack);
    EchoIsSilent(s1, l, m, ack);
    var s2 := Recv(s1, Lpdu.Encode(l), ack).0;
    assert s.out != [] by { EncodedSizes(m, s.out); }
    Confirmed(s2, c, ack);
    var s3 := s2.(out := []);
    WholeStream(s3, after, ack);
    ResponsesAreAnswers(s3, after, ack);
    RecvConcat(s, Stream(before), Lpdu.Encode(l), ack);
    RecvConcat(s, Stream(before) + Lpdu.Encode(l), [c], ack);
    RecvConcat(s, Stream(before) + Lpdu.Encode(l) + [c], Stream(after), ack);
    assert x + [] == x;
  }

  lemma {:induction false} WholeStream(s: Line, frames: seq<LData>, ack: AckRule)
    requires Ready(s) && AllWellFormed(frames)
    ensures var (t, outputs) := Recv(s, Stream(frames), ack);
      outputs == Responses(s, frames, ack) && t == s.(phase := t.phase)
    decreases frames
  {
    hide Recv, Lpdu.Encode, Response;
    if frames == [] {
      NoBytes(s, ack);
    } else {
      WholeFrame(s, frames[0], ack);
      RecvConcat(s, Lpdu.Encode(frames[0]), Stream(frames[1..]), ack);
      WholeStream(s.(phase := Wait), frames[1..], ack);
      ResponsesPhase(s, frames[1..], ack, 0);
    }
  }

  /** What every byte does between frames: it starts a frame, confirms one, or does nothing but to show
      that the chip is alive. */
  lemma BetweenFrames(s: Line, c: byte, ack: AckRule)
    requires Ready(s)
    ensures var starts := !Bit(c, 6) && Bit(c, 4) && c % 8 != 3 && c % 8 != 7;
      RecvByte(s, c, ack) ==
        if starts then (s.(input := [c]), [])
        else if (c == 0x8B || c == 0x0B) && s.out != [] then (s.(out := []), [Next])
        else (s.(phase := if c % 8 == 7 && s.phase == WaitKeepalive then Wait else s.phase), [])
    ensures RecvByte(s.(skip := true), c, ack) == (s, [])
  {
    hide InCheck;
  }

  /** A frame is taken for the echo of the one being sent exactly if the two agree in priority, both
      addresses, hop count and length; payload and repeat flag are not looked at. */
  lemma EchoIff(l: LData, m: LData)
    requires Lpdu.Encodable(l) && Lpdu.Encodable(m)
    ensures var e := Lpdu.Encode(l);
      |e| >= HeaderSize(e) &&
      (IsEcho(e, Lpdu.Encode(m)) <==>
        && l.priority == m.priority && l.addressType == m.addressType && l.source == m.source && l.dest == m.dest
        && l.hopCount == m.hopCount && |l.data| == |m.data|)
  {
    var e, out := Lpdu.Encode(l), Lpdu.Encode(m);
    EncodedSizes(l, e);
    EncodedSizes(m, out);
    if IsEcho(e, out) {
      EchoAgrees(l, m, e, out);
    } else if l.priority == m.priority && l.addressType == m.addressType && l.source == m.source && l.dest == m.dest
        && l.hopCount == m.hopCount && |l.data| == |m.data| {
      HeadersAgree(l, m, e, out);
    }
  }

  lemma HeadersAgree(l: LData, m: LData, e: Bytes, out: Bytes)
    requires Lpdu.Encodable(l) && Lpdu.Encodable(m) && e == Lpdu.Encode(l) && out == Lpdu.Encode(m)
    requires l.priority == m.priority && l.addressType == m.addressType && l.source == m.source && l.dest == m.dest
    requires l.hopCount == m.hopCount && |l.data| == |m.data|
    ensures |e| > HeaderSize(e) && IsEcho(e, out)
  {
    var a, b := Lpdu.Header(l), Lpdu.Header(m);
    EncodedSizes(l, e);
    EncodedSizes(m, out);
    HeaderOfEncoded(l, e);
    HeaderOfEncoded(m, out);
    SameControls(l, m, |l.data| <= 16);
    assert |a| == |b| == HeaderSize(e) && a[1..] == b[1..];
    hide Lpdu.Encode, Lpdu.Header, SameControl, Lpdu.ControlByte, HeaderSize;
    var h := HeaderSize(e);
    assert e[1..h] == e[..h][1..] && out[1..h] == out[..h][1..];
  }

  lemma SameControls(l: LData, m: LData, standard: bool)
    requires l.priority == m.priority
    ensures SameControl(Lpdu.ControlByte(l, standard), Lpdu.ControlByte(m, standard))
  {
  }

  /** The control bytes say whether the frame is a standard one, and its priority. */
  lemma ControlsTell(l: LData, m: LData, x: bool, y: bool)
    requires SameControl(Lpdu.ControlByte(l, x), Lpdu.ControlByte(m, y))
    ensures l.priority == m.priority && x == y
  {
  }

  lemma HopsTell(g: byte, n: byte, t: AddressType, h: byte, k: byte, u: AddressType)
    requires g < 8 && h < 8 && n < 16 && k < 16 && Lpdu.Hops(g, n, t) == Lpdu.Hops(h, k, u)
    ensures g == h && n == k && t == u
  {
    Lpdu.HopsFields(g, n, t);
    Lpdu.HopsFields(h, k, u);
    hide Lpdu.Hops, Lpdu.HopsOf, Lpdu.Nibble, Lpdu.TypeOf;
  }

  lemma EchoAgrees(l: LData, m: LData, e: Bytes, out: Bytes)
    requires Lpdu.Encodable(l) && Lpdu.Encodable(m) && e == Lpdu.Encode(l) && out == Lpdu.Encode(m)
    requires e != [] && |e| >= HeaderSize(e) && IsEcho(e, out)
    ensures l.priority == m.priority && l.addressType == m.addressType && l.source == m.source && l.dest == m.dest
    ensures l.hopCount == m.hopCount && |l.data| == |m.data|
  {
    EncodedSizes(l, e);
    EncodedSizes(m, out);
    HeaderOfEncoded(l, e);
    HeaderOfEncoded(m, out);
    hide Lpdu.Encode, SameControl, Lpdu.ControlByte, Lpdu.Hops, HighByte, LowByte, MakeAddress, Bit;
    ControlsTell(l, m, |l.data| <= 16, |m.data| <= 16);
    var a, b := Lpdu.Header(l), Lpdu.Header(m);
    var h := |a|;
    assert h == |b| == HeaderSize(e);
    forall k | 1 <= k < h
      ensures a[k] == b[k]
    {
      assert e[1..h][k - 1] == out[1..h][k - 1] && e[..h][k] == e[k] && out[..h][k] == out[k];
    }
    Lpdu.AddressFields(l.source);
    Lpdu.AddressFields(m.source);
    Lpdu.AddressFields(l.dest);
    Lpdu.AddressFields(m.dest);
    if |l.data| <= 16 {
      HopsTell(l.hopCount, |l.data| - 1, l.addressType, m.hopCount, |m.data| - 1, m.addressType);
    } else {
      HopsTell(l.hopCount, 0, l.addressType, m.hopCount, 0, m.addressType);
    }
  }

  /** The byte the chip wants before byte number `i` of `n`: its index, and whether it is the last. */
  function Prefix(i: nat, n: nat): byte {
    i % 64 + if i + 1 == n then 0x40 else 0x80
  }

  /** What the chip makes of it: bit 7 announces a byte and bit 6 the last one, both with the index in
      the six bits below. */
  lemma ChipReads(w: Bytes, out: Bytes, i: nat)
    requires IsEscaped(w, out) && i < |out|
    ensures w[2 * i + 1] == out[i] && w[2 * i] % 64 == i % 64
    ensures (Bit(w[2 * i], 7) <==> i + 1 < |out|) && (Bit(w[2 * i], 6) <==> i + 1 == |out|)
  {
    assert w[2 * i] == Prefix(i, |out|);
  }

  // ------------------------------------------------------------- the object

  class TpuartWrap {
    var input: Bytes
    var out: Bytes
    var acked: bool
    var recvEcho: bool
    var phase: Phase
    var skipChar: bool
    const myAddr: Address
    var nextFree: bool
    var sendWait: bool
    var sendTimer: bool
    var sendRetry: nat
    var log: seq<Output>
    var sent: seq<Bytes>

    function State(): Line
      reads this
    {
      Line(input, out, acked, recvEcho, skipChar, phase, myAddr)
    }

    /** The line as it comes online. */
    constructor (addr: Address)
      ensures State() == Line([], [], false, false, false, Wait, addr) && log == [] && sent == []
      ensures nextFree && !sendWait && !sendTimer && sendRetry == 0
    {
      input, out, acked, recvEcho, skipChar, phase, myAddr := [], [], false, false, false, Wait, addr;
      nextFree, sendWait, sendTimer, sendRetry := true, false, false, 0;
      log, sent := [], [];
    }

    method SetWait()
      modifies `phase, `acked, `recvEcho
      ensures State() == old(State()).(phase := Wait, acked := false, echo := false)
    {
      phase, acked, recvEcho := Wait, false, false;
    }

    method CheckInput(ack: AckRule)
      requires input != []
      modifies this
      ensures State() == InCheck(old(State()), ack).0 && log == old(log) + InCheck(old(State()), ack).1
      ensures sent == old(sent)
    {
      hide AckByte, IsEcho, RecvLpdu, FrameSize;
      ghost var was := log;
      if |input| >= HeaderSize(input) {
        if !acked && !recvEcho && myAddr == 0 {
          if IsEcho(input, out) {
            recvEcho := true;
          } else {
            log := log + [Reply(AckByte(input, ack))];
            acked := true;
          }
        }
        assert log == was + Judge(old(State()), ack).1;
        if |input| >= FrameSize(input) {
          if !recvEcho {
            log := log + RecvLpdu(input);
          }
          input := [];
        }
      }
      if input == [] {
        SetWait();
      } else {
        phase := WaitMore;
      }
    }

    /** recv_Data: the bytes one by one. */
    method RecvData(chunk: Bytes, ack: AckRule)
      modifies this
      ensures State() == Recv(old(State()), chunk, ack).0
      ensures log == old(log) + Recv(old(State()), chunk, ack).1
      ensures sent == old(sent)
    {
      hide RecvByte, InCheck;
      for k := 0 to |chunk|
        invariant State() == Recv(old(State()), chunk[..k], ack).0
        invariant log == old(log) + Recv(old(State()), chunk[..k], ack).1
        invariant sent == old(sent)
      {
        assert chunk[..k + 1][..k] == chunk[..k];
        RecvOne(chunk[k], ack);
      }
      assert chunk[..|chunk|] == chunk;
    }

    method RecvOne(c: byte, ack: AckRule)
      modifies this
      ensures State() == RecvByte(old(State()), c, ack).0 && log == old(log) + RecvByte(old(State()), c, ack).1
      ensures sent == old(sent)
    {
      hide InCheck;
      if input != [] {
        input := input + [c];
        CheckInput(ack);
      } else if skipChar {
        skipChar := false;
      } else if c == 0x03 || c == 0xCB {
      } else if c == 0x8B || c == 0x0B {
        if out != [] {
          out := [];
          sendRetry, sendTimer := 0, false;
          log := log + [Next];
        }
      } else if Bit(c, 4) && c % 8 == 3 {
      } else if c % 8 == 7 {
        if phase == WaitKeepalive {
          SetWait();
        }
      } else if c == 0xCC || c == 0xC0 || c == 0x0C {
      } else if !Bit(c, 6) && Bit(c, 4) {
        input := [c];
      } else {
        acked := false;
      }
    }

    /** send_again: every byte is preceded by its index, the packet is flagged for next time and the
        send timer started; if the interface below is busy this waits. */
    method SendAgain()
      modifies `sent, `out, `sendWait, `sendTimer
      ensures old(out) == [] ==> out == [] && sent == old(sent) && sendWait == old(sendWait) && sendTimer == old(sendTimer)
      ensures old(out) != [] && !nextFree ==> out == old(out) && sent == old(sent) && sendWait && sendTimer == old(sendTimer)
      ensures old(out) != [] && nextFree ==>
        && out == Flagged(old(out)) && sendTimer && sendWait == old(sendWait)
        && |sent| == |old(sent)| + 1 && sent[..|old(sent)|] == old(sent) && IsEscaped(sent[|old(sent)|], old(out))
    {
      hide IsEscaped, XorByte, Bit;
      if out == [] {
        return;
      }
      if !nextFree {
        sendWait := true;
        return;
      }
      var w := Escape(out);
      sent := sent + [w];
      sendTimer := true;
      if Bit(out[0], 5) {
        out := out[0 := XorByte(out[0], 0x20)];
        out := out[|out| - 1 := XorByte(out[|out| - 1], 0x20)];
      }
    }

    /** send_L_Data. */
    method SendLData(l: LData)
      requires out == [] && Lpdu.Encodable(l)
      modifies `sent, `out, `sendWait, `sendTimer
      ensures nextFree ==>
        && out == Lpdu.Encode(l.(repeated := true)) && sendTimer
        && |sent| == |old(sent)| + 1 && IsEscaped(sent[|old(sent)|], Lpdu.Encode(l))
      ensures !nextFree ==> out == Lpdu.Encode(l) && sendWait && sent == old(sent)
    {
      hide Lpdu.Encode, Lpdu.Encodable, Flagged, IsEscaped;
      SentFrameIsRepeat(l);
      out := Lpdu.ToPacket(l);
      SendAgain();
    }

    /** do_send_Next: the interface below is free again, and what waited for it goes out. */
    method LowerNext()
      modifies `sent, `out, `sendWait, `sendTimer, `nextFree
      ensures nextFree && !sendWait
      ensures if old(sendWait) && old(out) != [] then
                && out == Flagged(old(out)) && |sent| == |old(sent)| + 1 && IsEscaped(sent[|old(sent)|], old(out))
              else out == old(out) && sent == old(sent)
    {
      hide Flagged, IsEscaped;
      nextFree := true;
      if sendWait {
        sendWait := false;
        SendAgain();
      }
    }

    /** sendtimer_cb: the packet goes out again, or after four such repetitions the line fails. */
    method SendTimeout() returns (failed: bool)
      requires sendTimer
      modifies `sent, `out, `sendWait, `sendTimer, `sendRetry
      ensures failed <==> old(sendRetry) > 3
      ensures sendRetry == old(sendRetry) + 1
      ensures if !failed && nextFree && old(out) != [] then
                && out == Flagged(old(out)) && sendTimer
                && |sent| == |old(sent)| + 1 && IsEscaped(sent[|old(sent)|], old(out))
              else out == old(out) && sent == old(sent) && !sendTimer
    {
      hide Flagged, IsEscaped;
      sendTimer := false;
      failed := sendRetry > 3;
      sendRetry := sendRetry + 1;
      if !failed {
        SendAgain();
      }
    }
  }

  /** `w` holds the bytes of `out`, each after its index. */
  predicate IsEscaped(w: Bytes, out: Bytes) {
    && |w| == 2 * |out|
    && forall i | 0 <= i < |out| :: w[2 * i] == Prefix(i, |out|) && w[2 * i + 1] == out[i]
  }

  method Escape(out: Bytes) returns (w: Bytes)
    requires out != []
    ensures IsEscaped(w, out)
  {
    var a := new byte[2 * |out|];
    for i := 0 to |out|
      invariant forall j | 0 <= j < i :: a[2 * j] == 0x80 + j % 64 && a[2 * j + 1] == out[j]
    {
      a[2 * i] := 0x80 + i % 64;
      a[2 * i + 1] := out[i];
    }
    var z := 2 * (|out| - 1);
    a[z] := a[z] % 64 + 0x40;
    w := a[..];
  }
}
