/** The serial line of FT1.2 frames (`FT12wrap`; frame format class FT1.2 of IEC 60870-5-1): single
    bytes, frames of fixed and of variable length, a frame count bit against repetitions. */
module Ft12 {
  import opened KnxTypes

  /** The unprocessed bytes, the expected frame count bit, the last payload, whether an
      acknowledgement is awaited, and the frame it is awaited for. */
  datatype Ft = Ft(akt: Bytes, recvFlag: bool, last: Bytes, sendWait: bool, out: Bytes)

  /** An acknowledgement sent, a payload handed up, or the layer above asked for its next frame. */
  datatype Output = Ack | Deliver(payload: Bytes) | Next

  /** Sum of the bytes modulo 256. */
  function Sum(s: Bytes): byte {
    if s == [] then 0 else (Sum(s[..|s| - 1]) as int + s[|s| - 1] as int) % 256
  }

  /** The control byte of the next new frame. */
  function Fresh(recvFlag: bool): byte {
    if recvFlag then 0xD3 else 0xF3
  }

  // ------------------------------------------------------------- what the parts of a stream do

  /** What a sender of well-formed bytes may put on the line. */
  datatype Item = Single | Short(control: byte) | Long(control: byte, payload: Bytes)

  predicate WellFormed(i: Item) {
    i.Long? ==> |i.payload| <= 254
  }

  function Encode(i: Item): Bytes
    requires WellFormed(i)
  {
    match i
    case Single => [0xE5]
    case Short(c) => [0x10, c, c, 0x16]
    case Long(c, p) =>
      [0x68, |p| + 1, |p| + 1, 0x68] + ([c] + p) + [Sum([c] + p), 0x16]
  }

  function OnSingle(s: Ft): (Ft, seq<Output>) {
    if s.sendWait then (s.(sendWait := false, out := []), [Next]) else (s, [])
  }

  function OnShort(s: Ft, c: byte): (Ft, seq<Output>) {
    (if c == Fresh(s.recvFlag) then s.(recvFlag := !s.recvFlag) else s,
     [Ack] + if c % 16 == 0 then [Deliver([0xA0])] else [])
  }

  function OnLong(s: Ft, c: byte, payload: Bytes): (Ft, seq<Output>) {
    if c == Fresh(!s.recvFlag) then
      (if payload != s.last then s.(recvFlag := !s.recvFlag) else s, [Ack])
    else if c == Fresh(s.recvFlag) then
      (s.(recvFlag := !s.recvFlag, last := payload), [Ack, Deliver(payload)])
    else (s, [Ack])
  }

  function OnItem(s: Ft, i: Item): (Ft, seq<Output>) {
    match i
    case Single => OnSingle(s)
    case Short(c) => OnShort(s, c)
    case Long(c, p) => OnLong(s, c, p)
  }

  // ------------------------------------------------------------- process_read

  /** One turn of the loop leaves it, or goes on. */
  datatype Turn = Halt(s: Ft) | Go(s: Ft, outputs: seq<Output>)

  function Drop(s: Ft, n: nat): Ft
    requires n <= |s.akt|
  {
    s.(akt := s.akt[n..])
  }

  function Proceed(s: Ft, n: nat, r: (Ft, seq<Output>)): Turn
    requires n <= |s.akt|
  {
    Go(r.0.(akt := s.akt[n..]), r.1)
  }

  /** A frame of variable length that is complete: taken, or dropped if damaged. */
  function WholeLong(s: Ft, n: nat): (t: Turn)
    requires n + 6 <= |s.akt|
    ensures t.Go? && |t.s.akt| < |s.akt|
  {
    var a := s.akt;
    if a[n + 4] != Sum(a[4..n + 4]) || a[n + 5] != 0x16 then Go(Drop(s, n + 6), [])
    else Proceed(s, n + 6, OnLong(s, a[4], if n == 0 then [] else a[5..n + 4]))
  }

  function LongTurn(s: Ft, timeout: bool): Turn
    requires s.akt != [] && s.akt[0] == 0x68
  {
    var a := s.akt;
    if |a| < 7 then Halt(s)
    else if a[1] != a[2] || a[3] != 0x68 then
      if timeout then Go(Drop(s, 2), []) else Halt(Drop(s, 1))
    else
      var n := a[1] as int;
      if |a| < n + 6 then Halt(s) else WholeLong(s, n)
  }

  function OneTurn(s: Ft, timeout: bool): (t: Turn)
    requires s.akt != []
    ensures t.Go? ==> |t.s.akt| < |s.akt|
  {
    var a := s.akt;
    if a[0] == 0xE5 then Proceed(s, 1, OnSingle(s))
    else if a[0] == 0x10 then
      if |a| < 4 then Halt(s)
      else if a[1] == a[2] && a[3] == 0x16 then Proceed(s, 4, OnShort(s, a[1]))
      else Go(Drop(s, 1), [])
    else if a[0] == 0x68 then LongTurn(s, timeout)
    else Go(Drop(s, 1), [])
  }

  function Process(s: Ft, timeout: bool): (Ft, seq<Output>)
    decreases |s.akt|
  {
    if s.akt == [] then (s, [])
    else
      match OneTurn(s, timeout)
      case Halt(t) => (t, [])
      case Go(t, outputs) =>
        var (u, more) := Process(t, timeout);
        (u, outputs + more)
  }

  /** Bytes arrive, or the timer of an incomplete frame fires. */
  datatype Event = Input(data: Bytes) | Timer

  function Step(s: Ft, e: Event): (Ft, seq<Output>) {
    match e
    case Input(data) => Process(s.(akt := s.akt + data), false)
    case Timer => Process(s, true)
  }

  function Run(s: Ft, events: seq<Event>): (Ft, seq<Output>) {
    if events == [] then (s, [])
    else
      var (t, before) := Run(s, events[..|events| - 1]);
      var (u, last) := Step(t, events[|events| - 1]);
      (u, before + last)
  }

  function Received(events: seq<Event>): Bytes {
    if events == [] then []
    else
      Received(events[..|events| - 1]) +
      match events[|events| - 1]
      case Input(data) => data
      case Timer => []
  }

  // ------------------------------------------------------------- a well-formed item

  lemma LongLayout(i: Item, e: Bytes, rest: Bytes)
    requires i.Long? && WellFormed(i) && e == Encode(i)
    ensures var a, n := e + rest, |i.payload| + 1;
      && |e| == n + 6 && |e| >= 7
      && a[0] == 0x68 && a[1] == n && a[2] == n && a[3] == 0x68 && a[4] == i.control
      && a[4..n + 4] == [i.control] + i.payload && a[5..n + 4] == i.payload
      && a[n + 4] == Sum([i.control] + i.payload) && a[n + 5] == 0x16
  {
    var body := [i.control] + i.payload;
    var head: Bytes := [0x68, |i.payload| + 1, |i.payload| + 1, 0x68];
    assert e == head + body + [Sum(body), 0x16];
    var a, n := e + rest, |i.payload| + 1;
    assert a[4..n + 4] == body;
    assert a[5..n + 4] == body[1..];
  }

  lemma ItemIsTaken(s: Ft, i: Item, rest: Bytes, timeout: bool)
    requires WellFormed(i) && s.akt == Encode(i) + rest
    ensures OneTurn(s, timeout) == Go(OnItem(s, i).0.(akt := rest), OnItem(s, i).1)
  {
    var a, e := s.akt, Encode(i);
    assert a[|e|..] == rest;
    if i.Long? {
      LongLayout(i, e, rest);
      hide Encode, Sum, OnLong;
      assert a[0] == 0x68;
    } else {
      hide Sum;
      assert a[0] == e[0];
      if i.Short? {
        assert a[1] == e[1] && a[2] == e[2] && a[3] == e[3];
      }
    }
  }

  lemma PartIsKept(s: Ft, i: Item, timeout: bool)
    requires WellFormed(i) && s.akt < Encode(i) && s.akt != []
    ensures OneTurn(s, timeout) == Halt(s)
  {
    var a, e := s.akt, Encode(i);
    assert a[0] == e[0];
    if i.Long? {
      LongLayout(i, e, []);
      assert e + [] == e;
      hide Encode, Sum, OnLong;
      if |a| >= 7 {
        assert a[1] == e[1] && a[2] == e[2] && a[3] == e[3];
      }
    }
  }

  // ------------------------------------------------------------- a well-formed stream

  predicate AllWellFormed(items: seq<Item>) {
    forall k | 0 <= k < |items| :: WellFormed(items[k])
  }

  function Stream(items: seq<Item>): Bytes
    requires AllWellFormed(items)
  {
    if items == [] then [] else Encode(items[0]) + Stream(items[1..])
  }

  /** The items complete in the beginning `w` of a stream, done one after the other, and the part
      of an item that follows them. */
  function Expected(s: Ft, items: seq<Item>, w: Bytes): (Ft, seq<Output>)
    requires AllWellFormed(items)
    decreases items
  {
    if items == [] || |w| < |Encode(items[0])| then (s.(akt := w), [])
    else
      var (t, outputs) := OnItem(s, items[0]);
      var (u, more) := Expected(t, items[1..], w[|Encode(items[0])|..]);
      (u, outputs + more)
  }

  lemma OnItemIgnoresRest(s: Ft, i: Item, a: Bytes)
    ensures OnItem(s.(akt := a), i) == (OnItem(s, i).0.(akt := a), OnItem(s, i).1)
  {
  }

  lemma {:induction false} ExpectedIgnoresRest(s: Ft, items: seq<Item>, w: Bytes, a: Bytes)
    requires AllWellFormed(items)
    ensures Expected(s.(akt := a), items, w) == Expected(s, items, w)
    decreases items
  {
    hide OnItem, Encode;
    if items != [] && |w| >= |Encode(items[0])| {
      OnItemIgnoresRest(s, items[0], a);
      ExpectedIgnoresRest(OnItem(s, items[0]).0, items[1..], w[|Encode(items[0])|..], a);
    }
  }

  /** Whether or not a timer fired, processing does what is expected. */
  lemma {:induction false} ProcessIsExpected(s: Ft, items: seq<Item>, timeout: bool)
    requires AllWellFormed(items) && s.akt <= Stream(items)
    ensures Process(s, timeout) == Expected(s, items, s.akt)
    decreases items
  {
    hide OnItem, Encode, OneTurn;
    var w := s.akt;
    if items != [] && w != [] {
      var i := items[0];
      var e := Encode(i);
      if |w| < |e| {
        assert w < e;
        PartIsKept(s, i, timeout);
      } else {
        var rest := w[|e|..];
        assert w == e + rest && rest <= Stream(items[1..]);
        ItemIsTaken(s, i, rest, timeout);
        var t := OnItem(s, i).0;
        ProcessIsExpected(t.(akt := rest), items[1..], timeout);
        ExpectedIgnoresRest(t, items[1..], rest, rest);
      }
    } else if items != [] {
      EncodeNonempty(items[0]);
    }
  }

  lemma EncodeNonempty(i: Item)
    requires WellFormed(i)
    ensures Encode(i) != []
  {
  }

  /** The items not complete in `w`. */
  function Remaining(items: seq<Item>, w: Bytes): (r: seq<Item>)
    requires AllWellFormed(items)
    ensures AllWellFormed(r)
    decreases items
  {
    if items == [] || |w| < |Encode(items[0])| then items
    else Remaining(items[1..], w[|Encode(items[0])|..])
  }

  /** Doing the beginning of a stream first changes nothing. */
  lemma {:induction false} ExpectedConcat(s: Ft, items: seq<Item>, w: Bytes, c: Bytes)
    requires AllWellFormed(items) && w + c <= Stream(items)
    ensures var (t, x) := Expected(s, items, w);
      var (u, y) := Expected(t, Remaining(items, w), t.akt + c);
      && t.akt + c <= Stream(Remaining(items, w))
      && Expected(s, items, w + c) == (u, x + y)
    decreases items
  {
    hide OnItem, Encode;
    if items == [] || |w| < |Encode(items[0])| {
      ExpectedIgnoresRest(s, items, w + c, w);
      var (_, y) := Expected(s, items, w + c);
      assert [] + y == y;
    } else {
      var e := Encode(items[0]);
      var (t, outputs) := OnItem(s, items[0]);
      var rest := w[|e|..];
      assert (w + c)[|e|..] == rest + c;
      assert rest + c <= Stream(items[1..]);
      ExpectedConcat(t, items[1..], rest, c);
      var (v, x) := Expected(t, items[1..], rest);
      var (_, y) := Expected(v, Remaining(items[1..], rest), v.akt + c);
      assert outputs + (x + y) == (outputs + x) + y;
    }
  }

  /** For every stream of well-formed items, however it is cut into reads and wherever the timer
      fires in between, the line does exactly what the complete items call for, in order, and
      keeps the part of an item that follows: the same as if the bytes came in one piece. */
  lemma {:induction false} ChunksAndTimersDoNotMatter(s: Ft, items: seq<Item>, events: seq<Event>)
    requires s.akt == [] && AllWellFormed(items) && Received(events) <= Stream(items)
    ensures Run(s, events) == Expected(s, items, Received(events))
    ensures Run(s, events) == Process(s.(akt := Received(events)), false)
    decreases events
  {
    hide Process, OnItem, Encode;
    var w := Received(events);
    ProcessIsExpected(s.(akt := w), items, false);
    ExpectedIgnoresRest(s, items, w, w);
    if events == [] {
      NothingExpected(s, items);
    } else {
      var n := |events| - 1;
      var e := events[n];
      var before := Received(events[..n]);
      var c := match e case Input(data) => data case Timer => [];
      assert w == before + c;
      ChunksAndTimersDoNotMatter(s, items, events[..n]);
      ExpectedConcat(s, items, before, c);
      var (t, x) := Expected(s, items, before);
      var r := Remaining(items, before);
      var t' := t.(akt := t.akt + c);
      ProcessIsExpected(t', r, e.Timer?);
      ExpectedIgnoresRest(t, r, t'.akt, t'.akt);
      assert e.Timer? ==> t' == t by {
        assert t.akt + [] == t.akt;
      }
    }
  }

  lemma NothingExpected(s: Ft, items: seq<Item>)
    requires s.akt == [] && AllWellFormed(items)
    ensures Expected(s, items, []) == (s, [])
  {
    if items != [] {
      EncodeNonempty(items[0]);
    }
  }

  // ------------------------------------------------------------- repetitions

  /** The control byte of a peer's new frame; its first one has 0xF3. */
  function NewControl(flag: bool): byte {
    if flag then 0xD3 else 0xF3
  }

  /** A peer that flips the frame count bit for a new frame of either length and for nothing else,
      and otherwise repeats its last one: `flag` is the bit of its last frame, `last` that frame if
      it was of variable length. */
  predicate Proper(items: seq<Item>, flag: bool, last: Option<Bytes>)
    decreases items
  {
    if items == [] then true
    else
      match items[0]
      case Single => Proper(items[1..], flag, last)
      case Short(c) => if c == NewControl(flag) then Proper(items[1..], !flag, None) else Proper(items[1..], flag, last)
      case Long(c, p) =>
        if c == NewControl(flag) then Proper(items[1..], !flag, Some(p))
        else c == NewControl(!flag) && last == Some(p) && Proper(items[1..], flag, last)
  }

  /** Its new frames, with a reset handed up as the byte 0xA0. */
  function News(items: seq<Item>, flag: bool): seq<Bytes>
    decreases items
  {
    if items == [] then []
    else if items[0].Long? && items[0].control == NewControl(flag) then [items[0].payload] + News(items[1..], !flag)
    else if items[0].Short? && items[0].control == NewControl(flag) then News(items[1..], !flag)
    else if items[0].Short? && items[0].control % 16 == 0 then [[0xA0]] + News(items[1..], flag)
    else News(items[1..], flag)
  }

  /** Everything it wants acknowledged. */
  function Sent(items: seq<Item>): nat {
    if items == [] then 0 else (if items[0].Single? then 0 else 1) + Sent(items[1..])
  }

  function Delivered(outputs: seq<Output>): seq<Bytes> {
    if outputs == [] then []
    else (if outputs[0].Deliver? then [outputs[0].payload] else []) + Delivered(outputs[1..])
  }

  function Acks(outputs: seq<Output>): nat {
    if outputs == [] then 0 else (if outputs[0].Ack? then 1 else 0) + Acks(outputs[1..])
  }

  lemma {:induction false} OutputsConcat(a: seq<Output>, b: seq<Output>)
    ensures Delivered(a + b) == Delivered(a) + Delivered(b) && Acks(a + b) == Acks(a) + Acks(b)
    decreases a
  {
    if a == [] {
      assert a + b == b;
    } else {
      assert (a + b)[0] == a[0] && (a + b)[1..] == a[1..] + b;
      OutputsConcat(a[1..], b);
      var first := if a[0].Deliver? then [a[0].payload] else [];
      assert first + (Delivered(a[1..]) + Delivered(b)) == (first + Delivered(a[1..])) + Delivered(b);
    }
  }

  lemma FewOutputs(p: Bytes)
    ensures Delivered([]) == [] && Acks([]) == 0
    ensures Delivered([Next]) == [] && Acks([Next]) == 0
    ensures Delivered([Ack]) == [] && Acks([Ack]) == 1
    ensures Delivered([Ack, Deliver(p)]) == [p] && Acks([Ack, Deliver(p)]) == 1
  {
    var none: seq<Output> := [];
    assert [Next][1..] == none && [Ack][1..] == none;
    assert [Ack, Deliver(p)][1..] == [Deliver(p)] && [Deliver(p)][1..] == none;
    assert Delivered([Deliver(p)]) == [p] + Delivered(none) && Acks([Deliver(p)]) == Acks(none);
  }

  /** The peer's last frame of variable length after one more item, if nothing came since. */
  function LastNow(s: Ft, t: Ft, i: Item, last: Option<Bytes>): Option<Bytes> {
    if t.recvFlag == s.recvFlag then last else if i.Long? then Some(t.last) else None
  }

  /** One item of a proper peer. */
  lemma ProperItem(s: Ft, items: seq<Item>, last: Option<Bytes>)
    requires items != [] && Proper(items, s.recvFlag, last) && (last.Some? ==> s.last == last.value)
    ensures var (t, outputs) := OnItem(s, items[0]);
      var now := LastNow(s, t, items[0], last);
      && Proper(items[1..], t.recvFlag, now)
      && (now.Some? ==> t.last == now.value)
      && News(items, s.recvFlag) == Delivered(outputs) + News(items[1..], t.recvFlag)
      && Acks(outputs) == if items[0].Single? then 0 else 1
  {
    hide Delivered, Acks;
    var none: seq<Output> := [];
    match items[0]
    case Single => FewOutputs([]);
    case Short(c) =>
      FewOutputs([0xA0]);
      assert [Ack] + none == [Ack] && [Ack] + [Deliver([0xA0])] == [Ack, Deliver([0xA0])];
    case Long(c, p) => FewOutputs(p);
  }

  lemma {:induction false} ProperStream(s: Ft, items: seq<Item>, last: Option<Bytes>)
    requires AllWellFormed(items) && Proper(items, s.recvFlag, last) && (last.Some? ==> s.last == last.value)
    ensures var (t, outputs) := Expected(s, items, Stream(items));
      Delivered(outputs) == News(items, s.recvFlag) && Acks(outputs) == Sent(items) && t.akt == []
    decreases items
  {
    hide OnItem, Encode, Proper;
    if items != [] {
      ProperItem(s, items, last);
      var e := Encode(items[0]);
      var (t, outputs) := OnItem(s, items[0]);
      assert Stream(items)[|e|..] == Stream(items[1..]);
      ProperStream(t, items[1..], LastNow(s, t, items[0], last));
      var (_, more) := Expected(t, items[1..], Stream(items[1..]));
      OutputsConcat(outputs, more);
    } else {
      assert News(items, s.recvFlag) == [] && Stream(items) == [];
    }
  }

  /** If the peer starts with 0xF3 and flips the frame count bit exactly for its new frames, then
      however the stream is cut and wherever the timer fires, every transmission is acknowledged
      and every new frame is handed up exactly once, in order. */
  lemma ExactlyOnce(s: Ft, items: seq<Item>, events: seq<Event>)
    requires s.akt == [] && !s.recvFlag && AllWellFormed(items) && Proper(items, false, None)
    requires Received(events) == Stream(items)
    ensures var (t, outputs) := Run(s, events);
      Delivered(outputs) == News(items, false) && Acks(outputs) == Sent(items) && t.akt == []
  {
    ChunksAndTimersDoNotMatter(s, items, events);
    ProperStream(s, items, None);
  }

  /** A frame with the count bit of the last one but another payload is acknowledged and lost. */
  lemma SequenceJumpIsLost(s: Ft, p: Bytes)
    requires p != s.last
    ensures OnLong(s, Fresh(!s.recvFlag), p) == (s.(recvFlag := !s.recvFlag), [Ack])
  {
  }

  lemma {:induction false} StreamAcks(s: Ft, items: seq<Item>)
    requires AllWellFormed(items)
    ensures Acks(Expected(s, items, Stream(items)).1) == Sent(items)
    decreases items
  {
    hide OnItem, Encode, Acks;
    if items != [] {
      ItemAcks(s, items[0]);
      var e := Encode(items[0]);
      var (t, outputs) := OnItem(s, items[0]);
      assert Stream(items)[|e|..] == Stream(items[1..]);
      StreamAcks(t, items[1..]);
      OutputsConcat(outputs, Expected(t, items[1..], Stream(items[1..])).1);
    } else {
      FewOutputs([]);
      assert Stream(items) == [];
    }
  }

  lemma ItemAcks(s: Ft, i: Item)
    ensures Acks(OnItem(s, i).1) == if i.Single? then 0 else 1
  {
    FewOutputs(if i.Long? then i.payload else [0xA0]);
    hide Acks;
    var none: seq<Output> := [];
    assert [Ack] + none == [Ack] && [Ack] + [Deliver([0xA0])] == [Ack, Deliver([0xA0])];
  }

  /** Every well-formed frame is acknowledged once, also from a peer that does not keep to the count
      bit and whatever its control byte, however the stream is cut. */
  lemma EveryFrameIsAcknowledged(s: Ft, items: seq<Item>, events: seq<Event>)
    requires s.akt == [] && AllWellFormed(items) && Received(events) == Stream(items)
    ensures Acks(Run(s, events).1) == Sent(items)
  {
    hide Run;
    ChunksAndTimersDoNotMatter(s, items, events);
    StreamAcks(s, items);
  }

  // ------------------------------------------------------------- damaged bytes

  /** What can have an effect: a well-formed item, or a frame of variable length with nothing in it. */
  datatype Piece = Whole(item: Item) | Hollow

  ghost predicate IsPiece(p: Piece) {
    p.Whole? ==> WellFormed(p.item)
  }

  ghost function PieceBytes(p: Piece): Bytes
    requires IsPiece(p)
  {
    match p
    case Whole(i) => Encode(i)
    case Hollow => [0x68, 0x00, 0x00, 0x68, 0x00, 0x16]
  }

  function OnPiece(s: Ft, p: Piece): (Ft, seq<Output>) {
    match p
    case Whole(i) => OnItem(s, i)
    case Hollow => (s, [Ack])
  }

  function OnPieces(s: Ft, ps: seq<Piece>): (Ft, seq<Output>)
    decreases |ps|
  {
    if ps == [] then (s, [])
    else
      var (t, x) := OnPiece(s, ps[0]);
      var (u, y) := OnPieces(t, ps[1..]);
      (u, x + y)
  }

  predicate PartAt(b: Bytes, k: nat, x: Bytes) {
    k + |x| <= |b| && b[k..k + |x|] == x
  }

  /** The pieces occur in the bytes, in this order and without overlap. */
  ghost predicate Spread(ps: seq<Piece>, b: Bytes)
    decreases |ps|
  {
    ps == [] ||
    (IsPiece(ps[0]) &&
     exists k :: 0 <= k && PartAt(b, k, PieceBytes(ps[0])) && Spread(ps[1..], b[k + |PieceBytes(ps[0])|..]))
  }

  /** Bytes in front and behind make no difference. */
  lemma {:induction false} SpreadWider(ps: seq<Piece>, before: Bytes, b: Bytes, behind: Bytes)
    requires Spread(ps, b)
    ensures Spread(ps, before + b + behind)
    decreases |ps|
  {
    hide Encode, PieceBytes;
    if ps != [] {
      var x := PieceBytes(ps[0]);
      var k :| 0 <= k && PartAt(b, k, x) && Spread(ps[1..], b[k + |x|..]);
      var all := before + b + behind;
      var j := |before| + k;
      assert all[j..j + |x|] == b[k..k + |x|];
      assert PartAt(all, j, x);
      SpreadWider(ps[1..], [], b[k + |x|..], behind);
      assert all[j + |x|..] == [] + b[k + |x|..] + behind;
    }
  }

  lemma SpreadFirst(p: Piece, ps: seq<Piece>, rest: Bytes)
    requires IsPiece(p) && Spread(ps, rest)
    ensures Spread([p] + ps, PieceBytes(p) + rest)
  {
    hide Encode, PieceBytes;
    var b := PieceBytes(p) + rest;
    assert PartAt(b, 0, PieceBytes(p));
    assert b[0 + |PieceBytes(p)|..] == rest && ([p] + ps)[1..] == ps;
  }

  lemma {:induction false} SpreadConcat(ps: seq<Piece>, a: Bytes, qs: seq<Piece>, b: Bytes)
    requires Spread(ps, a) && Spread(qs, b)
    ensures Spread(ps + qs, a + b)
    decreases |ps|
  {
    hide Encode, PieceBytes;
    if ps == [] {
      assert ps + qs == qs;
      SpreadWider(qs, a, b, []);
      assert a + b + [] == a + b;
    } else {
      var x := PieceBytes(ps[0]);
      var k :| 0 <= k && PartAt(a, k, x) && Spread(ps[1..], a[k + |x|..]);
      SpreadConcat(ps[1..], a[k + |x|..], qs, b);
      assert (ps + qs)[1..] == ps[1..] + qs && (ps + qs)[0] == ps[0];
      assert (a + b)[k..k + |x|] == a[k..k + |x|];
      assert PartAt(a + b, k, x);
      assert (a + b)[k + |x|..] == a[k + |x|..] + b;
    }
  }

  lemma {:induction false} OnPiecesConcat(s: Ft, ps: seq<Piece>, qs: seq<Piece>)
    ensures var (t, x) := OnPieces(s, ps); var (u, y) := OnPieces(t, qs);
      OnPieces(s, ps + qs) == (u, x + y)
    decreases |ps|
  {
    hide OnPiece;
    if ps == [] {
      assert ps + qs == qs;
      var y := OnPieces(s, qs).1;
      assert [] + y == y;
    } else {
      assert (ps + qs)[1..] == ps[1..] + qs && (ps + qs)[0] == ps[0];
      var (t, x) := OnPiece(s, ps[0]);
      OnPiecesConcat(t, ps[1..], qs);
      var (u, y) := OnPieces(t, ps[1..]);
      var z := OnPieces(u, qs).1;
      assert (x + y) + z == x + (y + z);
    }
  }

  /** The unread bytes play no part. */
  lemma {:induction false} OnPiecesIgnoresRest(s: Ft, ps: seq<Piece>, akt: Bytes)
    ensures var (t, x) := OnPieces(s, ps);
      t.akt == s.akt && OnPieces(s.(akt := akt), ps) == (t.(akt := akt), x)
    decreases |ps|
  {
    if ps != [] {
      assert OnPiece(s.(akt := akt), ps[0]) == (OnPiece(s, ps[0]).0.(akt := akt), OnPiece(s, ps[0]).1);
      OnPiecesIgnoresRest(OnPiece(s, ps[0]).0, ps[1..], akt);
    }
  }

  /** A frame of variable length that is taken is a piece. */
  lemma LongIsPiece(s: Ft, n: nat) returns (p: Piece)
    requires n < 256 && n + 6 <= |s.akt|
    requires s.akt[0] == 0x68 && s.akt[1] == s.akt[2] == n && s.akt[3] == 0x68
    requires s.akt[n + 4] == Sum(s.akt[4..n + 4]) && s.akt[n + 5] == 0x16
    ensures IsPiece(p) && s.akt[..n + 6] == PieceBytes(p)
    ensures OnPiece(s, p) == OnLong(s, s.akt[4], if n == 0 then [] else s.akt[5..n + 4])
  {
    var a := s.akt;
    if n == 0 {
      p := Hollow;
      assert a[4..4] == [] && a[4] == 0;
      assert a[..6] == [0x68, 0x00, 0x00, 0x68, 0x00, 0x16];
    } else {
      var payload := a[5..n + 4];
      p := Whole(Long(a[4], payload));
      assert [a[4]] + payload == a[4..n + 4];
      hide Sum, OnLong;
      assert a[..n + 6] == [0x68, n, n, 0x68] + a[4..n + 4] + [a[n + 4], 0x16];
    }
  }

  /** Bytes were dropped, and the pieces in them had their effect. */
  ghost predicate Consumed(s: Ft, ps: seq<Piece>, t: Ft, outputs: seq<Output>) {
    var n := |s.akt| - |t.akt|;
    && 0 <= n && t.akt == s.akt[n..] && Spread(ps, s.akt[..n])
    && OnPieces(s, ps) == (t.(akt := s.akt), outputs)
  }

  lemma PieceConsumed(s: Ft, p: Piece, n: nat)
    requires IsPiece(p) && n <= |s.akt| && s.akt[..n] == PieceBytes(p)
    ensures var (t, outputs) := OnPiece(s, p); Consumed(s, [p], t.(akt := s.akt[n..]), outputs)
  {
    hide PieceBytes, OnPiece, Spread, OnPieces;
    var ps := OnePiece(s, p, s.akt[..n]);
    OnPiecesIgnoresRest(s, ps, []);
  }

  lemma NoneConsumed(s: Ft, n: nat)
    requires n <= |s.akt|
    ensures Consumed(s, [], s.(akt := s.akt[n..]), [])
  {
  }

  lemma LongTurnIsPiece(s: Ft, timeout: bool) returns (ps: seq<Piece>)
    requires s.akt != [] && s.akt[0] == 0x68 && LongTurn(s, timeout).Go?
    ensures var t := LongTurn(s, timeout); Consumed(s, ps, t.s, t.outputs)
  {
    hide Sum, OnLong, OnPiece, Consumed, PieceBytes;
    var a := s.akt;
    if a[1] != a[2] || a[3] != 0x68 {
      ps := [];
      NoneConsumed(s, 2);
    } else {
      var n := a[1] as int;
      if a[n + 4] == Sum(a[4..n + 4]) && a[n + 5] == 0x16 {
        var p := LongIsPiece(s, n);
        ps := [p];
        PieceConsumed(s, p, n + 6);
      } else {
        ps := [];
        NoneConsumed(s, n + 6);
      }
    }
  }

  /** A turn that goes on drops a piece with its effect, or drops bytes with none. */
  lemma TurnIsPiece(s: Ft, timeout: bool) returns (ps: seq<Piece>)
    requires s.akt != [] && OneTurn(s, timeout).Go?
    ensures var t := OneTurn(s, timeout); Consumed(s, ps, t.s, t.outputs)
  {
    hide Sum, OnLong, OnShort, Consumed, LongTurn;
    var a := s.akt;
    if a[0] == 0x68 {
      ps := LongTurnIsPiece(s, timeout);
    } else if a[0] == 0xE5 {
      ps := [Whole(Single)];
      assert a[..1] == PieceBytes(Whole(Single));
      PieceConsumed(s, Whole(Single), 1);
    } else if a[0] == 0x10 && a[1] == a[2] && a[3] == 0x16 {
      ps := [Whole(Short(a[1]))];
      assert a[..4] == PieceBytes(Whole(Short(a[1])));
      PieceConsumed(s, Whole(Short(a[1])), 4);
    } else {
      ps := [];
      NoneConsumed(s, 1);
    }
  }

  lemma NothingSpread(a: Bytes)
    ensures forall b: Bytes :: Spread([], b)
  {
  }

  lemma OnePiece(s: Ft, p: Piece, b: Bytes) returns (ps: seq<Piece>)
    requires IsPiece(p) && b == PieceBytes(p)
    ensures ps == [p] && Spread(ps, b) && OnPieces(s, ps) == OnPiece(s, p)
  {
    ps := [p];
    SpreadFirst(p, [], []);
    assert b + [] == b && [p] + [] == [p];
    assert ps[1..] == [];
    var x := OnPiece(s, p).1;
    assert x + [] == x;
  }

  /** What process_read does to any bytes is what the pieces in them do. */
  lemma {:induction false} ReadIsPieces(s: Ft, timeout: bool) returns (ps: seq<Piece>, n: nat)
    ensures var (t, outputs) := Process(s, timeout);
      && n <= |s.akt| && t.akt == s.akt[n..] && Spread(ps, s.akt[..n])
      && OnPieces(s, ps) == (t.(akt := s.akt), outputs)
    decreases |s.akt|
  {
    hide OneTurn, Spread, OnPiece;
    ps, n := [], 0;
    NothingSpread([]);
    if s.akt != [] {
      match OneTurn(s, timeout)
      case Halt(t) =>
        n := HaltDrops(s, timeout);
        NothingSpread(s.akt[..n]);
      case Go(t, outputs) =>
        var first := TurnIsPiece(s, timeout);
        var k := |s.akt| - |t.akt|;
        var more, m := ReadIsPieces(t, timeout);
        ps, n := first + more, k + m;
        SpreadConcat(first, s.akt[..k], more, t.akt[..m]);
        assert s.akt[..n] == s.akt[..k] + t.akt[..m];
        OnPiecesConcat(s, first, more);
        OnPiecesIgnoresRest(t, more, s.akt);
    }
  }

  /** A turn that ends the loop drops at most one byte and changes nothing else. */
  lemma HaltDrops(s: Ft, timeout: bool) returns (n: nat)
    requires s.akt != [] && OneTurn(s, timeout).Halt?
    ensures n <= 1 && OneTurn(s, timeout).s == s.(akt := s.akt[n..])
  {
    n := |s.akt| - |OneTurn(s, timeout).s.akt|;
    hide Sum, OnLong, OnShort;
  }

  lemma {:induction false} RunIsPieces(s: Ft, events: seq<Event>) returns (ps: seq<Piece>, n: nat)
    requires s.akt == []
    ensures var (t, outputs) := Run(s, events);
      var all := Received(events);
      && n <= |all| && t.akt == all[n..] && Spread(ps, all[..n])
      && OnPieces(s, ps) == (t.(akt := []), outputs)
    decreases events
  {
    hide Process, Spread, OnPiece;
    ps, n := [], 0;
    NothingSpread([]);
    if events != [] {
      var k := |events| - 1;
      var before, e := Received(events[..k]), events[k];
      var data := match e case Input(d) => d case Timer => [];
      var (t, x) := Run(s, events[..k]);
      var first, m := RunIsPieces(s, events[..k]);
      var t' := t.(akt := t.akt + data);
      assert e.Timer? ==> t' == t by { assert t.akt + [] == t.akt; }
      var more, j := ReadIsPieces(t', e.Timer?);
      var all := before + data;
      assert Received(events) == all;
      assert t'.akt == all[m..];
      ps, n := first + more, m + j;
      assert all[..m] == before[..m] && all[..n] == all[..m] + t'.akt[..j] && t'.akt[j..] == all[n..];
      SpreadConcat(first, all[..m], more, t'.akt[..j]);
      OnPiecesConcat(s, first, more);
      OnPiecesIgnoresRest(t', more, []);
    }
  }

  /** Whatever bytes arrive, damaged or not, however cut and wherever the timer fires: what comes out
      is the effect of undamaged pieces that occur in them, in order and without overlap. Nothing
      is acknowledged or handed up that was not sent. */
  lemma NothingIsInvented(s: Ft, events: seq<Event>)
    requires s.akt == []
    ensures exists ps :: Spread(ps, Received(events)) && Run(s, events).1 == OnPieces(s, ps).1
  {
    hide Spread, Run;
    var ps, n := RunIsPieces(s, events);
    var all := Received(events);
    SpreadWider(ps, [], all[..n], all[n..]);
    assert [] + all[..n] + all[n..] == all;
  }

  /** Bytes that start nothing are skipped, wherever a frame may start. */
  lemma {:induction false} NoiseIsSkipped(s: Ft, noise: Bytes, rest: Bytes, timeout: bool)
    requires 0x10 !in noise && 0x68 !in noise && 0xE5 !in noise
    ensures Process(s.(akt := noise + rest), timeout) == Process(s.(akt := rest), timeout)
    decreases |noise|
  {
    if noise == [] {
      assert noise + rest == rest;
    } else {
      hide LongTurn, OnShort;
      var t := s.(akt := noise + rest);
      assert t.akt[0] == noise[0] && t.akt[1..] == noise[1..] + rest;
      assert OneTurn(t, timeout) == Go(s.(akt := noise[1..] + rest), []);
      NoiseIsSkipped(s, noise[1..], rest, timeout);
      var more := Process(s.(akt := noise[1..] + rest), timeout).1;
      assert [] + more == more;
    }
  }

  // ------------------------------------------------------------- sending

  /** The frame around a payload; its length byte wraps. */
  function FrameBytes(control: byte, l: Bytes): Bytes {
    var n: byte := (|l| + 1) % 256;
    [0x68, n, n, 0x68] + ([control] + l) + [Sum([control] + l), 0x16]
  }

  /** A line that sends: its count bit, whether its wake-up is pending, what it sent, the payloads it
      took, and how often it asked for more. */
  datatype Sender = Sender(ft: Ft, sendFlag: bool, trigger: bool, sent: seq<Bytes>, taken: seq<Bytes>, asked: nat)

  datatype SendEvent = Submit(payload: Bytes) | Fire | Line(e: Event)

  function Nexts(outputs: seq<Output>): nat {
    if outputs == [] then 0 else (if outputs[0].Next? then 1 else 0) + Nexts(outputs[1..])
  }

  /** do_send_Local, trigger_cb, and whatever comes in. */
  function SendStep(s: Sender, e: SendEvent): Sender {
    match e
    case Submit(l) =>
      if s.ft.out != [] then s
      else s.(ft := s.ft.(out := FrameBytes(if s.sendFlag then 0x53 else 0x73, l)),
              sendFlag := !s.sendFlag, trigger := s.trigger || !s.ft.sendWait, taken := s.taken + [l])
    case Fire =>
      if s.ft.sendWait || s.ft.out == [] then s.(trigger := false)
      else s.(ft := s.ft.(sendWait := true), trigger := false, sent := s.sent + [s.ft.out])
    case Line(f) =>
      var (t, outputs) := Step(s.ft, f);
      s.(ft := t, asked := s.asked + Nexts(outputs))
  }

  function SendRun(s: Sender, events: seq<SendEvent>): Sender
    decreases |events|
  {
    if events == [] then s else SendRun(SendStep(s, events[0]), events[1..])
  }

  function Opened(): Sender {
    Sender(Ft([], false, [], false, []), false, false, [], [], 0)
  }

  lemma {:induction false} NextsConcat(a: seq<Output>, b: seq<Output>)
    ensures Nexts(a + b) == Nexts(a) + Nexts(b)
    decreases a
  {
    if a == [] {
      assert a + b == b;
    } else {
      assert (a + b)[0] == a[0] && (a + b)[1..] == a[1..] + b;
      NextsConcat(a[1..], b);
    }
  }

  /** What is read ends a wait, with one request for more, or leaves the sending side alone. */
  predicate EndsWait(s: Ft, t: Ft, nexts: nat) {
    (t.sendWait == s.sendWait && t.out == s.out && nexts == 0) ||
    (s.sendWait && !t.sendWait && t.out == [] && nexts == 1)
  }

  lemma TurnEndsWait(s: Ft, timeout: bool)
    requires s.akt != []
    ensures var turn := OneTurn(s, timeout);
      if turn.Halt? then EndsWait(s, turn.s, 0) else EndsWait(s, turn.s, Nexts(turn.outputs))
  {
    NextsOf([]);
    hide Sum, Nexts;
    var a := s.akt;
    if a[0] == 0x10 && |a| >= 4 {
      NextsOf([0xA0]);
      var none: seq<Output> := [];
      assert [Ack] + none == [Ack] && [Ack] + [Deliver([0xA0])] == [Ack, Deliver([0xA0])];
    } else if a[0] == 0x68 && |a| >= 7 && |a| >= a[1] as int + 6 {
      NextsOf(if a[1] == 0 then [] else a[5..a[1] as int + 4]);
    }
  }

  lemma NextsOf(p: Bytes)
    ensures Nexts([]) == 0 && Nexts([Next]) == 1 && Nexts([Ack]) == 0 && Nexts([Ack, Deliver(p)]) == 0
  {
    var none: seq<Output> := [];
    assert [Next][1..] == none && [Ack][1..] == none;
    assert [Ack, Deliver(p)][1..] == [Deliver(p)] && [Deliver(p)][1..] == none;
    assert Nexts([Deliver(p)]) == Nexts(none);
  }

  lemma {:induction false} ReadEndsWait(s: Ft, timeout: bool)
    ensures EndsWait(s, Process(s, timeout).0, Nexts(Process(s, timeout).1))
    decreases |s.akt|
  {
    hide OneTurn, Nexts;
    NextsOf([]);
    if s.akt != [] {
      TurnEndsWait(s, timeout);
      match OneTurn(s, timeout)
      case Halt(t) =>
      case Go(t, outputs) =>
        ReadEndsWait(t, timeout);
        NextsConcat(outputs, Process(t, timeout).1);
    }
  }

  /** The control byte of the n-th frame sent. */
  function SentControl(n: nat): byte {
    if n % 2 == 0 then 0x73 else 0x53
  }

  ghost predicate SendInv(s: Sender) {
    && (s.ft.sendWait ==> s.ft.out != [])
    && |s.taken| == |s.sent| + (if s.ft.out != [] && !s.ft.sendWait then 1 else 0)
    && |s.sent| == s.asked + (if s.ft.sendWait then 1 else 0)
    && (s.sendFlag <==> |s.taken| % 2 == 1)
    && (s.ft.out != [] ==>
          s.taken != [] && s.ft.out == FrameBytes(SentControl(|s.taken| - 1), s.taken[|s.taken| - 1]))
    && (s.ft.out != [] && !s.ft.sendWait ==> s.trigger)
    && (forall i | 0 <= i < |s.sent| :: s.sent[i] == FrameBytes(SentControl(i), s.taken[i]))
  }

  lemma SendStepKeeps(s: Sender, e: SendEvent)
    requires SendInv(s)
    ensures SendInv(SendStep(s, e))
  {
    if e.Line? {
      LineKeeps(s, e.e);
    } else {
      assert e.Submit? ==> FrameBytes(if s.sendFlag then 0x53 else 0x73, e.payload) != [];
      hide FrameBytes;
    }
  }

  lemma LineKeeps(s: Sender, f: Event)
    requires SendInv(s)
    ensures SendInv(SendStep(s, Line(f)))
  {
    hide Process, Nexts, FrameBytes;
    match f
    case Input(data) => ReadEndsWait(s.ft.(akt := s.ft.akt + data), false);
    case Timer => ReadEndsWait(s.ft, true);
  }

  lemma {:induction false} SendRunKeeps(s: Sender, events: seq<SendEvent>)
    requires SendInv(s)
    ensures SendInv(SendRun(s, events))
    decreases |events|
  {
    hide SendInv, SendStep;
    if events != [] {
      SendStepKeeps(s, events[0]);
      SendRunKeeps(SendStep(s, events[0]), events[1..]);
    }
  }

  /** In every run of the sending side, whatever comes in meanwhile: each payload taken is sent once,
      in order, in a frame whose control byte is 0x73 and 0x53 by turns; the next is taken only
      when the last was sent and acknowledged; each acknowledged frame is followed by exactly one
      request for more; and a frame that is neither sent nor awaited has its wake-up pending. */
  lemma SendsInTurn(events: seq<SendEvent>)
    ensures var s := SendRun(Opened(), events);
      && |s.sent| <= |s.taken| <= |s.sent| + 1
      && (forall i | 0 <= i < |s.sent| :: s.sent[i] == FrameBytes(if i % 2 == 0 then 0x73 else 0x53, s.taken[i]))
      && |s.sent| == s.asked + (if s.ft.sendWait then 1 else 0)
      && (|s.taken| > |s.sent| ==> s.trigger && !s.ft.sendWait)
  {
    SendRunKeeps(Opened(), events);
    hide SendRun, FrameBytes;
  }

  /** The acknowledgement is the byte 0xE5 between frames, however the stream is cut: it ends the wait,
      frees the buffer, and nothing else does. */
  lemma AcknowledgedIff(s: Ft, items: seq<Item>, events: seq<Event>)
    requires s.akt == [] && AllWellFormed(items) && Received(events) == Stream(items)
    ensures var (t, outputs) := Run(s, events);
      && (t.sendWait <==> s.sendWait && Single !in items)
      && t.out == (if s.sendWait && Single in items then [] else s.out)
      && Nexts(outputs) == if s.sendWait && Single in items then 1 else 0
  {
    hide Run;
    ChunksAndTimersDoNotMatter(s, items, events);
    SinglesEndWait(s, items);
  }

  lemma {:induction false} SinglesEndWait(s: Ft, items: seq<Item>)
    requires AllWellFormed(items)
    ensures var (t, outputs) := Expected(s, items, Stream(items));
      && (t.sendWait <==> s.sendWait && Single !in items)
      && t.out == (if s.sendWait && Single in items then [] else s.out)
      && Nexts(outputs) == if s.sendWait && Single in items then 1 else 0
    decreases items
  {
    hide Encode, OnItem, Nexts;
    NextsOf([]);
    if items != [] {
      ItemEndsWait(s, items[0]);
      var e := Encode(items[0]);
      var (t, outputs) := OnItem(s, items[0]);
      assert Stream(items)[|e|..] == Stream(items[1..]);
      SinglesEndWait(t, items[1..]);
      NextsConcat(outputs, Expected(t, items[1..], Stream(items[1..])).1);
      assert items == [items[0]] + items[1..];
    } else {
      assert Stream(items) == [];
    }
  }

  lemma ItemEndsWait(s: Ft, i: Item)
    ensures var (t, outputs) := OnItem(s, i);
      && (t.sendWait <==> s.sendWait && !i.Single?)
      && t.out == (if s.sendWait && i.Single? then [] else s.out)
      && Nexts(outputs) == if s.sendWait && i.Single? then 1 else 0
  {
    NextsOf(if i.Long? then i.payload else [0xA0]);
    hide Nexts;
    var none: seq<Output> := [];
    assert [Ack] + none == [Ack] && [Ack] + [Deliver([0xA0])] == [Ack, Deliver([0xA0])];
  }

  // ------------------------------------------------------------- the object

  lemma ProcessTurn(s: Ft, timeout: bool)
    requires s.akt != []
    ensures var turn := OneTurn(s, timeout);
      Process(s, timeout) ==
      if turn.Halt? then (turn.s, [])
      else (Process(turn.s, timeout).0, turn.outputs + Process(turn.s, timeout).1)
  {
  }

  class FT12wrap {
    var akt: Bytes
    var recvFlag: bool
    var last: Bytes
    var sendWait: bool
    var out: Bytes
    var sendFlag: bool
    var trigger: bool
    var timer: bool
    var log: seq<Output>
    var sent: seq<Bytes>
    ghost var taken: seq<Bytes>

    function State(): Ft
      reads this
    {
      Ft(akt, recvFlag, last, sendWait, out)
    }

    ghost function Sending(): Sender
      reads this
    {
      Sender(State(), sendFlag, trigger, sent, taken, Nexts(log))
    }

    constructor ()
      ensures State() == Ft([], false, [], false, []) && !sendFlag && log == [] && sent == []
      ensures Sending() == Opened()
    {
      akt, recvFlag, last, sendWait, out, sendFlag := [], false, [], false, [], false;
      trigger, timer, log, sent := false, false, [], [];
      taken := [];
    }

    method SumOf(from: nat, to: nat) returns (c: byte)
      requires from <= to <= |akt|
      ensures c == Sum(akt[from..to])
    {
      c := 0;
      for i := from to to
        invariant c == Sum(akt[from..i])
      {
        assert akt[from..i + 1][..i - from] == akt[from..i];
        c := (c as int + akt[i] as int) % 256;
      }
    }

    /** The branch for a frame of fixed length. */
    method ReadShort(c: byte)
      modifies `recvFlag, `log
      ensures State() == OnShort(old(State()), c).0 && log == old(log) + OnShort(old(State()), c).1
    {
      log := log + [Ack];
      if (c == 0xF3 && !recvFlag) || (c == 0xD3 && recvFlag) {
        recvFlag := !recvFlag;
      }
      if c % 16 == 0 {
        log := log + [Deliver([0xA0])];
      }
    }

    /** The branch for a frame of variable length that is complete and undamaged. */
    method ReadLong(c: byte, payload: Bytes)
      modifies `recvFlag, `last, `log
      ensures State() == OnLong(old(State()), c, payload).0
      ensures log == old(log) + OnLong(old(State()), c, payload).1
    {
      log := log + [Ack];
      if c == (if recvFlag then 0xF3 else 0xD3) {
        if payload != last {
          recvFlag := !recvFlag;
        }
      } else if c == (if recvFlag then 0xD3 else 0xF3) {
        recvFlag := !recvFlag;
        last := payload;
        log := log + [Deliver(payload)];
      }
    }

    /** A complete frame of variable length. */
    method TakeLong(n: nat)
      requires n + 6 <= |akt|
      modifies `akt, `recvFlag, `last, `log
      ensures var t := WholeLong(old(State()), n); State() == t.s && log == old(log) + t.outputs
    {
      hide Sum, OnLong;
      var c := SumOf(4, n + 4);
      if akt[n + 4] != c || akt[n + 5] != 0x16 {
        akt := akt[n + 6..];
        assert log == log + [];
        return;
      }
      ReadLong(akt[4], if n == 0 then [] else akt[5..n + 4]);
      akt := akt[n + 6..];
    }

    /** One turn of the loop at a byte 0x68. */
    method TurnLong(timeout: bool) returns (go: bool)
      requires akt != [] && akt[0] == 0x68
      modifies this
      ensures match LongTurn(old(State()), timeout)
              case Halt(s) => !go && State() == s && log == old(log)
              case Go(s, outputs) => go && State() == s && log == old(log) + outputs
      ensures sent == old(sent) && sendFlag == old(sendFlag) && trigger == old(trigger) && taken == old(taken)
    {
      hide WholeLong;
      if |akt| < 7 {
        return false;
      }
      if akt[1] != akt[2] || akt[3] != 0x68 {
        akt := akt[1..];
        if !timeout {
          return false;
        }
        akt := akt[1..];
        assert log == log + [];
        return true;
      }
      var n: int := akt[1];
      if |akt| < n + 6 {
        return false;
      }
      TakeLong(n);
      return true;
    }

    /** One turn of the loop. */
    method ReadTurn(timeout: bool) returns (go: bool)
      requires akt != []
      modifies this
      ensures match OneTurn(old(State()), timeout)
              case Halt(s) => !go && State() == s && log == old(log)
              case Go(s, outputs) => go && State() == s && log == old(log) + outputs
      ensures sent == old(sent) && sendFlag == old(sendFlag) && trigger == old(trigger) && taken == old(taken)
    {
      hide LongTurn, OnShort;
      go := true;
      assert log + [] == log;
      if akt[0] == 0xE5 && sendWait {
        akt := akt[1..];
        sendWait := false;
        out := [];
        log := log + [Next];
      } else if akt[0] == 0xE5 {
        akt := akt[1..];
      } else if akt[0] == 0x10 {
        if |akt| < 4 {
          return false;
        }
        if akt[1] == akt[2] && akt[3] == 0x16 {
          ReadShort(akt[1]);
          akt := akt[4..];
        } else {
          akt := akt[1..];
        }
      } else if akt[0] == 0x68 {
        go := TurnLong(timeout);
      } else {
        akt := akt[1..];
      }
    }

    /** process_read; an incomplete frame is watched by the timer. */
    method ProcessRead(timeout: bool)
      modifies this
      ensures State() == Process(old(State()), timeout).0
      ensures log == old(log) + Process(old(State()), timeout).1
      ensures timer == (akt != []) && sent == old(sent) && sendFlag == old(sendFlag) && trigger == old(trigger) && taken == old(taken)
    {
      hide OneTurn, Process;
      timer := false;
      ghost var whole := Process(State(), timeout);
      EndOfProcess(State(), timeout);
      var go := true;
      while akt != [] && go
        invariant sent == old(sent) && sendFlag == old(sendFlag) && trigger == old(trigger) && taken == old(taken) && !timer
        invariant go ==> whole.0 == Process(State(), timeout).0 && log + Process(State(), timeout).1 == old(log) + whole.1
        invariant !go ==> whole.0 == State() && log == old(log) + whole.1
        decreases |akt|, go
      {
        ghost var was, logged := State(), log;
        ProcessTurn(was, timeout);
        assert logged + [] == logged;
        go := Turned(timeout, was);
        if go {
          ghost var outputs := OneTurn(was, timeout).outputs;
          ghost var more := Process(State(), timeout).1;
          assert (logged + outputs) + more == logged + (outputs + more);
        }
      }
      EndOfProcess(State(), timeout);
      assert log + [] == log;
      if akt != [] {
        timer := true;
      }
    }

    /** A turn, with the decrease that bounds the loop. */
    method Turned(timeout: bool, ghost was: Ft) returns (go: bool)
      requires akt != [] && was == State() && !timer
      modifies this
      ensures match OneTurn(was, timeout)
              case Halt(s) => !go && State() == s && log == old(log)
              case Go(s, outputs) => go && State() == s && log == old(log) + outputs
      ensures sent == old(sent) && sendFlag == old(sendFlag) && trigger == old(trigger) && taken == old(taken) && !timer
      ensures |akt| <= |was.akt| && (go ==> |akt| < |was.akt|)
    {
      go := ReadTurn(timeout);
      timer := false;
    }

    method RecvData(data: Bytes)
      modifies this
      ensures State() == Step(old(State()), Input(data)).0
      ensures log == old(log) + Step(old(State()), Input(data)).1
      ensures Sending() == SendStep(old(Sending()), Line(Input(data)))
    {
      NextsConcat(log, Step(State(), Input(data)).1);
      hide Process, Nexts;
      akt := akt + data;
      ProcessRead(false);
    }

    method TimerCallback()
      modifies this
      ensures State() == Step(old(State()), Timer).0 && log == old(log) + Step(old(State()), Timer).1
      ensures Sending() == SendStep(old(Sending()), Line(Timer))
    {
      NextsConcat(log, Step(State(), Timer).1);
      hide Process, Nexts;
      ProcessRead(true);
    }

    /** do_send_Local for a payload: the frame is built around it, with the sender's own control
        bytes, and its count bit flips. */
    method SendData(l: Bytes)
      modifies `out, `sendFlag, `trigger, `taken
      ensures Sending() == SendStep(old(Sending()), Submit(l))
    {
      if out != [] {
        return;
      }
      out := MakeLong(if sendFlag then 0x53 else 0x73, l);
      taken := taken + [l];
      sendFlag := !sendFlag;
      if !sendWait {
        trigger := true;
      }
    }

    /** trigger_cb: the frame is sent, or sent again, and its acknowledgement awaited; the timer it
        starts is the one of an incomplete frame. */
    method TriggerCallback()
      modifies `sent, `sendWait, `trigger, `timer
      ensures Sending() == SendStep(old(Sending()), Fire)
      ensures timer == (old(timer) || (!old(sendWait) && out != []))
    {
      trigger := false;
      if sendWait || out == [] {
        return;
      }
      sent := sent + [out];
      sendWait := true;
      timer := true;
    }
  }

  method Checksum(control: byte, l: Bytes) returns (c: byte)
    ensures c == Sum([control] + l)
  {
    c := control;
    assert [control] + l[..0] == [control] && [control][..0] == [];
    for i := 0 to |l|
      invariant c == Sum([control] + l[..i])
    {
      assert ([control] + l[..i + 1])[..i + 1] == [control] + l[..i];
      c := (c as int + l[i] as int) % 256;
    }
    assert l[..|l|] == l;
  }

  method MakeLong(control: byte, l: Bytes) returns (frame: Bytes)
    ensures frame == FrameBytes(control, l)
  {
    hide Sum;
    ghost var body := [control] + l;
    var n: byte := (|l| + 1) % 256;
    var head: Bytes := [0x68, n, n, 0x68, control];
    var a := new byte[|l| + 7](i requires 0 <= i < |l| + 7 => if i < 5 then head[i] else if i < |l| + 5 then l[i - 5] else 0x16);
    var c := Checksum(control, l);
    a[|l| + 5] := c;
    frame := a[..];
    assert |frame| == |l| + 7;
    assert frame == [0x68, n, n, 0x68] + body + [c, 0x16];
  }

  /** A frame whose length fits is one the other end can read. */
  lemma FrameIsReadable(control: byte, l: Bytes)
    ensures |l| <= 254 <==> FrameBytes(control, l)[1] as int == |l| + 1
    ensures |l| <= 254 ==> FrameBytes(control, l) == Encode(Long(control, l))
  {
    hide Sum;
  }

  lemma EndOfProcess(s: Ft, timeout: bool)
    ensures s.akt == [] ==> Process(s, timeout) == (s, [])
  {
  }
}
