/** The receiving side of a client connection: a 1024-byte buffer (`RecvBuf`) in front of a stream
    of messages, each preceded by its length (`ClientConnection::read_cb`). */
module RecvBuffer {
  import opened KnxTypes
  import opened Streams

  const CAPACITY := 1024

  /** The longest message that fits with its length. */
  const MAX_MESSAGE := CAPACITY - 2

  // ------------------------------------------------------------- framing

  /** A message on the wire; lengths from 65536 on lose their upper bits. */
  function Frame(m: Bytes): Bytes {
    [|m| / 256 % 256, |m| % 256] + m
  }

  function Stream(messages: seq<Bytes>): Bytes {
    if messages == [] then [] else Frame(messages[0]) + Stream(messages[1..])
  }

  /** The length in front of a message. */
  function Length(high: byte, low: byte): nat {
    high as int * 256 + low as int
  }

  /** read_cb: how many bytes the first message takes, 0 if it is not complete. */
  function Need(b: Bytes): (n: nat)
    ensures n <= |b|
    ensures n > 0 ==> n >= 2
  {
    if |b| < 2 then 0
    else
      var len := Length(b[0], b[1]);
      if |b| < len + 2 then 0 else len + 2
  }

  /** The complete messages of a stream. */
  function Messages(b: Bytes): seq<Bytes> {
    var n := Need(b);
    if n == 0 then [] else [b[2..n]] + Messages(b[n..])
  }

  /** What follows them. */
  function Rest(b: Bytes): Bytes {
    var n := Need(b);
    if n == 0 then b else Rest(b[n..])
  }

  lemma ParseStep(b: Bytes)
    ensures var n := Need(b);
      if n == 0 then Messages(b) == [] && Rest(b) == b
      else Messages(b) == [b[2..n]] + Messages(b[n..]) && Rest(b) == Rest(b[n..])
  {
  }

  // ------------------------------------------------------------- chunking

  lemma NeedOfPrefix(a: Bytes, b: Bytes)
    requires Need(a) > 0
    ensures Need(a + b) == Need(a)
  {
  }

  /** Cutting a stream in two changes nothing. */
  lemma {:induction false} ParseConcat(a: Bytes, b: Bytes)
    ensures Messages(a + b) == Messages(a) + Messages(Rest(a) + b)
    ensures Rest(a + b) == Rest(Rest(a) + b)
    decreases |a|
  {
    hide Need;
    var n := Need(a);
    if n == 0 {
      assert [] + Messages(a + b) == Messages(a + b);
    } else {
      NeedOfPrefix(a, b);
      assert (a + b)[n..] == a[n..] + b;
      assert (a + b)[2..n] == a[2..n];
      ParseConcat(a[n..], b);
      assert Messages(a + b) == [a[2..n]] + (Messages(a[n..]) + Messages(Rest(a[n..]) + b));
    }
  }

  lemma FrameIsRead(m: Bytes, b: Bytes)
    requires |m| < 0x10000
    ensures var s := Frame(m) + b; Need(s) == |m| + 2 && s[2..|m| + 2] == m && s[|m| + 2..] == b
  {
    assert |m| / 256 < 256;
  }

  /** What sendmessage writes, read_cb reads back. */
  lemma {:induction false} StreamIsRead(messages: seq<Bytes>)
    requires forall k | 0 <= k < |messages| :: |messages[k]| < 0x10000
    ensures Messages(Stream(messages)) == messages && Rest(Stream(messages)) == []
    decreases messages
  {
    if messages != [] {
      FrameIsRead(messages[0], Stream(messages[1..]));
      StreamIsRead(messages[1..]);
    }
  }

  /** The beginning `s` of a stream that starts with `m`: it is cut off within that message, or the
      message can be read from it. */
  lemma FirstOfPrefix(m: Bytes, rest: Bytes, s: Bytes)
    requires |m| < 0x10000 && s <= Frame(m) + rest
    ensures |s| < |m| + 2 ==> Need(s) == 0
    ensures |s| >= |m| + 2 ==>
      && Need(s) == |m| + 2 && s[2..|m| + 2] == m && s[|m| + 2..] <= rest
      && (s == Frame(m) + rest <==> s[|m| + 2..] == rest)
  {
    var whole := Frame(m) + rest;
    FrameIsRead(m, rest);
    var n := |m| + 2;
    if |s| >= 2 {
      assert s[0] == whole[0] && s[1] == whole[1];
    }
    if |s| >= n {
      assert s[..n] == whole[..n];
      assert s[2..n] == s[..n][2..] == whole[..n][2..] == whole[2..n];
      assert s[n..] <= whole[n..];
      assert s == s[..n] + s[n..] && whole == whole[..n] + whole[n..];
    }
  }

  /** Of the beginning of a stream the complete messages are read, and what is left is an
      incomplete one: it never fills the buffer. */
  lemma {:induction false} PrefixIsRead(messages: seq<Bytes>, s: Bytes)
    requires forall k | 0 <= k < |messages| :: |messages[k]| <= MAX_MESSAGE
    requires s <= Stream(messages)
    ensures Messages(s) <= messages
    ensures |Rest(s)| < CAPACITY
    ensures s == Stream(messages) ==> Messages(s) == messages && Rest(s) == []
    decreases messages
  {
    if messages == [] {
      ParseStep(s);
    } else {
      hide Need, Messages, Rest, Frame;
      var m := messages[0];
      FirstOfPrefix(m, Stream(messages[1..]), s);
      FrameSize(m);
      ParseStep(s);
      if |s| >= |m| + 2 {
        var t := s[|m| + 2..];
        PrefixIsRead(messages[1..], t);
        assert messages == [m] + messages[1..];
      }
    }
  }

  lemma FrameSize(m: Bytes)
    ensures |Frame(m)| == |m| + 2
  {
  }

  /** A full buffer from which nothing can be read holds a message that is too long, and only that. */
  lemma FullIffTooLong(b: Bytes)
    requires |b| == CAPACITY
    ensures Need(b) == 0 <==> Length(b[0], b[1]) > MAX_MESSAGE
  {
  }

  // ------------------------------------------------------------- the buffer over a whole run

  /** The unread bytes, the messages handed on, and whether an error was reported. */
  datatype In = In(buf: Bytes, got: seq<Bytes>, failed: bool)

  /** feed_out after `chunk` was read. */
  function Feed(i: In, chunk: Bytes): In {
    var b := i.buf + chunk;
    In(Rest(b), i.got + Messages(b), i.failed || |Rest(b)| == CAPACITY)
  }

  function FeedAll(i: In, chunks: seq<Bytes>): In
    decreases chunks
  {
    if chunks == [] then i else FeedAll(Feed(i, chunks[0]), chunks[1..])
  }

  lemma FeedStep(i: In, c: Bytes, more: Bytes)
    ensures Rest(Feed(i, c).buf + more) == Rest(i.buf + (c + more))
    ensures Feed(i, c).got + Messages(Feed(i, c).buf + more) == i.got + Messages(i.buf + (c + more))
  {
    hide Messages, Rest;
    ParseConcat(i.buf + c, more);
    assert i.buf + (c + more) == (i.buf + c) + more;
    var first, second := Messages(i.buf + c), Messages(Feed(i, c).buf + more);
    assert (i.got + first) + second == i.got + (first + second);
  }

  lemma {:induction false} FeedIsParse(i: In, chunks: seq<Bytes>)
    requires Need(i.buf) == 0
    ensures FeedAll(i, chunks).buf == Rest(i.buf + Flatten(chunks))
    ensures FeedAll(i, chunks).got == i.got + Messages(i.buf + Flatten(chunks))
    decreases chunks
  {
    if chunks == [] {
      assert i.buf + Flatten([]) == i.buf;
      assert i.got + [] == i.got;
    } else {
      hide Need, Messages, Rest;
      FeedStep(i, chunks[0], Flatten(chunks[1..]));
      RestIsIncomplete(i.buf + chunks[0]);
      FeedIsParse(Feed(i, chunks[0]), chunks[1..]);
    }
  }

  lemma {:induction false} RestIsIncomplete(b: Bytes)
    ensures Need(Rest(b)) == 0
    decreases |b|
  {
    if Need(b) > 0 {
      RestIsIncomplete(b[Need(b)..]);
    }
  }

  lemma {:induction false} NeverFull(messages: seq<Bytes>, i: In, before: Bytes, chunks: seq<Bytes>)
    requires forall k | 0 <= k < |messages| :: |messages[k]| <= MAX_MESSAGE
    requires before + Flatten(chunks) <= Stream(messages)
    requires i.buf == Rest(before) && !i.failed
    ensures !FeedAll(i, chunks).failed && |FeedAll(i, chunks).buf| < CAPACITY
    decreases chunks
  {
    PrefixIsRead(messages, before);
    if chunks != [] {
      var c := chunks[0];
      assert before + Flatten(chunks) == (before + c) + Flatten(chunks[1..]);
      PrefixIsRead(messages, before + c);
      ParseConcat(before, c);
      NeverFull(messages, Feed(i, c), before + c, chunks[1..]);
    }
  }

  /** Every way of cutting a stream of messages of at most 1022 bytes into reads yields exactly
      those messages in order, and no read finds the buffer full. Before the end of the stream the
      messages handed on are the complete ones so far. */
  lemma ChunksYieldMessages(messages: seq<Bytes>, chunks: seq<Bytes>)
    requires forall k | 0 <= k < |messages| :: |messages[k]| <= MAX_MESSAGE
    requires Flatten(chunks) <= Stream(messages)
    ensures var i := FeedAll(In([], [], false), chunks);
      && i.got <= messages
      && |i.buf| < CAPACITY && !i.failed
      && (Flatten(chunks) == Stream(messages) ==> i.got == messages && i.buf == [])
  {
    var none := In([], [], false);
    FeedIsParse(none, chunks);
    assert [] + Flatten(chunks) == Flatten(chunks);
    PrefixIsRead(messages, Flatten(chunks));
    assert [] + Messages(Flatten(chunks)) == Messages(Flatten(chunks));
    NeverFull(messages, none, [], chunks);
  }

  /** An error is reported if and only if some read left the buffer full, and it is never taken back. */
  lemma {:induction false} FailsIffFull(i: In, chunks: seq<Bytes>)
    requires Need(i.buf) == 0
    ensures FeedAll(i, chunks).failed <==>
      i.failed || exists k :: 0 < k <= |chunks| && |Rest(i.buf + Flatten(chunks[..k]))| == CAPACITY
    decreases |chunks|
  {
    hide Need, Messages, Rest;
    if chunks != [] {
      var c, more := chunks[0], chunks[1..];
      var j := Feed(i, c);
      RestIsIncomplete(i.buf + c);
      FailsIffFull(j, more);
      forall k | 0 <= k <= |more|
        ensures Rest(j.buf + Flatten(more[..k])) == Rest(i.buf + Flatten(chunks[..k + 1]))
      {
        FeedStep(i, c, Flatten(more[..k]));
        assert chunks[..k + 1] == [c] + more[..k] && ([c] + more[..k])[1..] == more[..k];
      }
      assert more[..0] == [] && j.buf + Flatten([]) == j.buf;
      RestOfRest(i.buf + c);
      assert |Rest(j.buf)| == CAPACITY <==> |Rest(i.buf + Flatten(chunks[..1]))| == CAPACITY;
      if k :| 0 < k <= |chunks| && |Rest(i.buf + Flatten(chunks[..k]))| == CAPACITY {
        if k > 1 {
          assert |Rest(j.buf + Flatten(more[..k - 1]))| == CAPACITY;
        }
      }
      if k :| 0 < k <= |more| && |Rest(j.buf + Flatten(more[..k]))| == CAPACITY {
        assert |Rest(i.buf + Flatten(chunks[..k + 1]))| == CAPACITY;
      }
    }
  }

  lemma RestOfRest(b: Bytes)
    ensures Rest(Rest(b)) == Rest(b)
  {
    RestIsIncomplete(b);
    ParseStep(Rest(b));
    hide Need, Rest;
  }

  // ------------------------------------------------------------- the object

  /** What a call of read() may answer. */
  datatype Answer = Got(data: Bytes) | Again | Closed

  /** The bytes one read takes, and whether an error is reported. */
  function TakenOnce(room: nat, a: Answer): (Bytes, bool) {
    match a
    case Again => ([], false)
    case Closed => ([], true)
    case Got(data) =>
      if data == [] then ([], true) else (data[..if |data| < room then |data| else room], false)
  }

  /** The end of the stream and a failed read are errors, a read that would block is not; what is taken is
      the front of what there is, as much as fits. */
  lemma ReadFailsIff(room: nat, a: Answer)
    ensures TakenOnce(room, a).1 <==> a == Closed || a == Got([])
    ensures a.Got? ==> TakenOnce(room, a).0 <= a.data
    ensures a.Got? ==> (|TakenOnce(room, a).0| == if room <= |a.data| then room else |a.data|)
    ensures !a.Got? ==> TakenOnce(room, a).0 == []
  {
  }

  /** The same in low-latency mode: single bytes as long as there are any and there is room. */
  function TakenBytes(some: bool, room: nat, answers: seq<Answer>): (Bytes, bool)
    decreases answers
  {
    if room == 0 || answers == [] then ([], false)
    else
      var (first, e) := TakenOnce(1, answers[0]);
      if first == [] then ([], e && !some)
      else
        var (rest, f) := TakenBytes(true, room - 1, answers[1..]);
        (first + rest, f)
  }

  /** More bytes in front. */
  function Then(a: Bytes, r: (Bytes, bool)): (Bytes, bool) {
    (a + r.0, r.1)
  }

  lemma ThenNothing(r: (Bytes, bool))
    ensures Then([], r) == r
  {
    assert [] + r.0 == r.0;
  }

  lemma ThenThen(a: Bytes, b: Bytes, r: (Bytes, bool))
    ensures Then(a, Then(b, r)) == Then(a + b, r)
  {
    Associate(a, b, r.0);
  }

  lemma ThenEnds(a: Bytes, e: bool)
    ensures Then(a, ([], e)) == (a, e)
  {
    assert a + [] == a;
  }

  lemma Associate(a: Bytes, b: Bytes, c: Bytes)
    ensures (a + b) + c == a + (b + c)
  {
  }

  lemma TakenStep(some: bool, room: nat, answers: seq<Answer>)
    requires room > 0 && answers != []
    ensures var (first, e) := TakenOnce(1, answers[0]);
      |first| <= 1 &&
      TakenBytes(some, room, answers) ==
      if first == [] then ([], e && !some) else Then(first, TakenBytes(true, room - 1, answers[1..]))
  {
  }

  lemma TakenNothing(some: bool, room: nat, answers: seq<Answer>)
    requires room == 0 || answers == []
    ensures TakenBytes(some, room, answers) == ([], false)
  {
  }

  class RecvBuf {
    const recvbuf: array<byte>
    var recvpos: nat
    var got: seq<Bytes>
    var failed: bool
    var running: bool

    ghost predicate Valid()
      reads this, recvbuf
    {
      recvbuf.Length == CAPACITY && recvpos <= CAPACITY
    }

    ghost function State(): In
      requires Valid()
      reads this, recvbuf
    {
      In(recvbuf[..recvpos], got, failed)
    }

    constructor ()
      ensures Valid() && State() == In([], [], false) && !running && fresh(recvbuf)
    {
      recvbuf := new byte[CAPACITY];
      recvpos, got, failed, running := 0, [], false, false;
    }

    /** Reading starts with whatever is in the buffer already. */
    method Start()
      requires Valid()
      modifies this, recvbuf
      ensures Valid() && running
      ensures State() == if old(running) then old(State()) else Feed(old(State()), [])
    {
      if running {
        return;
      }
      running := true;
      FeedOut();
    }

    /** Copy bytes behind the unread ones. */
    method Append(data: Bytes)
      requires Valid() && recvpos + |data| <= CAPACITY
      modifies `recvpos, recvbuf
      ensures Valid() && State() == old(State()).(buf := old(State()).buf + data)
      ensures recvpos == old(recvpos) + |data|
    {
      ghost var was := recvbuf[..recvpos];
      var p := recvpos;
      for k := 0 to |data|
        invariant recvpos == p && recvbuf[..p] == was
        invariant recvbuf[p..p + k] == data[..k]
      {
        recvbuf[p + k] := data[k];
      }
      recvpos := p + |data|;
      assert recvbuf[..recvpos] == was + data;
    }

    /** read_cb on the array. */
    method NeedOf() returns (n: nat)
      requires Valid()
      ensures n == Need(recvbuf[..recvpos])
    {
      if recvpos < 2 {
        return 0;
      }
      var len := Length(recvbuf[0], recvbuf[1]);
      return if recvpos < len + 2 then 0 else len + 2;
    }

    /** Move the unread bytes to the front. */
    method Discard(n: nat)
      requires Valid() && n <= recvpos
      modifies `recvpos, recvbuf
      ensures Valid() && State() == old(State()).(buf := old(State()).buf[n..])
    {
      ghost var was := recvbuf[..recvpos];
      var left := recvpos - n;
      for k := 0 to left
        invariant recvpos == n + left && |was| == n + left
        invariant forall j | 0 <= j < k :: recvbuf[j] == was[n + j]
        invariant forall j | n + k <= j < n + left :: recvbuf[j] == was[j]
      {
        recvbuf[k] := recvbuf[n + k];
      }
      recvpos := left;
      assert recvbuf[..recvpos] == was[n..];
    }

    /** feed_out; before the start the bytes stay where they are. */
    method FeedOut()
      requires Valid()
      modifies this, recvbuf
      ensures Valid() && running == old(running)
      ensures State() == if running then Feed(old(State()), []) else old(State())
    {
      if running {
        Drain();
      }
    }

    /** The loop over complete messages. */
    method Drain()
      requires Valid()
      modifies this, recvbuf
      ensures Valid() && running == old(running) && State() == Feed(old(State()), [])
    {
      hide Need, Messages, Rest;
      ghost var b := recvbuf[..recvpos];
      assert b + [] == b;
      while recvpos > 0
        invariant Valid() && failed == old(failed) && running == old(running)
        invariant Rest(recvbuf[..recvpos]) == Rest(b)
        invariant got + Messages(recvbuf[..recvpos]) == old(got) + Messages(b)
        decreases recvpos
      {
        var n := NeedOf();
        ParseStep(recvbuf[..recvpos]);
        if n == 0 {
          if recvpos == CAPACITY {
            failed := true;
          }
          assert old(got) + Messages(b) == got + [] == got;
          return;
        }
        var now := recvbuf[..recvpos];
        got := got + [now[2..n]];
        Discard(n);
        assert old(got) + Messages(b) == got + Messages(now[n..]);
      }
      ParseStep([]);
      assert recvbuf[..0] == [] && old(got) + Messages(b) == got + [] == got;
    }

    /** The loop of io_cb in low-latency mode. */
    method ReadBytes(answers: seq<Answer>) returns (error: bool)
      requires Valid()
      modifies `recvpos, recvbuf
      ensures Valid()
      ensures var (chunk, e) := TakenBytes(false, CAPACITY - old(recvpos), answers);
        error == e && State() == old(State()).(buf := old(State()).buf + chunk)
    {
      hide TakenBytes, TakenOnce, Then;
      ghost var start := recvbuf[..recvpos];
      ghost var all := TakenBytes(false, CAPACITY - recvpos, answers);
      ghost var read: Bytes := [];
      var rest, some := answers, false;
      ThenNothing(all);
      assert start + [] == start;
      while recvpos < CAPACITY && rest != []
        invariant Valid() && State().buf == start + read && got == old(got) && failed == old(failed)
        invariant all == Then(read, TakenBytes(some, CAPACITY - recvpos, rest))
        decreases rest
      {
        TakenStep(some, CAPACITY - recvpos, rest);
        var (one, e) := TakenOnce(1, rest[0]);
        if one == [] {
          ThenEnds(read, e && !some);
          return e && !some;
        }
        ThenThen(read, one, TakenBytes(true, CAPACITY - recvpos - 1, rest[1..]));
        Append(one);
        Associate(start, read, one);
        read := read + one;
        rest, some := rest[1..], true;
      }
      TakenNothing(some, CAPACITY - recvpos, rest);
      ThenEnds(read, false);
      return false;
    }

    /** io_cb. */
    method IoCallback(quick: bool, answers: seq<Answer>)
      requires Valid()
      modifies this, recvbuf
      ensures Valid() && running == old(running)
      ensures var room := CAPACITY - old(recvpos);
        var (chunk, error) :=
          if quick then TakenBytes(false, room, answers)
          else if room == 0 || answers == [] then ([], false)
          else TakenOnce(room, answers[0]);
        var i := old(State()).(failed := old(failed) || error);
        State() == if running then Feed(i, chunk) else i.(buf := i.buf + chunk)
    {
      hide TakenBytes, Messages, Rest;
      ghost var was := recvbuf[..recvpos];
      var error := false;
      if quick {
        error := ReadBytes(answers);
      } else if recvpos < CAPACITY && answers != [] {
        var (chunk, e) := TakenOnce(CAPACITY - recvpos, answers[0]);
        Append(chunk);
        error := e;
      } else {
        assert was + [] == was;
      }
      failed := failed || error;
      ghost var read := recvbuf[..recvpos];
      assert read + [] == read;
      FeedOut();
    }
  }
}
