/** A client connection from end to end: messages written with sendmessage through a send buffer
    onto a descriptor that takes them piecemeal, and read from the other side in pieces again. */
module ClientStream {
  import opened KnxTypes
  import opened Streams
  import S = SendBuffer
  import R = RecvBuffer

  /** The two buffers sendmessage submits for each message. */
  function Pieces(messages: seq<Bytes>): seq<Bytes> {
    if messages == [] then []
    else [R.Frame(messages[0])[..2], messages[0]] + Pieces(messages[1..])
  }

  lemma {:induction false} PiecesAreStream(messages: seq<Bytes>)
    ensures Flatten(Pieces(messages)) == R.Stream(messages)
    decreases messages
  {
    if messages != [] {
      var m := messages[0];
      var head := R.Frame(m)[..2];
      FlattenConcat([head, m], Pieces(messages[1..]));
      assert [head, m][1..] == [m] && Flatten([m]) == m + Flatten([]) == m;
      assert Flatten([head, m]) == head + m == R.Frame(m);
      PiecesAreStream(messages[1..]);
    }
  }

  /** ClientConnection::sendmessage. */
  method SendMessage(out: S.SendBuf, message: Bytes, first: S.Answer, second: S.Answer)
    requires |message| >= 2 && S.Valid(out.State())
    modifies out
    ensures S.Valid(out.State())
    ensures out.written + S.Pending(out.State()) == old(out.written + S.Pending(out.State())) + R.Frame(message)
  {
    var head := [|message| / 256 % 256, |message| % 256];
    out.Write(head, first);
    out.Write(message, second);
    assert R.Frame(message) == head + message;
  }

  /** Whatever the descriptor takes when, and however the other side's reads fall, the messages
      received are the first ones sent; and all of them once the sender is idle and everything
      written was read. */
  lemma EndToEnd(messages: seq<Bytes>, events: seq<S.Event>, chunks: seq<Bytes>)
    requires forall k | 0 <= k < |messages| :: |messages[k]| <= R.MAX_MESSAGE
    requires S.Submitted(events) == Pieces(messages)
    requires Flatten(chunks) <= S.Run(S.Initial(), events).written
    ensures var sender, receiver := S.Run(S.Initial(), events), R.FeedAll(R.In([], [], false), chunks);
      && receiver.got <= messages
      && !receiver.failed
      && (!sender.ready && Flatten(chunks) == sender.written ==> receiver.got == messages)
  {
    S.NothingIsLost(events);
    PiecesAreStream(messages);
    R.ChunksYieldMessages(messages, chunks);
  }
}
