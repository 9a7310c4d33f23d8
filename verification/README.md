# knxd: a verified model

knxd connects KNX buses, IP networks and local programs. Everything in it happens in callbacks of
one event loop. This project models the parts where most can go wrong (the stop-and-wait protocols,
the router, the group cache, the byte-stream framers and the codecs) and proves what each of them
keeps over whole runs. `dafny verify dfyconfig.toml` checks all of it.

## How the model is built

Where the program updates an object in place the model has a class with the same fields. Its
methods are the callbacks, with the program's loops. Each method is tied by its `ensures` to a
function on a value of the same state, and the theorems are about these functions: a run is any
sequence of callbacks, datagrams, timers and failures, in any order. An `ev::async` is a boolean
that says its callback is pending. A timer is an event that may happen whenever it is armed. What
goes out (bytes, frames, requests for more) is appended to a log. Clocks, answers of `read` and
`write`, acknowledgement rules and the callbacks a driver makes from inside a call made to it are
parameters.

Three classes called `Router` hold three parts of the fields of the one in `router.cpp`: who owns
which address, the flow control, and the memory of forwarded frames.

Bytes are integers from 0 to 255; masks are written with `/` and `%`. Counters that wrap in the
program (sequence numbers, 16-bit lengths and positions) wrap in the model.

| modules | part of the program |
|---|---|
| `StopAndWait`, `Datagrams`, `TunnelClient`, `TunnelServer`, `TunnelSession`, `TunnelProgress`, `TunnelReconnect` | KNXnet/IP tunnelling, frame confirmation as in section 2.6 of KNX Standard 03_08_04 |
| `Tpdu`, `TConnection`, `TransportSession`, `TransportProgress` | the connection-oriented transport layer, section 5 of KNX Standard 03_03_04 |
| `RouterAddresses`, `RouterDelivery`, `RouterFlow`, `RouterProgress`, `RouterRepeat`, `LinkLife`, `QueueFilter` | the router, its links and the queue filter |
| `GroupCache` | the group cache |
| `Tpuart`, `Ft12`, `SendBuffer`, `RecvBuffer`, `ClientStream` | byte streams: bus chip, FT1.2 (class FT1.2 of IEC 60870-5-1, section 6.2.4.2), client connections |
| `Lpdu`, `Emi`, `Image`, `ImageWrite` | frame codecs and memory images |
| `KnxTypes`, `Modulo`, `Streams`, `XorFacts` | shared types and arithmetic |

## What the proofs found

- Sequence numbers modulo `m` are safe in all runs if and only if no datagram is delivered after its
  sender moved on by more than `m - 2` frames: 254 for the tunnel, 14 for the transport layer.
- A tunnel client that gives up on a frame goes on with the same sequence number. Its next frame is
  then confirmed without being consumed exactly when the server had consumed the abandoned one, so
  giving up has to end the session.
- A tunnel client does not reset its retry counter when it connects. After a session in which it gave
  up, it transmits the first frame of the next session once instead of up to five times.
- A tunnel client adds 0x100 to a sequence number below the expected one, in eight bits, so nothing
  is added. A request two or more frames behind is therefore ignored unless the expected number has
  wrapped since: then, up to 251 frames behind, it restarts the connection.
- A new tunnel session on the channel of an old one cannot tell the old one's datagrams from its own.
  All its runs are safe if and only if every request still on its way bears a number at least two,
  and every acknowledgement one at least one, above the number of frames the new session completes
  while they can arrive.
- Encoders and decoders disagree on priority codes 1 and 2. One trip exchanges NORMAL and URGENT,
  two trips are the identity.
- Two links never come to claim one address if and only if every position of the client address
  block past 0xFFFF is cut down to address 0 or the router's own: the block may end at 0xFFFF, one
  position later, or two if the router's own address is 1. Otherwise a bus link can learn the
  address before the client connection that holds it registers its link, or two positions of the
  block hand it out to two clients.
- `GroupCache::Clear` empties one of two maps. The cache stays an LRU cache exactly if it was empty.
- A link that is asked to go up while it is up loses its send timeout. A link in `L_error` may still
  have a running driver, which is harmless only because nothing asks such a link for `L_wait_retry`.
- The router stops asking for frames exactly when the only link it waits for is lost.
- A list parameter of 65537 bytes whose last string is empty is written back with its first byte
  overwritten. Every other stream of a memory image comes back as it was.
- `Image::toArray` puts a length of ten into the header. What it writes is accepted again if and only
  if the streams together take a multiple of 65536 bytes, none included, and the last is longer than
  four bytes.
- `L_Data_ToEMI` keeps payloads up to 16 bytes and no longer ones.
- With hop count 7 an individually addressed frame goes only to links on which its destination is
  known: `hopcount == 7 || found` is one condition in the code.
- A send buffer reports an error that its descriptor did not answer in some run if and only if an
  empty buffer is submitted to it.
- `RecvBuf::stop` never clears `running`.

Where the code and its comments disagree the model follows the code.

## Model

| member | source | states |
|---|---|---|
| `StopAndWait.SafeIffYoung` | src/backend/eibnettunnel.cpp:227-357 | for every modulus: in all runs with loss, duplication, delay and reordering the frames delivered are a prefix of those submitted and at most one ahead of those acknowledged, if and only if no datagram outlives m - 2 later frames |
| `StopAndWait.StepKeepsInv` | src/backend/eibnettunnel.cpp:315-357 | every step of sender, receiver and network keeps the invariant that ties each packet and each acknowledgement in flight to a frame |
| `StopAndWait.AcceptedIsNext` | src/backend/eibnettunnel.cpp:227-276 | a packet whose number is expected carries the next frame |
| `StopAndWait.RepeatedIsLast` | src/backend/eibnettunnel.cpp:227-276 | a packet taken for a repetition repeats the last frame delivered |
| `StopAndWait.ReceiptIsCurrent` | src/backend/eibnettunnel.cpp:315-357 | an acknowledgement taken for the current frame acknowledges that frame |
| `StopAndWait.ConfusionBreaks` | src/backend/eibnettunnel.cpp:227-276 | one frame older, and there is a run that delivers a frame twice |
| `TunnelClient.EibNetIpTunnel.ConnectionResponse` | src/backend/eibnettunnel.cpp:160-226 | a connection response opens the session with both sequence numbers 0; the retry counter stays (`TunnelSession.SessionIsSafe` and `TunnelProgress.LosslessDelivers` start from this state) |
| `TunnelClient.EibNetIpTunnel.Start` | src/backend/eibnettunnel.cpp:84-140 | what an earlier session left in the buffer is dropped |
| `TunnelClient.EibNetIpTunnel.ReadTunnelRequest` | src/backend/eibnettunnel.cpp:227-314 | new state, datagrams and frames handed up for every tunnel request: accepted, repeated, out of order, too far ahead |
| `TunnelClient.EibNetIpTunnel.ReadTunnelAck` | src/backend/eibnettunnel.cpp:315-357 | an acknowledgement ends the wait, repeats the frame or is ignored |
| `TunnelClient.EibNetIpTunnel.Send` | src/backend/eibnettunnel.cpp:456-462 | a frame is put in the buffer and the trigger raised |
| `TunnelClient.EibNetIpTunnel.TriggerCallback` | src/backend/eibnettunnel.cpp:464-478 | the buffered frame is transmitted with the current number when nothing is outstanding |
| `TunnelClient.EibNetIpTunnel.TimeoutCallback` | src/backend/eibnettunnel.cpp:540-554 | a timeout leads to another transmission, or after the fifth to giving up |
| `TunnelClient.EibNetIpTunnel.DoRestart` | src/backend/eibnettunnel.cpp:520-538 | a restart ends the session |
| `TunnelServer.ConnState.constructor` | src/libserver/eibnetserver.cpp:303-349 | a new connection starts with both sequence numbers 0 and an empty queue |
| `TunnelServer.ConnState.Send` | src/libserver/eibnetserver.cpp:291-301 | a frame is queued as an indication, and the layer above has to wait |
| `TunnelServer.ConnState.SendTriggerCallback` | src/libserver/eibnetserver.cpp:363-387 | the head of the queue is transmitted and its timer started |
| `TunnelServer.ConnState.SendTimeoutCallback` | src/libserver/eibnetserver.cpp:351-361 | a timeout repeats the head once and then stops the connection |
| `TunnelServer.ConnState.DoStop` | src/libserver/eibnetserver.cpp:405-421 | stopping ends transmissions and gives the address back |
| `TunnelServer.ConnState.TunnelRequested` | src/libserver/eibnetserver.cpp:864-914 | a request is accepted, acknowledged again, refused by layer or ignored; a data request is confirmed and handed to the router |
| `TunnelServer.ConnState.TunnelAcked` | src/libserver/eibnetserver.cpp:916-953 | the expected acknowledgement removes the head of the queue and, when the queue is empty, asks for more |
| `TunnelServer.ConnState.Consume` | src/libserver/eibnetserver.cpp:882-909 | what an accepted request asks for and the status it is acknowledged with |
| `TunnelServer.RequestIsReceived` | src/libserver/eibnetserver.cpp:864-914 | the server's receiving rule is the generic one, for every frame |
| `TunnelServer.StoppedForGood` | src/libserver/eibnetserver.cpp:405-421 | after a stop the address is given back and nothing that arrives starts a transmission |
| `TunnelServer.OnlyAcksAskForMore` | src/libserver/eibnetserver.cpp:916-953 | no other callback asks for more |
| `TunnelServer.SendKeepsValid` | src/libserver/eibnetserver.cpp:291-301 | a frame from above is appended to the queue and changes nothing else |
| `TunnelServer.RequestKeepsValid` | src/libserver/eibnetserver.cpp:864-914 | requests keep the connection's invariant, also when they come while it is transmitting |
| `TunnelSession.SessionIsSafe` | src/libserver/eibnetserver.cpp:864-953 | every session a client opens, whatever earlier ones left in it, both directions: prefix, at most one frame ahead, no callback precondition fails, at most five transmissions of a client frame and two of a server frame, one request for more per acknowledged frame of the client and at most one per frame the server took, no frame without a pending wake-up |
| `TunnelSession.StepKeepsInv` | src/backend/eibnettunnel.cpp:227-357 | every event at either end and on the network keeps the invariant of the composed session |
| `TunnelSession.NextMeansDrained` | src/libserver/eibnetserver.cpp:916-953 | the server asks for more only when all it ever queued was accepted by the client |
| `TunnelSession.ServerHandsUp` | src/libserver/eibnetserver.cpp:864-914 | what the server consumes reaches the router as the frame the client sent, its priority exchanged and its missing source filled in |
| `TunnelSession.ClientHandsUp` | src/backend/eibnettunnel.cpp:277-314 | what the client accepts is the frame the server was given, its priority exchanged |
| `TunnelSession.StaleRequestRestarts` | src/backend/eibnettunnel.cpp:257-266 | a request from the network that is two or more frames behind is ignored, or restarts the client, exactly by how far behind it is and whether the number wrapped |
| `TunnelSession.GivingUpLosesTheNextFrame` | src/backend/eibnettunnel.cpp:540-554 | the run: one frame consumed, its acknowledgement lost, the repetitions the retry counter allows; the frame after giving up is confirmed and lost |
| `TunnelSession.OnlyIndicationsGoUp` | src/backend/eibnettunnel.cpp:277-314 | the client hands up nothing but accepted indications (0x29) |
| `TunnelSession.OnlyDataGoesUp` | src/libserver/eibnetserver.cpp:882-909 | the server hands up requests (0x11) and indications, and confirms requests only |
| `TunnelProgress.LosslessDelivers` | src/libserver/eibnetserver.cpp:864-953 | without loss every frame of any list arrives, in either direction: one transmission, one acknowledgement and one request for more each, numbers starting at 0 and wrapping |
| `TunnelProgress.ClientInsistsExactly` | src/backend/eibnettunnel.cpp:540-554 | an unanswered frame is transmitted exactly five times, less what the retry counter has used up but at least once, and then the client disconnects |
| `TunnelProgress.RetryCounterSurvives` | src/backend/eibnettunnel.cpp:214-226 | after giving up and connecting again the first frame is transmitted once |
| `TunnelProgress.ServerInsistsExactly` | src/libserver/eibnetserver.cpp:351-387 | an unanswered frame of the server is transmitted exactly twice, then dropped and the connection stopped |
| `TunnelProgress.ServerAcksEveryCopy` | src/libserver/eibnetserver.cpp:864-914 | any number of copies of a request: each acknowledged, the frame handed to the router and confirmed once |
| `TunnelProgress.ClientAcksEveryCopy` | src/backend/eibnettunnel.cpp:227-276 | the same at the client |
| `TunnelProgress.OthersAreIgnored` | src/backend/eibnettunnel.cpp:315-357 | refusals, other channels and other numbers do not end a wait |
| `TunnelReconnect.ReconnectIffHarmless` | src/libserver/eibnetserver.cpp:303-336 | a new session on an old channel, with datagrams of the old one arriving: all runs keep both directions safe, if and only if the old numbers are out of reach while they live |
| `TunnelReconnect.StepKeepsInv` | src/libserver/eibnetserver.cpp:713-749 | while datagrams out of reach and those of the new session arrive in any order, no callback precondition fails and the session invariant holds; at most the receiver answers an old number 255 before its first frame, or the client restarts |
| `TunnelReconnect.OldRequestUpBreaks` | src/libserver/eibnetserver.cpp:864-914 | the run in which the server takes an old request for a frame that was never sent |
| `TunnelReconnect.OldAckUpBreaks` | src/backend/eibnettunnel.cpp:315-357 | the run in which an old acknowledgement confirms a lost frame |
| `TunnelReconnect.OldRequestDownBreaks` | src/backend/eibnettunnel.cpp:227-276 | the same for a request to the client |
| `TunnelReconnect.OldAckDownBreaks` | src/libserver/eibnetserver.cpp:916-953 | the same for an acknowledgement to the server |
| `TunnelSession.AfterGivingUp` | src/backend/eibnettunnel.cpp:540-554 | after giving up the next frame is confirmed without being consumed if and only if the abandoned one had been consumed |
| `Tpdu.RoundTrip` | src/libserver/tpdu.cpp:23-255 | serial numbers and payloads survive encoding, two bits of the first payload byte do |
| `TConnection.TConn.SendConnect` | src/libserver/layer4.cpp:318-337 | connecting resets both serial numbers and the repeat count |
| `TConnection.TConn.SendLData` | src/libserver/layer4.cpp:232-294 | data, acknowledgements, refusals and disconnects, expected or not |
| `TConnection.TConn.ReceiveData` | src/libserver/layer4.cpp:296-302 | an APDU is queued and sent when nothing is outstanding |
| `TConnection.TConn.DoSendCheck` | src/libserver/layer4.cpp:304-316 | the first APDU of the queue becomes the current one |
| `TConnection.TConn.TimerCallback` | src/libserver/layer4.cpp:396-406 | a timeout repeats the current APDU or closes the connection |
| `TConnection.TConn.DoStop` | src/libserver/layer4.cpp:408-417 | stopping sends a disconnect and ends everything |
| `TConnection.SentFourTimes` | src/libserver/layer4.cpp:396-406 | an APDU nobody acknowledges is transmitted exactly four times, then the connection is closed and the application told |
| `TConnection.ThreeRepetitions` | src/libserver/layer4.cpp:260-273 | refusals and timeouts in any order: exactly three repetitions, then the end |
| `TConnection.EveryCopyIsAcknowledged` | src/libserver/layer4.cpp:244-259 | any number of copies of an APDU: each acknowledged with the number that ends the sender's wait, the APDU delivered once |
| `TransportProgress.LosslessDelivers` | src/libserver/layer4.cpp:232-316 | without loss every APDU of any list arrives, in order |
| `TransportSession.ConnectionIsSafe` | src/libserver/layer4.cpp:232-417 | two ends over the network, whatever was queued before connecting, every run: APDUs delivered are a prefix of those queued (first byte reduced to two bits), serial numbers stay below 16, at most four transmissions each, refusals and timeouts sharing the budget |
| `TransportSession.StepAKeepsInv` | src/libserver/layer4.cpp:232-316 | every event at one end keeps the invariant of both directions |
| `RouterAddresses.Router.RecvLData` | src/libserver/router.cpp:687-733 | which frames are rejected, accepted or teach the link an address; it does not matter which claimant the search finds |
| `RouterAddresses.Router.HasAddress` | src/libserver/router.cpp:862-901 | the router's own address, the claim of the link to skip, and any other claimant |
| `RouterAddresses.Router.GetClientAddr` | src/libserver/router.cpp:937-968 | the cyclic search, bit by bit, is the specified allocation and keeps ownership unique |
| `RouterAddresses.Router.ReleaseClientAddr` | src/libserver/router.cpp:970-992 | an address in the block is freed, any other ignored |
| `RouterAddresses.Router.FindDestination` | src/libserver/router.cpp:1092-1103 | is the destination the router or known away from the sender |
| `RouterAddresses.Router.SendLData` | src/libserver/router.cpp:1062-1116 | the links a frame is handed to, exactly and each once; which these are is stated in `RouterDelivery` |
| `RouterDelivery.GroupGoesToAll` | src/libserver/router.cpp:1062-1085 | every reachable state: a group frame goes to every link that is up and subscribes, whatever its hop count, except where it came from; with hop count 7 also to links that do not subscribe |
| `RouterDelivery.GroupGoesToSubscribers` | src/libserver/router.cpp:1062-1085 | the same for every table and every source |
| `RouterDelivery.KnownGoesToOwner` | src/libserver/router.cpp:1086-1116 | a frame to an address another link claims goes to that link and nowhere else |
| `RouterDelivery.UnknownGoesToBuses` | src/libserver/router.cpp:1086-1116 | a frame to an address no other link claims goes to every bus and routing server that is up but its origin, with hop count 7 nowhere |
| `RouterDelivery.UnprogrammedIsBroadcast` | src/libserver/router.cpp:1090-1116 | the address for programming is never searched for |
| `RouterDelivery.FirstComeOwns` | src/libserver/router.cpp:687-733 | once a frame was accepted from a link, its source is accepted from that link and from no other, whatever happens in between, as long as the link is registered |
| `RouterDelivery.NewcomerIsHeard` | src/libserver/router.cpp:713-733 | a source nobody claims is accepted from a bus and learned, outside the client block |
| `RouterDelivery.OwnSourceIsLocal` | src/libserver/router.cpp:687-712 | the router's own address is accepted from local links only |
| `RouterDelivery.NewLinkIsHeard` | src/libserver/router.cpp:697-703 | a missing source becomes the client's address; a tunnel has to fill it in |
| `RouterDelivery.NewLinkGetsFrames` | src/libserver/router.cpp:1070-1084 | a new link gets frames once it is up and no earlier |
| `RouterDelivery.NothingLeaks` | src/libserver/router.cpp:937-992 | every reachable state: an address of the block is marked as taken if and only if a client or a link holds it |
| `RouterDelivery.ClosedIsAvailable` | src/libserver/router.cpp:970-992 | the address of a client that closes can be had again at once |
| `RouterDelivery.DroppedIsAvailable` | src/libserver/eibnetserver.cpp:405-444 | that of a link can when the link is dropped |
| `RouterAddresses.OwnershipIffFits` | src/libserver/router.cpp:687-733 | in every reachable state an address other than 0 and the router's own is claimed by at most one link, also while a stopped tunnel waits to be dropped, if and only if the block has no position past 0xFFFF with an address that can be handed out |
| `RouterAddresses.FitsExactly` | src/libserver/router.cpp:950-954 | that condition by the block's end and the router's own address |
| `RouterAddresses.BlockBreaks` | src/libserver/router.cpp:713-730 | for every other block the run of client connections from the empty router that ends with two claimants |
| `RouterAddresses.Router.OpenTunnelLink` | src/libserver/eibnetserver.cpp:303-336 | a tunnel's address is allocated and its link registered in one callback |
| `RouterAddresses.StepKeepsInv` | src/libserver/eibnetserver.cpp:405-444 | learning, opening, giving addresses back before or after the link is dropped, closing clients and allocation keep ownership unique |
| `RouterAddresses.NoEcho` | src/libserver/router.cpp:1062-1116 | a frame accepted from a link never goes back out on it, whatever happened in between and whatever the block |
| `RouterAddresses.AllocateIsFirst` | src/libserver/router.cpp:937-968 | the first available address cyclically after the last one issued; none exactly if none is available |
| `RouterAddresses.LastIssuedIsLast` | src/libserver/router.cpp:937-968 | the address issued last is reissued only when nothing else is available |
| `RouterFlow.Router.Started` | src/libserver/router.cpp:622-640 | starting makes the router ready and wakes it up, and signals that it runs if all links do |
| `RouterFlow.Router.QueueLData` | src/libserver/router.cpp:741-752 | a frame is queued, with a wake-up once the router signalled that it runs, or discarded while it does not |
| `RouterFlow.Router.SendNextFrame` | src/libserver/router.cpp:411-442 | ready exactly if not sending, not ready before, and no link that is up has a frame outstanding |
| `RouterFlow.Router.Ready` | src/libserver/router.cpp:424-438 | the loop over the links decides whether one of them waits |
| `RouterFlow.Router.LinkEvent` | src/libserver/link.cpp:485-523 | a link's step and its effect on the router |
| `RouterFlow.Router.VisitOne` | src/libserver/router.cpp:1072-1084 | one turn of the loop in send_L_Data, with what the driver answers from inside it |
| `RouterFlow.Router.SendLData` | src/libserver/router.cpp:1062-1119 | the whole loop and the readiness check after it are a run of the specified steps |
| `RouterFlow.Router.TriggerCallback` | src/libserver/router.cpp:994-1041 | frames are taken in order until none is left or a link makes the router wait; the handshake invariant holds afterwards |
| `RouterFlow.HandshakeIsSafe` | src/libserver/router.cpp:1053-1119 | every run, synchronous answers and restarting links included: the assertion in send_L_Data never fails, no link is found not ready, readiness below implies readiness above implies that of every link that is up, and no frame that could be sent lacks a wake-up |
| `RouterFlow.OnlySendWaits` | src/libserver/link.cpp:324-331 | only handing over a frame makes a link wait; a link comes up ready |
| `RouterFlow.OpenedIffReady` | src/libserver/router.cpp:622-640 | starting the router keeps the handshake if and only if no link has a frame outstanding |
| `RouterFlow.ResponsiveIffNotAbandoned` | src/libserver/router.cpp:411-442 | the router stays ready or waiting for a link at every step, except when the only link it waits for is removed, asked to go down, stopped, failed or timed out |
| `RouterProgress.EveryFrameIsHandedOn` | src/libserver/router.cpp:994-1119 | from the start of the program, any links and any frames, with drivers that answer: every link comes up, and is handed exactly the forwarded frames it wants, each once; the queue is empty and the router ready |
| `RouterProgress.FaultIsViolation` | src/libserver/router.cpp:1053-1066 | a fault is recorded if and only if a frame was forwarded while the router was not ready or a link was visited with a frame outstanding, from any state |
| `RouterRepeat.ForwardedFields` | src/libserver/router.cpp:1009-1037 | what goes out: one hop less unless hop count 7 means no limit, flag cleared, own address replaced, all else as it came |
| `RouterRepeat.TravelsAsFarAsItHasHops` | src/libserver/router.cpp:1009-1016 | through any chain of routers a frame is forwarded at most as often as it has hops, and exactly so if it is not flagged |
| `RouterRepeat.Router.ForwardFrame` | src/libserver/router.cpp:1009-1037 | hop count, lookup of a repeated frame, memory of the forwarded one, destination rewritten |
| `RouterRepeat.Router.Forget` | src/libserver/router.cpp:1043-1050 | the scan for the first entry that is not expired |
| `RouterRepeat.Router.IsRemembered` | src/libserver/router.cpp:1022-1030 | the lookup by packet |
| `RouterRepeat.RepeatIsDropped` | src/libserver/router.cpp:1009-1051 | with a monotone clock a frame flagged repeated is not forwarded within a second of its original, for any traffic in between |
| `RouterRepeat.OnlyRepeatsAreDropped` | src/libserver/router.cpp:1009-1051 | a frame with hops left is dropped only if it is flagged and the same frame up to that flag was forwarded before |
| `RouterRepeat.PurgeIsExact` | src/libserver/router.cpp:1043-1050 | a purge leaves exactly the unexpired entries, or all of them if all are expired |
| `LinkLife.LinkConnect.ChangeState` | src/libserver/link.cpp:138-280 | the transition table, the retry decision and the call to the driver, with the callbacks nested in it; what the states mean is `LinkLife.PhaseIsHistory` |
| `LinkLife.LinkConnect.Handle` | src/libserver/link.cpp:282-296 | every request, report and timer; a nested run is a plain run of the events in the order in which they were raised |
| `LinkLife.LinkConnect.React` | src/libserver/link.cpp:324-353 | the driver's synchronous answer to a start, a stop or a frame |
| `LinkLife.LifeCycleIsSafe` | src/libserver/link.cpp:138-296 | every run that does not abort: started again only after a stop was reported, a link waiting for its retry has its timer running, retries within the limit and below it while waiting |
| `LinkLife.PhaseIsHistory` | src/libserver/link.cpp:138-296 | every run that does not abort: each of the eight states is characterised by what happened since the driver was last started; the link is up if and only if the last thing that happened, frames aside, is a reported start; the retry counter counts the attempts since; it takes a frame if and only if the driver asked for one since the last |
| `LinkLife.ApplyKeepsInv` | src/libserver/link.cpp:485-523 | every event keeps the link's invariant |
| `LinkLife.AbortsExactly` | src/libserver/link.cpp:152-264 | the table read by event: the states in which a transition is invalid and the program aborts |
| `LinkLife.DriverIsCalled` | src/libserver/link.cpp:152-264 | the table read by call: when the driver is started and when it is stopped |
| `LinkLife.StopIsAnswered` | src/libserver/link.cpp:266-280 | the table read for a reported stop: down if it was asked for or ended a working link, else another attempt if one is allowed, else failed |
| `LinkLife.WatchIffNotAskedUp` | src/libserver/link.cpp:149-150 | a frame the driver has not confirmed stays watched by the timer, except after a redundant request to go up |
| `LinkLife.WaitingWouldRestart` | src/libserver/link.cpp:218-248 | a second error report leaves a running driver in `L_error`, and a request for `L_wait_retry` would restart it |
| `QueueFilter.Queue.OnStarted` | src/backend/fqueue.cpp:53-66 | a stopped filter becomes idle |
| `QueueFilter.Queue.OnStopped` | src/backend/fqueue.cpp:68-74 | stopping clears the queue |
| `QueueFilter.Queue.SendNext` | src/backend/fqueue.cpp:76-94 | the driver's request for more, in every state |
| `QueueFilter.Queue.SendLData` | src/backend/fqueue.cpp:109-125 | a packet is queued and confirmed, or dropped while down |
| `QueueFilter.Queue.TriggerCallback` | src/backend/fqueue.cpp:96-107 | the drain loop with a driver that may answer at once; it ends idle and empty, waiting, or down |
| `QueueFilter.QueueIsFaithful` | src/backend/fqueue.cpp:53-125 | every run: accepted is passed followed by queued, one confirmation each, at most one packet outstanding, no lost wake-up |
| `QueueFilter.AllAreAccepted` | src/backend/fqueue.cpp:53-125 | every run: exactly the packets sent between a start and the next stop are accepted |
| `QueueFilter.EverythingGetsThrough` | src/backend/fqueue.cpp:76-125 | with a driver that asks for more all packets are passed down, in order, in whatever groups they come |
| `GroupCache.CachedApdus` | src/libserver/groupcache.cpp:76-83 | which APDUs are cached: first byte 0, second 0x40 to 0xBF |
| `GroupCache.Cache.SendLData` | src/libserver/groupcache.cpp:71-110 | an update evicts, renumbers and stores as specified |
| `GroupCache.Cache.EvictOldest` | src/libserver/groupcache.cpp:86-91 | the eviction loop |
| `GroupCache.Cache.RemoveAddress` | src/libserver/groupcache.cpp:135-144 | removal from both maps |
| `GroupCache.Cache.ClearAll` | src/libserver/groupcache.cpp:120-125 | only one of the maps is emptied |
| `GroupCache.Cache.LastUpdates` | src/libserver/groupcache.cpp:351-365 | the backwards walk over the numbers gives the report |
| `GroupCache.CacheIsLru` | src/libserver/groupcache.cpp:71-144 | every run of updates and removals: the two maps are the capacity-limited list of most recently updated addresses, and inverse to each other in its order |
| `GroupCache.UpdateAgrees` | src/libserver/groupcache.cpp:71-110 | an update of the maps is a touch of the list |
| `GroupCache.UpdatesKeepNewest` | src/libserver/groupcache.cpp:71-110 | updates alone: exactly the most recently updated addresses, each with its last value |
| `GroupCache.RunConsistent` | src/libserver/groupcache.cpp:120-125 | with `Clear` allowed: every entry's number leads back to it, and the sizes stay ordered and bounded |
| `GroupCache.ClearAgrees` | src/libserver/groupcache.cpp:120-125 | `Clear` keeps the maps in agreement if and only if there was nothing to clear |
| `GroupCache.ClearBreaksLru` | src/libserver/groupcache.cpp:120-125 | after `Clear` an update throws out the address updated just before it |
| `GroupCache.ReportIsExact` | src/libserver/groupcache.cpp:351-365 | a report lists exactly the cached addresses updated at `start` or later, newest first, each once |
| `GroupCache.PollingMissesNothing` | src/libserver/groupcache.cpp:381-386 | polling with the previous end misses no address updated since and still cached |
| `Tpuart.TpuartWrap.CheckInput` | src/backend/tpuart.cpp:346-398 | echo or acknowledgement once per frame, delivery when complete |
| `Tpuart.TpuartWrap.RecvOne` | src/backend/tpuart.cpp:412-511 | what each byte means between frames and within one |
| `Tpuart.TpuartWrap.RecvData` | src/backend/tpuart.cpp:400-513 | a chunk is its bytes one after the other |
| `Tpuart.SegmentationInvertsConcatenation` | src/backend/tpuart.cpp:346-513 | every list of frames, at every point of its bytes: each complete frame had its one reply and was then delivered, priorities exchanged, in order, and nothing else happened but the reply to the frame under way |
| `Tpuart.PrefixOfStream` | src/backend/tpuart.cpp:346-513 | the same while a frame is being sent: echoes have no effect, other frames have theirs |
| `Tpuart.SingleByteIsNoFrame` | src/backend/tpuart.cpp:497-500 | a packet of one byte is never a frame |
| `Tpuart.ChunksDoNotMatter` | src/backend/tpuart.cpp:400-513 | cutting the bytes into reads makes no difference |
| `Tpuart.ReplyIsForDestination` | src/backend/tpuart.cpp:360-373 | the acknowledge byte says whether the frame's destination is served |
| `Tpuart.EchoIsSilent` | src/backend/tpuart.cpp:356-357 | the echo of the frame being sent, with or without repeat flag, is neither acknowledged nor delivered |
| `Tpuart.EchoIff` | src/backend/tpuart.cpp:356-357 | a frame is taken for the echo if and only if it agrees with the frame being sent in priority, addresses, hop count and length |
| `Tpuart.BetweenFrames` | src/backend/tpuart.cpp:412-511 | for each of the 256 bytes between frames: it starts a frame, confirms one, or has no effect but to end the keepalive |
| `Tpuart.SentFrameIsReleased` | src/backend/tpuart.cpp:436-458 | frames of others, the echo, its confirmation (0x8B or 0x0B), frames of others: the echo is silent, the frame released, exactly one request for more, everything after it answered |
| `Tpuart.ChipReads` | src/backend/tpuart.cpp:204-215 | the marks tell the chip index, continuation and end |
| `Tpuart.TpuartWrap.SendAgain` | src/backend/tpuart.cpp:193-225 | every byte goes out after its index, the timer starts and the packet is flagged; or it waits for the interface below |
| `Tpuart.TpuartWrap.LowerNext` | src/backend/tpuart.cpp:172-182 | what waited for the interface goes out |
| `Tpuart.TpuartWrap.SendTimeout` | src/backend/tpuart.cpp:273-284 | a repetition, or failure after four of them |
| `Tpuart.TpuartWrap.SendLData` | src/backend/tpuart.cpp:163-170 | the frame goes out as encoded; what is kept is its repetition |
| `Tpuart.SentFrameIsRepeat` | src/backend/tpuart.cpp:219-223 | clearing the flag in the first and the last byte gives the encoding of the repeated frame, checksum valid |
| `Tpuart.Escape` | src/backend/tpuart.cpp:204-215 | index and end marks for the chip |
| `Ft12.FT12wrap.ProcessRead` | src/backend/ft12.cpp:285-404 | the parse loop with all its branches; leftover bytes have their timer running |
| `Ft12.FT12wrap.TurnLong` | src/backend/ft12.cpp:336-384 | frames of variable length: incomplete, bad header, bad checksum, taken |
| `Ft12.FT12wrap.ReadShort` | src/backend/ft12.cpp:308-335 | frames of fixed length, the count bit and the reset |
| `Ft12.FT12wrap.ReadLong` | src/backend/ft12.cpp:362-382 | new frames, repetitions and jumps of the count bit |
| `Ft12.FT12wrap.RecvData` | src/backend/ft12.cpp:244-252 | bytes are appended and processed |
| `Ft12.FT12wrap.TimerCallback` | src/backend/ft12.cpp:254-258 | processing on timeout |
| `Ft12.ChunksAndTimersDoNotMatter` | src/backend/ft12.cpp:244-404 | every well-formed stream, any chunking and any timer firings: the same outputs and leftover as parsing it at once |
| `Ft12.ExactlyOnce` | src/backend/ft12.cpp:362-384 | a peer that starts with 0xF3 and flips the bit only for new frames: every transmission acknowledged, every new frame of variable length and every reset delivered exactly once, in order |
| `Ft12.SequenceJumpIsLost` | src/backend/ft12.cpp:365-374 | a frame with the old bit and a new payload is acknowledged and lost |
| `Ft12.EveryFrameIsAcknowledged` | src/backend/ft12.cpp:308-384 | every well-formed frame is acknowledged once, whatever its control byte, however the stream is cut |
| `Ft12.NothingIsInvented` | src/backend/ft12.cpp:285-404 | any bytes at all, any cuts and timers: the outputs are the effect of undamaged frames that occur in them in order and without overlap |
| `Ft12.NoiseIsSkipped` | src/backend/ft12.cpp:386-397 | bytes that start nothing make no difference in front of a frame |
| `Ft12.SendsInTurn` | src/backend/ft12.cpp:203-242 | every run of the sending side: each payload sent once, in order, with control bytes 0x73 and 0x53 by turns, one request for more per acknowledgement, no frame without a pending wake-up |
| `Ft12.AcknowledgedIff` | src/backend/ft12.cpp:296-307 | the wait ends, with one request for more, if and only if the byte 0xE5 comes between frames |
| `Ft12.FrameIsReadable` | src/backend/ft12.cpp:216-232 | a frame is well-formed if its payload has at most 254 bytes, and its length byte is wrong if it has more |
| `Ft12.FT12wrap.SendData` | src/backend/ft12.cpp:203-242 | the whole new state: frame built, count bit flipped, wake-up raised unless an acknowledgement is awaited |
| `Ft12.MakeLong` | src/backend/ft12.cpp:216-232 | length, control byte, payload, checksum; the length byte wraps |
| `Ft12.FT12wrap.TriggerCallback` | src/backend/ft12.cpp:413-425 | a frame is sent when no acknowledgement is awaited, and the timer started |
| `SendBuffer.SendBuf.Write` | src/common/iobuf.cpp:26-45 | written at once, kept from where the descriptor stopped, or queued; nothing lost |
| `SendBuffer.SendBuf.IoCallback` | src/common/iobuf.cpp:47-77 | the write loop, whatever the descriptor answers |
| `SendBuffer.NothingIsLost` | src/common/iobuf.cpp:26-77 | every run: bytes written followed by those held back are the bytes submitted; an idle buffer holds nothing back; one that is not idle awaits the descriptor or has failed |
| `SendBuffer.ErrorsAreRealIff` | src/common/iobuf.cpp:26-77 | over all runs that submit given buffers to a descriptor that only takes bytes or asks to be tried again: no error is reported, if and only if none of the buffers is empty |
| `SendBuffer.EmptyBufferFails` | src/common/iobuf.cpp:57-63 | the run that reports an error for any list with an empty buffer |
| `RecvBuffer.RecvBuf.IoCallback` | src/common/iobuf.cpp:79-100 | one read, or single bytes in low-latency mode, then everything complete is handed on |
| `RecvBuffer.RecvBuf.ReadBytes` | src/common/iobuf.cpp:83-98 | the read loop of low-latency mode |
| `RecvBuffer.RecvBuf.Start` | src/common/iobuf.cpp:133-141 | starting hands on what is in the buffer already |
| `RecvBuffer.RecvBuf.FeedOut` | src/common/iobuf.cpp:102-121 | nothing before the start, then the loop |
| `RecvBuffer.RecvBuf.Drain` | src/common/iobuf.cpp:104-119 | the loop over complete messages, moving the rest to the front, and the error of a full buffer |
| `RecvBuffer.RecvBuf.Discard` | src/common/iobuf.cpp:113-118 | the unread bytes are moved in place |
| `RecvBuffer.ChunksYieldMessages` | src/libserver/client.cpp:131-151 | every chunking of messages of at most 1022 bytes yields them in order, and no read finds the buffer full |
| `RecvBuffer.FullIffTooLong` | src/common/iobuf.cpp:106-112 | a full buffer is stuck if and only if its message is longer than 1022 bytes |
| `RecvBuffer.FailsIffFull` | src/common/iobuf.cpp:102-121 | any chunks: an error is reported if and only if some read leaves the buffer full |
| `RecvBuffer.ReadFailsIff` | src/common/iobuf.cpp:79-100 | the end of the stream and a failed read are errors, one that would block is not |
| `RecvBuffer.ParseConcat` | src/libserver/client.cpp:131-151 | cutting any stream in two changes nothing |
| `ClientStream.SendMessage` | src/libserver/client.cpp:296-307 | length and message are appended to what was submitted |
| `ClientStream.EndToEnd` | src/libserver/client.cpp:296-307 | sender, descriptor and receiver together: messages received are the first ones sent, and all of them once the sender is idle and everything was read |
| `Lpdu.ToPacket` | src/libserver/lpdu.cpp:281-338 | the packet with its checksum, standard or extended; its exclusive or is 0xFF by `Lpdu.PacketSumsToOnes` |
| `Lpdu.XorOf` | src/libserver/lpdu.cpp:331-335 | the checksum loop |
| `Lpdu.PacketSumsToOnes` | src/libserver/lpdu.cpp:331-335 | the exclusive or of all bytes of a packet, check byte included, is 0xFF |
| `Lpdu.DamagedIffNotOnes` | src/libserver/lpdu.cpp:270-276 | a packet is marked as undamaged if and only if that holds |
| `Lpdu.WrongLength` | src/libserver/lpdu.cpp:244-268 | an extended frame with a wrong length field is read only if it has 23 bytes, and what is read then |
| `Lpdu.ControlRoundTrip` | src/libserver/lpdu.cpp:60-140 | what is not a data frame goes out again as it came |
| `Lpdu.ControlMask` | src/libserver/lpdu.cpp:208-235 | the model's arithmetic on the control byte is the mask of the code |
| `Lpdu.ControlBits` | src/libserver/lpdu.cpp:208-235 | the same for its flags |
| `Lpdu.PriorityMask` | src/libserver/lpdu.cpp:208-235 | the same for the priority |
| `Lpdu.HopsMasks` | src/libserver/lpdu.cpp:236-254 | the same for address type, hop count and length |
| `Lpdu.RoundTrip` | src/libserver/lpdu.cpp:208-338 | decoding an encoded frame restores it with NORMAL and URGENT exchanged |
| `Lpdu.TwoTrips` | src/libserver/lpdu.cpp:208-338 | two trips are the identity |
| `Lpdu.DecodeIsFaithful` | src/libserver/lpdu.cpp:208-279 | encoding what was decoded gives the packet back if and only if its sender chose the format the encoder chooses |
| `Emi.CemiRoundTrip` | src/libserver/emi.cpp:22-117 | a frame of 1 to 254 bytes survives cEMI, its repeat flag in indications only |
| `Emi.CemiTwoTrips` | src/libserver/emi.cpp:22-117 | two indication trips are the identity |
| `Emi.AdditionalInfoIsSkipped` | src/libserver/emi.cpp:66-117 | additional information does not change what is decoded |
| `Emi.CemiHead` | src/libserver/emi.cpp:22-64 | message code, no additional information, and the mark of a standard frame |
| `Emi.EmiFields` | src/libserver/emi.cpp:190-225 | what is read from any message, also one shorter than announced |
| `Emi.EmiRoundTrip` | src/libserver/emi.cpp:157-225 | the message code is in front; destination, type and hop count survive EMI1/2; the payload if and only if it has at most 16 bytes |
| `Image.ParseImage` | src/common/image.cpp:879-926 | header checks and the loop over the streams, each of at least four bytes; that every kind is recognised is `ImageWrite.ReadUndoesWrite` |
| `Image.ReadList` | src/common/image.cpp:394-430 | the scans of a list parameter |
| `Image.WriteList` | src/common/image.cpp:432-456 | the list written string by string with 16-bit length and position |
| `Image.FindZero` | src/common/image.cpp:255-260 | the scan for the end of a string |
| `Image.ImageIsLossless` | src/common/image.cpp:879-926 | the streams of an accepted image written one after the other are the image after its header, if and only if none is a list of 65537 bytes that ends in an empty string |
| `Image.StreamIsRebuilt` | src/common/image.cpp:48-100 | the same for one stream of any type, invalid and unknown included |
| `Image.ListRebuilt` | src/common/image.cpp:394-456 | exactly what is written for a list that was read, with and without the wrapped position |
| `Image.LongestImageIsDamaged` | src/common/image.cpp:450-454 | an array that `Image::fromArray` accepts and whose streams are not written back as they were |
| `ImageWrite.ReadUndoesWrite` | src/common/image.cpp:48-817 | for every stream value of every kind: what is written for it is a stream and reads back as it was, if and only if its fields fit |
| `ImageWrite.HeadBytes` | src/common/loadctl.h:32-48 | the first four bytes of what is written: length and the number of the kind |
| `ImageWrite.StreamsReadBack` | src/common/image.cpp:879-926 | streams that fit are read back behind any header, unless the last has four bytes |
| `ImageWrite.ImageReadsBackIff` | src/common/image.cpp:840-858 | what `Image::toArray` writes is read back exactly if its header length happens to be right |
| `ImageWrite.ToArray` | src/common/image.cpp:840-858 | the loop that puts each stream at the end |

## Left out

- Sockets, serial lines, USB, name resolution, systemd: foreign calls; their answers are parameters.
- `eibnet6server.cpp`, `eibnetip6.cpp`: the IPv4 server again with other addresses.
- Connection requests, heartbeats and configuration connections of the tunnel server and client: not part of the stop-and-wait exchange.
- Busmonitor connections and payloads, and the monitor mode of the bus chip.
- `layer7.cpp`, `management.cpp`, `managementclient.cpp`: commands the program does not support any more. `apdu.cpp`: application-layer codecs, used by those commands and for trace output only.
- The power-up sequence of the bus chip and its timers: only the online states are modelled. The byte `RecvLPDU` is given for an acknowledge byte is left open.
- How soon FT1.2 finds the next frame after damaged bytes: `Ft12.NothingIsInvented` says that nothing is made up, not that nothing is lost.
- When the bus chip's transmissions are repeated: what is sent is modelled, not when. FT1.2 never repeats by timeout: `sendtimer` is set up and stopped but never started.
- Timing values, fairness and the pace filter. That frames get through is stated for runs without loss in which every driver answers.
- Global filters between router and links; the router's flow control is modelled without them.
- The order in which `std::map` visits links: every order is allowed.
- Links registered or removed from inside the loop of `send_L_Data`.
- 16-bit `LastUpdates`, and repeated reports of one `GCTracker`.
- Update numbers beyond 2^32 in the group cache, and retry counts beyond the range of `int`.
- `decode` functions, INI parsing, tracing, example programs, client headers.
- Tpuart.SegmentationInvertsConcatenation: the one-second timeout within a frame does not fire.
- TunnelSession.SessionIsSafe: the session ends when the client restarts or gives up; what a next one on the same channel receives of it is `TunnelReconnect.ReconnectIffHarmless`.
- TunnelReconnect.ReconnectIffHarmless: how long old datagrams live is counted in acknowledged frames of the new session, one bound for both directions, since the model has no clock; old requests are ones that carry at least two bytes and, towards the server, a frame that fits its confirmation; old acknowledgements are positive; a session that the client ends by a restart counts as safe.
