# Weave over BLE: a verified model of the BLE transport protocol

The repository carries Weave messages over Bluetooth LE with a small connection-oriented protocol. A message is cut
into fragments in its own buffer and reassembled on the other side; fragments carry 8-bit sequence numbers that wrap;
acknowledgements ride on fragments or go out alone; each side counts two receive windows; one GATT operation may be in
flight at a time; a capabilities handshake opens the connection, and a close lingers until what is in the fragmenter
has been acknowledged. This project models that protocol in Dafny and proves what it guarantees, for one end point
against any peer, and for two end points over every run. A second, smaller part models the queue and the workers of
asynchronous name resolution.

`dafny verify dfyconfig.toml` checks everything.

## How it is built

- `Common`, `Fragments`, `Windows`, `Numbering`, `Reassembly`, `Refusals`: fragments on the wire, the cut of a message,
  and `Assemble`, the reference meaning of a sequence of fragments. Sequence numbers are unbounded; `TxRep` and `RxRep` say
  what the 8-bit fields stand for. Sender and receiver are each related to `Assemble`, never directly to one another.
- `BtpEngine` gives the engine as functions on values; class `WoBleEngine.WoBle` works in place on a packet buffer and
  is proved to compute them.
- `EndPointModel` and `Lifecycle` give every handler of an end point as a function that follows the source's branches.
  Timers are flags, a timeout is an event, and an `Env` supplies the outcome of every platform call. A `Script` lets the
  application close the end point again from inside its close callback, to any depth. Class `BleEndPoint.BLEEndPoint` is
  the end point as an object, and each of its handlers is proved to compute these functions. `hist` records what has
  happened, `told` what the application was told, and `cause` why the end point was closed; no handler reads them.
- `EndPointInvariant`, `EndPointEvents`, `EndPointEdges`, `EndPointRuns`: what every event keeps, what a closed end
  point still does, and every run of one end point from its creation, with arbitrary bytes from the peer and arbitrary
  platform failures. On such runs, `Acceptance` says what is accepted to be sent, `Endings` what ends a connection, who
  is told and what is given back, and `NeverStuck` that an open end point never waits for nothing.
- `Handshake`, `PairStart`, `FragmentSizes`: the version list, the two handshake messages, that the handshake ends where
  runs of a connected pair start, and that every fragment of such a run fits the MTU.
- `PairInvariant`, `PairRuns`, `PairTheorems`, `PairDelivery`, `AckDuty`, `PairProgress`: two end points joined by two reliable in-order
  channels. `log` is everything a side put on the air; a step is an event at one side or the delivery of the next
  fragment. The theorems hold in every state that any run reaches: `Reached` is about runs from the end of any
  handshake, whatever the windows and buffer sizes, and `Reachable` about those that agreed on one window of at least 3
  with room for the slack of the offset, and on one buffer size.
- `NeverIdle`, `OrdinaryRuns`, `Effects`, `Eventually`: sending never stops while it could go on, and with a measure
  that each delivery, confirmation and timeout brings down, everything that was accepted arrives.
- `AsWritten`, `PairAsWritten`: the window arithmetic adds 255 where 256 is the number of sequence numbers
  (src/ble/BLEEndPoint.cpp:1293). The offset is a parameter; with 255 a window can stand one too high while a multiple
  of 256 is outstanding, and these modules prove that the two sides still never wedge.
- `Shortfalls`, `ShortfallRuns`: where the code does less than it sets out to do, with exact conditions and, for each, a
  run of normal use that gets there.
- `DnsQueue`, `AsyncDns`, `AsyncDnsProgress`: the linked queue of resolver objects, any number of workers interleaved
  with the application's thread, and that every request comes to its end. `AsyncDns.Abstracts` says that the queue of the second is the linked queue of the first.

Four marks in `hist` name what the theorems exclude. An end point is *stale* for good once it has sent an ack with
nothing to acknowledge. It is *lapsed* from the moment a send-ack timeout is ignored, because a stand-alone ack was in
flight, until an acknowledgement is next scheduled; and it has *strayed* for good once it sent a fragment
without an ack while lapsed. It has *faulted* once a handler ran on into the end point after its release, where the
source follows a null pointer; nothing is modelled after that. `Shortfalls.StaleIff`, `Shortfalls.TimeoutForgetsIff` and
`Shortfalls.RunsOnIff` say exactly when a stale ack goes out, when a timeout is forgotten, and when a handler runs on.

## Model

| member | source | states |
|---|---|---|
| `PairTheorems.Delivery` | src/ble/BLEEndPoint.cpp:1303-1509 | End-to-end delivery: in every state that any run reaches from the end of a handshake, under any interleaving, closes, platform failures and wraps, what one side has reassembled is byte for byte a prefix of what the other accepted in Send, and what was handed up is a prefix of that, all of it while the application listens. Of the handshake it assumes only that each side sends fragments no larger than the other takes in; it assumes nothing of windows, buffer sizes or acks. |
| `PairDelivery.SentIsDelivered` | src/ble/BLEEndPoint.cpp:666-710 | The same in terms of what was sent: over every run from the end of a handshake, what a side has reassembled or handed up is a prefix of the messages the other side's application gave to Send in that run while the connection was open and that fit a buffer. |
| `PairTheorems.NeverRejected` | src/ble/WoBle.cpp:265-418 | Two correct peers never reject each other: every fragment on its way from a side that is not stale passes the sequence, ack, flag and length checks of its open peer. |
| `PairTheorems.AcksStrictlyIncrease` | src/ble/WoBle.cpp:156-164 | The acks a side has sent, read as unbounded numbers, strictly increase and never name more than it has received, through any number of wraps. |
| `PairTheorems.AckNamesNewest` | src/ble/WoBle.cpp:156-164 | An ack sent with something to acknowledge names the last fragment received in order. |
| `PairTheorems.LingerDelivers` | src/ble/BLEEndPoint.cpp:344-366 | A side that entered Closing and finalized without abort sent everything it accepted and saw it acknowledged; if its peer is not stale, the peer has reassembled exactly all of it. |
| `PairTheorems.WindowsBalance` | src/ble/BLEEndPoint.cpp:601-633 | Remote window plus outstanding fragments is the maximum, or one more with the offset as written; unacknowledged fragments never exceed what the peer has outstanding; local window plus unacknowledged fragments is the maximum if and only if these do not exceed it, so with exact windows it never underflows. |
| `PairTheorems.NoWedge` | src/ble/BleConfig.h:140-147 | With exact windows of at least 3 and no stale side, no reachable state with empty channels has both remote windows closed; if either side lacks window, some side has both something to acknowledge and a window. |
| `PairProgress.Progress` | src/ble/BLEEndPoint.cpp:1011-1038 | In such a blocked state, with nothing in flight and neither side lapsed at that moment, at one side the send-ack timeout sends a fragment that acknowledges everything received. |
| `PairProgress.ReachablePromise` | src/ble/BLEEndPoint.cpp:1446-1463 | In every reachable state, whatever an open side has received will be acknowledged: the timer runs or a stand-alone ack waits, unless a side is stale or that side is lapsed at that moment. |
| `PairProgress.NeverLost` | src/ble/BLEEndPoint.cpp:666-710 | After any run in which no stand-alone ack waited with the timer flag set behind it, no send, confirmation, timeout of the send-ack timer, delivery or lingering close on a platform without failures closes either side, except to finish a lingering close. |
| `PairProgress.UnarmedRunsStayFresh` | src/ble/BLEEndPoint.cpp:960-1003 | Such runs never make a side stale, and never leave the timer flag set with nothing to acknowledge. |
| `NeverIdle.SendingNeverIdles` | src/ble/BLEEndPoint.cpp:1005-1038 | Work conservation: in every state that any run reaches, an open side with message data to send and no operation in flight has at most one slot of its remote window left. |
| `Eventually.EverythingArrives` | src/ble/BLEEndPoint.cpp:1005-1099 | Eventual delivery: with exact windows, from every reachable state in which both sides are connected and neither is stale or lapsed, has its timer flag set with nothing to acknowledge, or has a stand-alone ack left waiting by a timeout, some run of ordinary steps without further sends ends with all that either side ever accepted reassembled by the other. |
| `PairAsWritten.NoWedgeAsWritten` | src/ble/BLEEndPoint.cpp:1277-1301 | The same absence of a mutual wedge for the code as written, with the offset of 255, for windows of 3 to 254 and sides that are not stale and never strayed. |
| `PairAsWritten.ProgressAsWritten` | src/ble/BLEEndPoint.cpp:1277-1301 | The same progress for the code as written, with neither side lapsed at that moment. |
| `AsWritten.EventPaced` | src/ble/BLEEndPoint.cpp:712-731 | The invariant behind it: a side can use the extra slot only in a stretch of outstanding fragments that already carries an ack, and the last slot only if it carries two; every event of a side that never strayed keeps this. |
| `AsWritten.PacketPaced` | src/ble/BLEEndPoint.cpp:1303-1509 | Every received packet keeps it, again unless the side has strayed. |
| `PairRuns.StepKeeps` | src/ble/BLEEndPoint.cpp:1303-1509 | Every step of a pair keeps the joint invariant, windows included. |
| `PairRuns.StepLinks` | src/ble/BLEEndPoint.cpp:1303-1509 | Every step keeps the part of it that rests on no window: numbers, logs, reassembly and acceptance. |
| `PairInvariant.DeliverJoint` | src/ble/BLEEndPoint.cpp:1303-1509 | Delivering the next fragment keeps it, whether the fragment is accepted or refused. |
| `PairInvariant.DeliverLinked` | src/ble/BLEEndPoint.cpp:1303-1509 | The same for the part that rests on no window. |
| `PairStart.HandshakeStarts` | src/ble/BLEEndPoint.cpp:98-161 | For two new end points, a request with a common version, any valid MTUs and any windows but zero, the real handlers run in order, on the messages the end points have parked, lead to the end of a handshake, where delivery holds and the fragment sizes fill the ATT payload; and to a start of the window theorems if and only if both sides have one offset and one buffer size and the agreed window is at least 3 and leaves room for the slack. |
| `FragmentSizes.FragmentsFit` | src/ble/BLEEndPoint.cpp:1116-1130 | Over every run from there, every fragment either side puts on the air fits, with the 3 bytes of the ATT header, the MTU that counts: the central's view, else the peripheral's; without either it has at most 20 bytes. |
| `Handshake.Agreement` | src/ble/BLEEndPoint.cpp:1101-1275 | After both messages cross the wire, for any windows: either a supported version is listed and both sides settle on the best one, the smaller window and matching fragment sizes, or none is and both give up. The size is the ATT payload of the central's MTU, else of the peripheral's, up to the maximum, else 20; from version 3 on the peripheral sends 20. The counters agree with what is on the air if and only if the agreed window is not zero. |
| `Handshake.SetSupportedProtocolVersion` | src/ble/BleLayer.cpp:218-237 | A write changes exactly its own 4-bit entry of the array. |
| `Handshake.GetHighestSupportedProtocolVersion` | src/ble/BleLayer.cpp:740-766 | The chosen version is the largest supported one before the first zero entry, or none. |
| `Handshake.RequestCodec` | src/ble/BleLayer.cpp:264-287 | A buffer decodes to a request if and only if it begins with the encoding of that request. |
| `Handshake.ResponseCodec` | src/ble/BleLayer.cpp:310-329 | The same for responses. |
| `Handshake.EncodeRequest` | src/ble/BleLayer.cpp:239-262 | The encoding goes to the front of the buffer and the rest is untouched; it fails only for lack of room, changing nothing. |
| `Handshake.DecodeRequest` | src/ble/BleLayer.cpp:264-287 | The decoder that walks the buffer computes the decoding, or the error for a short or foreign message. |
| `EndPointRuns.RunSteps` | src/ble/BLEEndPoint.cpp:299-514 | Over every run of one end point: the state never moves back, once callbacks are cleared none fires and no message is delivered, and after Closed nothing is sent, accepted or delivered, also where the handler of a packet runs on past a close. |
| `EndPointRuns.AtMostOnce` | src/ble/BLEEndPoint.cpp:437-514 | The application is told at most once that the connection is open and at most once, after that, that it is over; the BLE connection is handed back at most once and the allocation reference released at most once, including closes from inside the callback; a closed end point is released or waits only for its unsubscribe. |
| `EndPointRuns.SingleOperation` | src/ble/BLEEndPoint.cpp:940-958 | Until it is closed, GATT operations started minus confirmed is 0 or 1 and agrees with the in-flight flag. |
| `EndPointRuns.InFlightUntouched` | src/ble/BLEEndPoint.cpp:1005-1038 | While an operation is in flight, no event but its confirmation sends anything, moves the fragmenter, or releases the buffer of a stand-alone ack in flight. |
| `EndPointRuns.WindowSums` | src/ble/BLEEndPoint.cpp:1277-1301 | Against any peer and for every window: remote window plus outstanding is the maximum, or one more only with the offset as written and while a multiple of 256 is outstanding; the local window is the maximum less what is unacknowledged, modulo 256. |
| `EndPointRuns.NumbersHold` | src/ble/WoBle.cpp:136-154 | In every reachable open state the 8-bit fields represent the unbounded intervals of outstanding and unacknowledged fragments. |
| `EndPointRuns.ParkedPayload` | src/ble/BLEEndPoint.cpp:820-832 | The parked handshake payload is never fragmented, and every accepted message is, in order, in the log, in the fragmenter, or queued behind it. |
| `EndPointRuns.GracefulCloseIsComplete` | src/ble/BLEEndPoint.cpp:1067-1095 | A close that lingered and finished without abort sent all that was accepted, and all of it was acknowledged. |
| `Acceptance.EventAccepts` | src/ble/BLEEndPoint.cpp:666-710 | Send accepts a message if and only if the connection is open and the message fits a buffer, whatever the end point is doing; no other event accepts anything. |
| `Acceptance.AcceptedIsSent` | src/ble/BLEEndPoint.cpp:640-663 | Over every run, what was accepted is exactly the messages sent while the connection was open that fit, in order. |
| `Acceptance.RefusedSendEnds` | src/ble/BLEEndPoint.cpp:676-709 | A message that is refused, as too big or for want of a connection, ends the end point with that error and changes nothing else on record. |
| `Endings.LossIsTold` | src/ble/BLEEndPoint.cpp:437-457 | Over every event of an established connection but a close by the application and a second subscription: the connection is as it was, or it is over, and the application, if its callback is set, was told so exactly once, with the error it ended with. |
| `Endings.ConnectIsTold` | src/ble/BLEEndPoint.cpp:163-185 | Over every event of a central that is connecting with its callback set, likewise: it goes on, is connected and the application told so, or is closed and the application told the error, once. |
| `Endings.StoryIsOrderly` | src/ble/BLEEndPoint.cpp:163-210 | In every reachable state: nothing is told before the handshake is over; while connected, just that the connection is open; after the notice of its end no callback is left. |
| `Endings.CloseIsSilent` | src/ble/BLEEndPoint.cpp:299-323 | Close and Abort tell the application nothing and leave no callback set. |
| `Endings.TimersOff` | src/ble/BLEEndPoint.cpp:163-210 | From the moment the connection is open both handshake timers are off, so their timeouts do nothing. |
| `Endings.HandshakeExpires` | src/ble/BLEEndPoint.cpp:1663-1687 | Before that the timer for the role runs: its timeout ends the handshake, the central's application is told and the peripheral's is not. |
| `Endings.AckWaitExpires` | src/ble/BLEEndPoint.cpp:1689-1701 | The ack-received timeout ends an open connection, with that error and notice, if and only if a fragment or the handshake indication is outstanding. |
| `Endings.MisplacedEnds` | src/ble/BLEEndPoint.cpp:212-220 | An event the handshake or connection has no place for ends it as an incorrect state. |
| `Endings.ReportIsTold` | src/ble/BleLayer.cpp:720-738 | An error the platform reports ends the connection with that error. |
| `Endings.AbortUnsubscribesIff` | src/ble/BLEEndPoint.cpp:388-434 | An aborted open end point waits for an unsubscribe if and only if it is a central, the BLE connection is still there, and the platform took the unsubscribe, left it pending and started the timer; otherwise it is released at once, and the connection handed back unless it is gone. |
| `Endings.FinishUnsubscribesIff` | src/ble/BLEEndPoint.cpp:388-434 | The same when a lingering close has finished. |
| `Endings.UnsubscribeReleases` | src/ble/BLEEndPoint.cpp:283-287 | The end of the unsubscribe releases the end point and hands the connection back. |
| `Endings.HandsBackIff` | src/ble/BLEEndPoint.cpp:459-477 | The BLE connection is handed back with the release, if and only if the close was not caused by its loss; never before, never twice. |
| `Endings.ReleasedIsBare` | src/ble/BLEEndPoint.cpp:479-514 | A released end point holds no connection, reference, timer, callback or queued message. |
| `NeverStuck.AcksNeverIdle` | src/ble/BLEEndPoint.cpp:885-938 | In every reachable open state, an end point that owes an ack while its own window is nearly used up, with a free air, has at most one slot of its peer's window left; a central that has sent nothing yet is the exception. |
| `ShortfallRuns.UrgentAckRun` | src/ble/BLEEndPoint.cpp:270-281 | That exception happens: the end of the subscription sends no immediate ack, and with a window of 3 four ordinary steps leave the ack to the timer with a free air and an open window. |
| `NeverStuck.LingerNeverHangs` | src/ble/BLEEndPoint.cpp:344-366 | In every reachable state, with a window of at least 2, a lingering close has a message to send or in progress, an operation to be confirmed, or an ack to wait for; once it has none of these it is finished. |
| `Lifecycle.DoCloseSound` | src/ble/BLEEndPoint.cpp:325-368 | Any close of a sound end point, with any behaviour of the callback, leaves it sound and never moves its state back; an abort closes. |
| `Lifecycle.ClosingKeeps` | src/ble/BLEEndPoint.cpp:437-457 | Closes from inside the callback of a lingering close, to any depth, fire no second callback and release at most once. |
| `Lifecycle.ClosedIsFinal` | src/ble/BLEEndPoint.cpp:325-332 | Once Closed, nothing done in a callback changes more than which callbacks are set. |
| `Lifecycle.CloseUnfold` | src/ble/BLEEndPoint.cpp:344-366 | A graceful close of an open end point lingers exactly while the fragmenter holds a message. |
| `Lifecycle.CloseTells` | src/ble/BLEEndPoint.cpp:437-457 | A close tells the application exactly once, if it asked: of a failed connect while connecting, else of the end, with the error it closes with; nothing if suppressed or already closing. |
| `Lifecycle.WaitsIff` | src/ble/BLEEndPoint.cpp:388-434 | A finalized close waits for its unsubscribe if and only if it is a central that began to subscribe, the connection is not gone, and the platform took the unsubscribe, left it pending and started its timer; else it is released. |
| `Lifecycle.CallSilences` | src/ble/BLEEndPoint.cpp:299-323 | Close and Abort clear every callback and fire none. |
| `Windows.AdjustIsWithinOne` | src/ble/BLEEndPoint.cpp:1277-1301 | The computed window plus the outstanding count is the maximum, plus one with the offset as written exactly when a multiple of 256 is outstanding. |
| `Windows.AsWrittenIsExactIff` | src/ble/BLEEndPoint.cpp:1286-1299 | The code as written counts exactly if and only if the newest number has not wrapped past the ack. |
| `Numbering.ValidAckIff` | src/ble/WoBle.cpp:171-192 | The wrapping test accepts exactly the residues of the outstanding fragments, for intervals of up to 256. |
| `Numbering.AcceptAckRep` | src/ble/WoBle.cpp:194-219 | After an accepted ack exactly the newer fragments are outstanding, and an ack is expected if and only if there are any. |
| `Numbering.TakeSeqNumRep` | src/ble/WoBle.cpp:136-154 | Taking a number adds one outstanding fragment. |
| `Numbering.RecordAckRep` | src/ble/WoBle.cpp:156-164 | Encoding an ack names the newest fragment received and leaves nothing to acknowledge. |
| `Numbering.HasUnackedDataIff` | src/ble/WoBle.cpp:166-169 | The 8-bit test for unacknowledged data is right if and only if the count is zero or not a multiple of 256. |
| `Reassembly.RoundTrip` | src/ble/WoBle.cpp:322-384 | For every message, fragment size and choice of piggybacked acks that the reassembler can accept when each arrives, the fragments fed in order to an idle reassembler of at least that size give InProgress on all but the last, then Complete with exactly the message. |
| `Reassembly.ReceiveAssembles` | src/ble/WoBle.cpp:285-384 | A fragment that continues the log and fits the buffer is accepted if and only if its number is the expected one and its ack is valid; whenever one is accepted, the reassembler holds what the longer log means. |
| `Refusals.RefusedIff` | src/ble/WoBle.cpp:265-418 | For arbitrary bytes behind a complete header, which error a packet gets: each of the seven if and only if it is the first reason that applies, and none if and only if no reason does. |
| `Refusals.CompleteIsWhole` | src/ble/WoBle.cpp:354-384 | Whatever a peer sends, a message is complete exactly when an accepted packet ends it, and is then what was gathered, cut to exactly the announced length. |
| `Fragments.CutCount` | src/ble/WoBle.cpp:505-517 | Without acks a message takes 1 fragment, or 1 plus the ceiling of the rest over size minus 2; acks only add fragments, up to the count with one on each. |
| `Fragments.RestSizes` | src/ble/WoBle.cpp:555-567 | Every fragment but the last fills the fragment size exactly, and only the last is marked as the end. |
| `AckDuty.SendsFreshIff` | src/ble/BLEEndPoint.cpp:982-1003 | Sending takes a fresh end point to one whose timer flag is set with nothing to acknowledge if and only if a stand-alone ack goes out while the flag is set behind it. |
| `AckDuty.PacketDuty` | src/ble/BLEEndPoint.cpp:1446-1463 | After any accepted packet everything received will be acknowledged. |
| `Shortfalls.DriveFailsIff` | src/ble/WoBle.cpp:446-450 | On a platform without failures the send path fails if and only if message data is due to carry an ack with nothing to acknowledge. |
| `Shortfalls.ArmedIsDoomed` | src/ble/BLEEndPoint.cpp:1453-1461 | An end point with data to send whose flag was set again behind a waiting ack is closed by its next two confirmations. |
| `ShortfallRuns.StaleFlagRun` | src/ble/BLEEndPoint.cpp:1453-1461 | From every handshake that ends with the subscription in flight, seven ordinary steps reach that abort. |
| `Shortfalls.StaleIff` | src/ble/BLEEndPoint.cpp:982-1003 | A fragment sent acknowledges with nothing to acknowledge if and only if it is a stand-alone ack for which nothing waits; an ack on data never does. |
| `ShortfallRuns.StaleAckRun` | src/ble/BLEEndPoint.cpp:1703-1723 | From every handshake that ends with the subscription in flight, nine ordinary steps send such an ack, and the peer refuses it and closes. |
| `Shortfalls.CloseDropsIff` | src/ble/BLEEndPoint.cpp:344-348 | Close drops accepted messages that never went out if and only if the fragmenter is idle and some are queued. |
| `ShortfallRuns.CloseDropsRun` | src/ble/BLEEndPoint.cpp:344-348 | From every handshake, a send and a close at the peripheral lose the message. |
| `Shortfalls.TimeoutForgetsIff` | src/ble/BLEEndPoint.cpp:1703-1723 | The send-ack timeout leaves received fragments with no acknowledgement scheduled if and only if a stand-alone ack is in flight. |
| `ShortfallRuns.LapseRun` | src/ble/BLEEndPoint.cpp:1703-1723 | From every handshake whose subscription is in place, six ordinary steps leave the central open with a received fragment that nothing is scheduled to acknowledge. |
| `Shortfalls.ClosesUnderwayIff` | src/ble/BLEEndPoint.cpp:1423-1463 | Among the acks after which the handler goes on, sending finalizes the close if and only if the end point is lingering with a complete message in the fragmenter, nothing queued or waiting, no ack expected and the air free. |
| `Shortfalls.RunsOnIff` | src/ble/BLEEndPoint.cpp:1423-1463 | On a platform without failures, the handler of an accepted packet that leaves something to acknowledge uses a released end point, or sets the timer of a closed one, if and only if its ack closes the end point in that way. |
| `Shortfalls.RunsOnInto` | src/ble/BLEEndPoint.cpp:1446-1463 | What it then does: a released end point is used again, and one that waits for its unsubscribe has its send-ack timer running while it is Closed. |
| `ShortfallRuns.FaultRun` | src/ble/BLEEndPoint.cpp:1423-1463 | With a window of 3, from every handshake whose subscription is in place, six ordinary steps (a message of one fragment, a close behind it, and its ack) end in that use after release. |
| `WoBleEngine.WoBle.constructor` | src/ble/WoBle.cpp:98-134 | Initial numbers: the side that expects the first ack has sent number 0, the other has received it. |
| `WoBleEngine.WoBle.GetAndIncrementNextTxSeqNum` | src/ble/WoBle.cpp:136-154 | Returns the next number and computes `TakeSeqNum`. |
| `WoBleEngine.WoBle.GetAndRecordRxAckSeqNum` | src/ble/WoBle.cpp:156-164 | Returns the newest unacknowledged number and computes `RecordAck`. |
| `WoBleEngine.WoBle.HandleAckReceived` | src/ble/WoBle.cpp:194-219 | Accepts exactly valid acks, computes `AcceptAck`, and changes nothing on an invalid one. |
| `WoBleEngine.WoBle.EncodeStandAloneAck` | src/ble/WoBle.cpp:223-250 | Fills the buffer with the wire form of a stand-alone ack, or fails for lack of room changing nothing. |
| `WoBleEngine.WoBle.SendFirst` | src/ble/WoBle.cpp:452-523 | The header goes in front of the message in its own buffer, and the buffer window is then exactly the first fragment on the wire. |
| `WoBleEngine.WoBle.SendNext` | src/ble/WoBle.cpp:525-570 | In-place safety: the window is the next fragment on the wire, and every byte changed lies in the fragment emitted before it. |
| `WoBleEngine.WoBle.HandleCharacteristicSend` | src/ble/WoBle.cpp:441-579 | Success, new state and emitted bytes as in `SendFragment`, in every state and for every argument. |
| `WoBleEngine.WoBle.HandleCharacteristicReceived` | src/ble/WoBle.cpp:265-418 | Error, ack and new state as in `Receive`, for arbitrary bytes behind a complete header. |
| `WoBleEngine.WoBle.ClearTxPacket` | src/ble/WoBle.cpp:586-597 | Clears a complete message and nothing else. |
| `WoBleEngine.WoBle.ClearRxPacket` | src/ble/WoBle.cpp:425-436 | Clears a complete message and nothing else. |
| `WoBleEngine.PacketBuffer.EnsureReservedSize` | src/system/SystemPacketBuffer.cpp:362-376 | Makes the room if the storage has it, keeps the payload byte for byte, and otherwise changes nothing. |
| `BleEndPoint.BLEEndPoint.constructor` | src/ble/BLEEndPoint.cpp:531-599 | A new end point is `New`. |
| `BleEndPoint.BLEEndPoint.Send` | src/ble/BLEEndPoint.cpp:666-710 | The whole new state is that of `EndPointModel.Send`: queue and drive, or abort on a wrong state or an oversized message. |
| `BleEndPoint.BLEEndPoint.QueueTx` | src/ble/BLEEndPoint.cpp:640-663 | Appends at the end of the queue. |
| `BleEndPoint.BLEEndPoint.SendCharacteristic` | src/ble/BLEEndPoint.cpp:601-633 | Marks the operation in flight and, if it succeeded, takes one slot of the remote window. |
| `BleEndPoint.BLEEndPoint.PrepareNextFragment` | src/ble/BLEEndPoint.cpp:712-731 | The next fragment carries an ack exactly when the timer flag is set, and the local window then reopens. |
| `BleEndPoint.BLEEndPoint.SendNextMessage` | src/ble/BLEEndPoint.cpp:733-786 | Takes the head of the queue to the fragmenter and sends its first fragment, as `EndPointModel.SendNextMessage`. |
| `BleEndPoint.BLEEndPoint.ContinueMessageSend` | src/ble/BLEEndPoint.cpp:788-818 | Sends the next fragment of the message in progress, as `SendPiece`. |
| `BleEndPoint.BLEEndPoint.DoSendStandAloneAck` | src/ble/BLEEndPoint.cpp:982-1003 | As `EndPointModel.DoSendStandAloneAck`; the timer flag is left as it was. |
| `BleEndPoint.BLEEndPoint.DriveStandAloneAck` | src/ble/BLEEndPoint.cpp:960-980 | As `EndPointModel.DriveStandAloneAck`, including the lack of a buffer. |
| `BleEndPoint.BLEEndPoint.DriveSending` | src/ble/BLEEndPoint.cpp:1005-1099 | As `EndPointModel.DriveSending`: blocked, stand-alone ack, next message, next fragment, or the end of a lingering close. |
| `BleEndPoint.BLEEndPoint.DoClose` | src/ble/BLEEndPoint.cpp:325-368 | The new state settles into the life that `Lifecycle.DoClose` computes, also when the callback closes again. |
| `BleEndPoint.BLEEndPoint.FinalizeClose` | src/ble/BLEEndPoint.cpp:370-435 | As `Lifecycle.FinalizeClose`, with the queue emptied and the ack timers stopped. |
| `BleEndPoint.BLEEndPoint.DoCloseCallback` | src/ble/BLEEndPoint.cpp:437-457 | As `Lifecycle.CloseCallback`, whatever the application does in it. |
| `BleEndPoint.BLEEndPoint.Free` | src/ble/BLEEndPoint.cpp:479-514 | Hands the connection back if it still has it, clears engine, timers and callbacks, and drops one reference. |
| `BleEndPoint.BLEEndPoint.Close` | src/ble/BLEEndPoint.cpp:312-323 | Clears the callbacks and closes gracefully. |
| `BleEndPoint.BLEEndPoint.Abort` | src/ble/BLEEndPoint.cpp:299-310 | Clears the callbacks and aborts. |
| `BleEndPoint.BLEEndPoint.HandleGattSendConfirmationReceived` | src/ble/BLEEndPoint.cpp:940-958 | As `Confirmed`: the first confirmation is that of the handshake message. |
| `BleEndPoint.BLEEndPoint.HandleHandshakeConfirmationReceived` | src/ble/BLEEndPoint.cpp:820-883 | As `HandshakeConfirmed`: the parked payload leaves the queue, and what is behind it stays. |
| `BleEndPoint.BLEEndPoint.HandleFragmentConfirmationReceived` | src/ble/BLEEndPoint.cpp:885-938 | As `FragmentConfirmed`. |
| `BleEndPoint.BLEEndPoint.HandleSubscribeComplete` | src/ble/BLEEndPoint.cpp:270-281 | As `SubscribeComplete`. |
| `BleEndPoint.BLEEndPoint.HandleUnsubscribeComplete` | src/ble/BLEEndPoint.cpp:283-287 | Frees an end point that waits for its unsubscribe. |
| `BleEndPoint.BLEEndPoint.HandleSendAckTimeout` | src/ble/BLEEndPoint.cpp:1703-1723 | As `SendAckTimeout`. |
| `BleEndPoint.BLEEndPoint.HandleAckReceivedTimeout` | src/ble/BLEEndPoint.cpp:1689-1701 | As `AckReceivedTimeout`. |
| `BleEndPoint.BLEEndPoint.HandleHandshakeTimeout` | src/ble/BLEEndPoint.cpp:1663-1687 | As `HandshakeTimeout`, for either role. |
| `BleEndPoint.BLEEndPoint.Receive` | src/ble/BLEEndPoint.cpp:1365-1509 | As `ReceivePacket`: reassemble, respond to an ack, acknowledge, hand up, or abort, running on after a close where the source does. |
| `BleEndPoint.BLEEndPoint.StartConnect` | src/ble/BLEEndPoint.cpp:98-161 | As `EndPointModel.StartConnect`: the request is parked once it was written. |
| `BleEndPoint.BLEEndPoint.HandleCapabilitiesRequestReceived` | src/ble/BLEEndPoint.cpp:1101-1202 | As `CapsRequestReceived`, with every error path. |
| `BleEndPoint.BLEEndPoint.HandleSubscribeReceived` | src/ble/BLEEndPoint.cpp:212-268 | As `SubscribeReceived`, with every error path. |
| `BleEndPoint.BLEEndPoint.HandleCapabilitiesResponseReceived` | src/ble/BLEEndPoint.cpp:1204-1275 | As `CapsResponseReceived`, with every error path. |
| `AsyncDns.OnePlace` | src/inet/AsyncDNSResolverSockets.cpp:168-240 | With any number of workers a request is in exactly one place (queued, at one worker, posted, or lost because posting failed), a released object is in none, and every use is released at most once. |
| `AsyncDns.CancelSilences` | src/inet/DNSResolver.cpp:230-244 | Once Cancel has returned, in every continuation the callback of that request never runs and its address array is never written again. |
| `AsyncDns.Fifo` | src/inet/AsyncDNSResolverSockets.cpp:168-240 | Requests leave the queue in the order in which they were submitted, over every run. |
| `AsyncDns.SubmitResolver` | src/inet/AsyncDNSResolverSockets.cpp:135-194 | Preparing and linking in an object refines submission: the linked queue holds, in order, the objects the sequence of that model names. |
| `AsyncDns.TakeResolver` | src/inet/AsyncDNSResolverSockets.cpp:201-239 | Unlinking the head refines a worker taking the first queued request. |
| `AsyncDns.CallsAreTruthful` | src/inet/DNSResolver.cpp:325-334 | Each use runs at most one callback, and it is told the code and the first addresses of its own lookup. |
| `AsyncDns.CalledBackIff` | src/inet/DNSResolver.cpp:325-334 | Once a use is over its callback has run if and only if the application asked for it and did not cancel, told the code and the addresses of that use's own lookup. |
| `AsyncDnsProgress.EveryRequestEnds` | src/inet/AsyncDNSResolverSockets.cpp:354-378 | From every reachable state in which the workers run, whatever the lookups find, the threads can go on by themselves until no request is in use but those whose posting had failed, and every other wanted callback has run. |
| `AsyncDns.CancelSavesLookup` | src/inet/AsyncDNSResolverSockets.cpp:372-375 | A request canceled before its worker began to look it up is never looked up. |
| `AsyncDns.StepKeeps` | src/inet/AsyncDNSResolverSockets.cpp:354-378 | Every step of every thread keeps the invariant. |
| `DnsQueue.AsyncDNSResolver.EnqueueRequest` | src/inet/AsyncDNSResolverSockets.cpp:168-194 | The linked queue stays well formed and the request is its last. |
| `DnsQueue.AsyncDNSResolver.DequeueRequest` | src/inet/AsyncDNSResolverSockets.cpp:201-239 | The first request leaves and the rest keep their order; none leaves on shutdown or from an empty queue. |
| `DnsQueue.AsyncDNSResolver.PrepareDNSResolver` | src/inet/AsyncDNSResolverSockets.cpp:135-155 | The object is active, unlinked and has no addresses. |
| `DnsQueue.AsyncDNSResolver.UpdateDNSResult` | src/inet/AsyncDNSResolverSockets.cpp:259-267 | As many addresses as were found and fit are copied, in order, and the rest of the array is untouched. |

## Left out

- WoBleEngine.WoBle.HandleCharacteristicReceived: packets shorter than the header they announce; the source reads past them, and their bounds are not a protocol property.
- BleEndPoint.BLEEndPoint.Receive: where the source goes on with an end point it has released (src/ble/BLEEndPoint.cpp:1446-1461), the fault is recorded and nothing more is modelled of it.
- BleEndPoint.BLEEndPoint.HandleCapabilitiesRequestReceived: ATT MTUs from 1 to 22, which the Bluetooth specification rules out and the code does not check.
- BleEndPoint.BLEEndPoint.HandleCapabilitiesResponseReceived: fragment sizes from 1 to 19, which only such an MTU leads a peer to send.
- BleEndPoint.BLEEndPoint.DoSendStandAloneAck: the source ignores a failure to encode the ack; a fresh packet buffer has room for its three bytes.
- BleEndPoint.BLEEndPoint.FinalizeClose: after a failed start of the unsubscribe timer the source also sets the in-flight flag of the end point it has just released.
- PairTheorems.NeverRejected: says nothing of a stale side, whose bogus ack its peer may refuse; when a side becomes stale is stated exactly in `AckDuty`.
- Endings.LossIsTold: a second subscription of the peer closes an open peripheral without a notice, as in the source (src/ble/BLEEndPoint.cpp:264).
- NeverStuck.LingerNeverHangs: with a window of 1 an end point needs an ack to send before it may use its only slot.
- PairTheorems.NoWedge: is about the exact offset; the offset as written is the subject of `PairAsWritten.NoWedgeAsWritten`.
- PairAsWritten.NoWedgeAsWritten: excludes sides that have strayed, and a window of 255, for which max plus one outstanding fragments no longer fit the 8-bit tests.
- Eventually.EverythingArrives: is about exact windows, and leaves out states in which a timeout left a stand-alone ack waiting, where an ack can go out twice (`ShortfallRuns.StaleAckRun`).
- DnsQueue.AsyncDNSResolver.DequeueRequest: waiting on the condition variable is modelled as returning nothing.
- A peer that announces a window of zero: the peripheral's remote window would then wrap to 255 when its indication goes out (src/ble/BLEEndPoint.cpp:236).
- The MTU and the outcome of every platform call are inputs.
- Calls back into the end point from the notice that the connection is open and from the message-received callback are separate events that follow; only the callbacks of a close are re-entrant in the model.
- A platform that confirms an operation it was not given, a second subscription of a peer that was refused, and packets that arrive for a subscription that is being undone (the last are ignored, as in the source).
- Packet buffer chains, reference counts and pools: queued messages are values, a chain that does not fit one buffer is a message that is too big, and the headroom for lower layers is zero.
- The command messages, threads and files of the throughput test build, and the unit tests of the engine, which assume another default fragment size.
- Timer durations, logging, UUID checks, AutoClose, and the end point pool.
- The LwIP variants of everything.
- Synchronous name resolution, literal addresses, and what a lookup finds: a lookup returns an arbitrary result. The unsynchronised read of the request state by a worker is one atomic step.
- IPv6 prefix matching and prefix lengths (src/inet/IPPrefix.cpp, src/inet/InetInterface.cpp): bit arithmetic without state, which would only add easy members.
- The device manager and its bindings, which rest on layers above this protocol.
