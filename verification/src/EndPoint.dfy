/**
 A BLE end point as a value: one function per event handler of the source, each following its branches. Timers
 are flags, and a timeout is an event; an `Env` supplies the outcome of every platform call an event may make.
 */
module EndPointModel {
  import opened Common
  import opened Fragments
  import opened BtpEngine
  import opened Windows
  import opened Lifecycle
  import H = Handshake

  const IMMEDIATE_ACK_THRESHOLD := 1
  const NO_ACK_SEND_THRESHOLD := 1

  /** Windows, the GATT operation and acknowledgement timers. `ackPending` says a stand-alone ack buffer exists. */
  datatype Link = Link(
    max: uint8, local: uint8, remote: uint8,
    gattInFlight: bool, ackPending: bool, ackInFlight: bool, sendAckTimer: bool, ackReceivedTimer: bool)

  /**
   What has happened so far. `log` is every fragment put on the air after the handshake and `received` the number
   taken in. Fragments below `txA` have been acknowledged by the peer, and received ones below `rxA` acknowledged
   to it. `stale` records an ack sent with nothing to acknowledge. `lapsed` says that a send-ack timeout was
   ignored because a stand-alone ack was in flight and no ack has been scheduled since, and `strayed` that a
   fragment went out without the ack then owed. `faulted` records that a handler ran on into the end point after
   it had been released, where the source dereferences a null pointer.
   */
  datatype History = History(
    log: seq<Fragment>, received: nat, txA: nat, rxA: nat,
    accepted: seq<Message>, reassembled: seq<Bytes>, delivered: seq<Bytes>,
    sends: nat, confirms: nat, stale: bool, lapsed: bool, strayed: bool, faulted: bool)

  /** `capacity` is what one packet buffer holds; `window` the largest window this end point supports. */
  datatype Config = Config(offset: Offset, capacity: uint16, window: uint8)

  datatype EndPoint = EndPoint(
    config: Config, life: Life, engine: Engine, queue: seq<Message>, link: Link,
    capsReceived: bool, capsConfirmed: bool, hist: History)

  /** Outcomes of platform calls. */
  datatype Env = Env(
    sent: bool, ackTimer: bool, sendAckTimer: bool, buffer: bool, headroom: bool, subscribed: bool,
    handshakeTimer: bool, platform: Platform)

  datatype Outcome = Outcome(ep: EndPoint, err: Error)

  /** The peripheral's handshake indication is its fragment number 0. */
  function TxBase(central: bool): nat {
    if central then 0 else 1
  }

  /** The number of the next fragment to send, and of the next to receive. */
  function TxN(ep: EndPoint): nat {
    TxBase(ep.life.central) + |ep.hist.log|
  }

  function RxN(ep: EndPoint): nat {
    TxBase(!ep.life.central) + ep.hist.received
  }

  // ---------- closing ----------

  function Settle(ep: EndPoint, l: Life): EndPoint {
    if l.state == Closed && ep.life.state != Closed then
      ep.(life := l, queue := [],
          engine := if l.frees > 0 then ClearRx(ClearTx(ep.engine)) else ep.engine,
          link := ep.link.(sendAckTimer := false, ackReceivedTimer := false,
                           gattInFlight := ep.link.gattInFlight || l.unsubscribeTimer))
    else ep.(life := l)
  }

  function CloseWith(ep: EndPoint, flags: CloseFlags, err: Error, env: Env): EndPoint {
    Settle(ep, DoClose(ep.life, ep.engine.txState == Idle, flags, err, env.platform))
  }

  /** DoClose(kBleCloseFlag_AbortTransmission, err), as after every failed step. */
  function Fail(ep: EndPoint, err: Error, env: Env): EndPoint {
    CloseWith(ep, CloseFlags(false, true), err, env)
  }

  function Finalize(ep: EndPoint, env: Env): EndPoint {
    var was, idle := ep.life.state, ep.engine.txState == Idle;
    Settle(ep, FinalizeClose(ep.life, was, idle, CloseFlags(true, false), NoError, env.platform))
  }

  function Settled(o: Outcome, env: Env): EndPoint {
    if o.err == NoError then o.ep else Fail(o.ep, o.err, env)
  }

  // ---------- sending ----------

  function StartAckReceivedTimer(ep: EndPoint, env: Env): Outcome {
    if ep.link.ackReceivedTimer then Outcome(ep, NoError)
    else if env.ackTimer then Outcome(ep.(link := ep.link.(ackReceivedTimer := true)), NoError)
    else Outcome(ep, StartTimerFailed)
  }

  function StartSendAckTimer(ep: EndPoint, env: Env): Outcome {
    if ep.link.sendAckTimer then Outcome(ep, NoError)
    else if env.sendAckTimer
    then Outcome(ep.(link := ep.link.(sendAckTimer := true), hist := ep.hist.(lapsed := false)), NoError)
    else Outcome(ep, StartTimerFailed)
  }

  /** Fragment `f` is on the air. */
  function Logged(hist: History, f: Fragment): History {
    hist.(log := hist.log + [f], strayed := hist.strayed || (hist.lapsed && f.ack.None?))
  }

  function SendCharacteristic(ep: EndPoint, f: Fragment, env: Env): Outcome {
    var hist := ep.hist.(sends := ep.hist.sends + 1);
    var link := ep.link.(gattInFlight := true);
    if env.sent
    then Outcome(ep.(link := link.(remote := Dec8(link.remote)), hist := Logged(hist, f)), NoError)
    else Outcome(ep.(link := link, hist := hist), GattSendFailed)
  }

  /** An ack goes out with the fragment, if one does: the local window opens fully and nothing is left to ack. */
  function Acked(ep: EndPoint, withAck: bool): EndPoint {
    if withAck then
      ep.(link := ep.link.(local := ep.link.max),
          hist := ep.hist.(rxA := RxN(ep), stale := ep.hist.stale || ep.hist.rxA == RxN(ep)))
    else ep
  }

  /** Send a prepared fragment; the ack it may carry is no longer due, and one for it is now expected. */
  function Transmit(ep: EndPoint, f: Fragment, env: Env): Outcome {
    var o := SendCharacteristic(ep, f, env);
    if o.err != NoError then o else StartAckReceivedTimer(o.ep.(link := o.ep.link.(sendAckTimer := false)), env)
  }

  /** PrepareNextFragment, and the rest of SendNextMessage and ContinueMessageSend. */
  function SendPiece(ep: EndPoint, m: Option<Message>, env: Env): Outcome {
    var withAck := ep.link.sendAckTimer;
    var s := SendFragment(ep.engine, m, withAck, env.headroom);
    if !s.ok then
      var link := if withAck then ep.link.(local := ep.link.max) else ep.link;
      Outcome(ep.(engine := s.engine, link := link), ProtocolAbort)
    else Transmit(Acked(ep, withAck).(engine := s.engine), s.fragment, env)
  }

  function SendNextMessage(ep: EndPoint, env: Env): Outcome
    requires |ep.queue| > 0
  {
    SendPiece(ep.(queue := ep.queue[1..]), Some(ep.queue[0]), env)
  }

  /** The waiting ack buffer is filled in. */
  function AckEncoded(ep: EndPoint): EndPoint {
    Acked(ep, true).(engine := SendStandAloneAck(ep.engine).engine, link := ep.link)
  }

  function DoSendStandAloneAck(ep: EndPoint, env: Env): Outcome {
    var o := SendCharacteristic(AckEncoded(ep), SendStandAloneAck(ep.engine).fragment, env);
    if o.err != NoError then o
    else StartAckReceivedTimer(o.ep.(link := o.ep.link.(local := o.ep.link.max, ackInFlight := true)), env)
  }

  /**
   The peer's window is nearly closed and there is no ack to send, or it is closed, or a GATT operation is in flight.
   */
  predicate Blocked(ep: EndPoint) {
    || (ep.link.remote <= NO_ACK_SEND_THRESHOLD && !ep.link.sendAckTimer && !ep.link.ackPending)
    || ep.link.remote == 0
    || ep.link.gattInFlight
  }

  function DriveSending(ep: EndPoint, env: Env): Outcome {
    if Blocked(ep) then Outcome(ep, NoError)
    else if ep.link.ackPending then DoSendStandAloneAck(ep, env)
    else match ep.engine.txState
    case Idle => if |ep.queue| > 0 then SendNextMessage(ep, env) else Outcome(ep, NoError)
    case InProgress => SendPiece(ep, None, env)
    case Complete =>
      var ep1 := ep.(engine := ClearTx(ep.engine));
      if |ep.queue| > 0 then SendNextMessage(ep1, env)
      else if ep.life.state == Closing && !ep.engine.expectingAck then Outcome(Finalize(ep1, env), NoError)
      else Outcome(ep1, NoError)
    case Failed => Outcome(ep, NoError)
  }

  function DriveStandAloneAck(ep: EndPoint, env: Env): Outcome {
    var ep1 := ep.(link := ep.link.(sendAckTimer := false));
    if ep.link.ackPending || env.buffer
    then DriveSending(ep1.(link := ep1.link.(ackPending := true), hist := ep1.hist.(lapsed := false)), env)
    else Outcome(ep1, NoMemory)
  }

  // ---------- application ----------

  function Send(ep: EndPoint, m: Message, env: Env): EndPoint {
    if !IsConnected(ep.life) then Fail(ep, IncorrectState, env)
    else if |m| > ep.config.capacity then Fail(ep, OutboundTooBig, env)
    else
      var ep1 := ep.(queue := ep.queue + [m], hist := ep.hist.(accepted := ep.hist.accepted + [m]));
      Settled(DriveSending(ep1, env), env)
  }

  function AppCall(ep: EndPoint, call: CloseCall, env: Env): EndPoint {
    Settle(ep, Perform(ep.life, call, ep.engine.txState == Idle, env.platform))
  }

  // ---------- receiving ----------

  /** The engine took the packet: the local window shrinks, and the history moves on. */
  function Taken(ep: EndPoint, r: Received): EndPoint {
    ep.(engine := r.engine, link := ep.link.(local := Dec8(ep.link.local)),
        hist := ep.hist.(
          received := ep.hist.received + 1,
          txA := if r.ack.Some? then AfterAck(ep.hist.txA, r.ack.value) else ep.hist.txA,
          reassembled := if r.engine.rxState == Complete then ep.hist.reassembled + [r.engine.rxBuf]
            else ep.hist.reassembled))
  }

  /** The first number not acknowledged once `ack` has been, counting up from `from`. */
  function AfterAck(from: nat, ack: uint8): nat {
    from + (ack - from) % 0x100 + 1
  }

  function OpenWindow(ep: EndPoint, ack: uint8): EndPoint {
    ep.(link := ep.link.(remote := AdjustRemoteReceiveWindow(ack, ep.link.max, ep.engine.txNewest, ep.config.offset)))
  }

  /** A lingering close only waited for the ack that has just come in; the handler then ends. */
  predicate LastAckIn(ep: EndPoint) {
    ep.life.state == Closing && |ep.queue| == 0 && ep.engine.txState == Idle && !ep.engine.expectingAck
  }

  /** Respond to a received ack: finalize a close that only waited for it, or reopen the window and go on sending. */
  function OnAck(ep: EndPoint, ack: uint8, env: Env): Outcome {
    if !ep.engine.expectingAck then
      var ep1 := ep.(link := ep.link.(ackReceivedTimer := false));
      if LastAckIn(ep) then Outcome(Finalize(ep1, env), NoError)
      else DriveSending(OpenWindow(ep1, ack), env)
    else if !ep.link.ackReceivedTimer then Outcome(ep, IncorrectState)
    else if !env.ackTimer then Outcome(ep.(link := ep.link.(ackReceivedTimer := false)), StartTimerFailed)
    else DriveSending(OpenWindow(ep, ack), env)
  }

  /** Acknowledge what has arrived: at once when the window is nearly used up and the air is free, else by timer. */
  function Acknowledge(ep: EndPoint, env: Env): Outcome {
    if !HasUnackedData(ep.engine) then Outcome(ep, NoError)
    else if ep.link.local <= IMMEDIATE_ACK_THRESHOLD && !ep.link.gattInFlight then DriveStandAloneAck(ep, env)
    else StartSendAckTimer(ep, env)
  }

  function HandUp(ep: EndPoint): EndPoint {
    if ep.engine.rxState != Complete then ep
    else
      var ep1 := ep.(engine := ClearRx(ep.engine));
      if ep.life.onMessageReceived && ep.life.state != Closing
      then ep1.(hist := ep1.hist.(delivered := ep1.hist.delivered + [ep.engine.rxBuf]))
      else ep1
  }

  /** A packet after the handshake. `env` serves the sending that an ack allows, `env'` the acknowledgement. */
  function ReceivePacket(ep: EndPoint, data: Bytes, env: Env, env': Env): EndPoint
    requires HeaderPresent(data)
  {
    if ep.life.unsubscribeTimer then ep
    else if !IsConnected(ep.life) then Fail(ep, IncorrectState, env)
    else
      var r := Receive(ep.engine, data, ep.config.capacity, env.buffer);
      if r.err != NoError then Fail(ep.(engine := r.engine), r.err, env)
      else if r.ack.Some? && LastAckIn(Taken(ep, r)) then AckHandled(ep, r, env).ep
      else Conclude(AckHandled(ep, r, env), env, env')
  }

  /** The packet has been taken in and its ack, if any, dealt with. */
  function AckHandled(ep: EndPoint, r: Received, env: Env): Outcome {
    if r.ack.Some? then OnAck(Taken(ep, r), r.ack.value, env) else Outcome(Taken(ep, r), NoError)
  }

  /**
   Acknowledge the packet and hand up the message it completed. The source does not look whether the sending that
   an ack allowed has finalized the close meanwhile: it goes on with a closed end point, and with a released one too.
   */
  function Conclude(o: Outcome, env: Env, env': Env): EndPoint {
    if o.err != NoError then Fail(o.ep, o.err, env)
    else if o.ep.life.frees > 0 then RunOn(o.ep)
    else
      var o' := Acknowledge(o.ep, env');
      if o'.err != NoError then Fail(o'.ep, o'.err, env') else HandUp(o'.ep)
  }

  /** The end point was released: touching its timers, which any unacknowledged data leads to, is a fault. */
  function RunOn(ep: EndPoint): EndPoint {
    ep.(hist := ep.hist.(faulted := ep.hist.faulted || HasUnackedData(ep.engine)))
  }

  // ---------- GATT confirmations and timeouts ----------

  /** A fragment or stand-alone ack was confirmed. */
  function FragmentConfirmed(ep: EndPoint, env: Env): EndPoint {
    if ep.life.unsubscribeTimer then ep
    else if !IsConnected(ep.life) then Fail(ep, IncorrectState, env)
    else
      var ep1 := if ep.link.ackInFlight then ep.(link := ep.link.(ackPending := false, ackInFlight := false)) else ep;
      Settled(Proceed(ep1, env, |ep.queue| > 0 || ep.engine.txState == InProgress), env)
  }

  /** Go on after a confirmation: an immediate ack when the window needs it and no fragment can carry it. */
  function Proceed(ep: EndPoint, env: Env, fragmentWaits: bool): Outcome {
    if ep.link.local <= IMMEDIATE_ACK_THRESHOLD && !fragmentWaits then DriveStandAloneAck(ep, env)
    else DriveSending(ep, env)
  }

  /** The capabilities message itself was confirmed: drop it from the queue and move on. */
  function HandshakeConfirmed(ep: EndPoint, env: Env): EndPoint
    requires |ep.queue| > 0
  {
    var ep1 := ep.(queue := ep.queue[1..]);
    if ep.life.central then
      if env.subscribed
      then ep1.(life := ep1.life.(didBeginSubscribe := true), link := ep1.link.(gattInFlight := true),
                hist := ep1.hist.(sends := ep1.hist.sends + 1))
      else Fail(ep1, GattSubscribeFailed, env)
    else if ep.life.state == Connected then Settled(Proceed(ep1, env, |ep1.queue| > 0), env)
    else if ep.life.state == Aborting then CloseWith(ep1, CloseFlags(true, true), IncompatibleVersions, env)
    else ep1
  }

  /** The GATT operation in flight has finished. */
  function Finished(ep: EndPoint): EndPoint {
    ep.(link := ep.link.(gattInFlight := false), hist := ep.hist.(confirms := ep.hist.confirms + 1))
  }

  function Confirmed(ep: EndPoint, env: Env): EndPoint
    requires (ep.capsConfirmed || |ep.queue| > 0)
  {
    var ep1 := Finished(ep);
    if ep.capsConfirmed then FragmentConfirmed(ep1, env)
    else HandshakeConfirmed(ep1.(capsConfirmed := true), env)
  }

  function SubscribeComplete(ep: EndPoint, env: Env): EndPoint {
    var ep1 := Finished(ep);
    var o := DriveSending(ep1, env);
    if o.err == NoError then o.ep else Fail(o.ep, NoError, env)
  }

  function SendAckTimeout(ep: EndPoint, env: Env): EndPoint {
    if !ep.link.sendAckTimer then ep
    else
      var ep1 := ep.(link := ep.link.(sendAckTimer := false));
      if ep.link.ackInFlight then ep1.(hist := ep1.hist.(lapsed := true))
      else Settled(DriveStandAloneAck(ep1, env), env)
  }

  function AckReceivedTimeout(ep: EndPoint, env: Env): EndPoint {
    if !ep.link.ackReceivedTimer then ep
    else Fail(ep.(link := ep.link.(ackReceivedTimer := false)), FragmentAckTimedOut, env)
  }

  function HandshakeTimeout(ep: EndPoint, env: Env): EndPoint {
    if ep.life.central then
      if !ep.life.connectTimer then ep
      else Fail(ep.(life := ep.life.(connectTimer := false)), ConnectTimedOut, env)
    else
      if !ep.life.receiveTimer then ep
      else CloseWith(ep.(life := ep.life.(receiveTimer := false)), CloseFlags(true, true), ReceiveTimedOut, env)
  }

  function UnsubscribeDone(ep: EndPoint): EndPoint {
    if !ep.life.unsubscribeTimer then ep
    else ep.(life := UnsubscribeComplete(ep.life), engine := ClearRx(ClearTx(ep.engine)),
             link := ep.link.(sendAckTimer := false, ackReceivedTimer := false))
  }

  // ---------- handshake ----------

  function New(config: Config, life: Life): EndPoint {
    EndPoint(config, life, Init(!life.central), [], Link(0, 0, 0, false, false, false, false, false),
             false, false, History([], 0, 0, 0, [], [], [], 0, 0, false, false, false, false))
  }

  /** The central sends its request and parks it in the queue until it is confirmed. */
  function StartConnect(ep: EndPoint, req: H.Request, env: Env): EndPoint {
    if ep.life.state != Ready then Fail(ep.(life := ep.life.(connectTimer := false)), IncorrectState, env)
    else Requests(ep.(life := ep.life.(state := Connecting)), req, env)
  }

  function Requests(ep: EndPoint, req: H.Request, env: Env): EndPoint {
    if !env.buffer then Fail(ep, NoMemory, env)
    else if !env.handshakeTimer then Fail(ep, StartTimerFailed, env)
    else if !env.sent then Fail(RequestWritten(ep, false), GattSendFailed, env)
    else
      var ep1 := RequestWritten(ep, true);
      ep1.(queue := ep1.queue + [H.EncodedRequest(req)])
  }

  /** The connect timer runs on only if the request could be written. */
  function RequestWritten(ep: EndPoint, sent: bool): EndPoint {
    ep.(life := ep.life.(connectTimer := sent), link := ep.link.(gattInFlight := true),
        hist := ep.hist.(sends := ep.hist.sends + 1))
  }

  /** The peripheral takes in the request. `mtu` is its own view of the MTU. */
  function CapsRequestReceived(ep: EndPoint, data: Bytes, mtu: uint16, env: Env): EndPoint
    requires H.ValidMtu(mtu) && (H.DecodedRequest(data).Ok? ==> H.ValidMtu(H.DecodedRequest(data).value.mtu))
  {
    if ep.life.state != Ready then Fail(ep, IncorrectState, env)
    else
      var ep1 := ep.(life := ep.life.(state := Connecting), capsReceived := true);
      var req := H.DecodedRequest(data);
      if req.Err? then CloseWith(ep1, CloseFlags(true, true), req.error, env)
      else if !env.buffer then CloseWith(ep1, CloseFlags(true, true), NoMemory, env)
      else Answers(ep1, H.Answer(req.value, mtu, ep.config.window), env)
  }

  /**
   The response is parked in the queue, and the sizes and windows are settled; without a common version it only says
   so.
   */
  function Stashed(ep: EndPoint, resp: H.Response): EndPoint
    requires DEFAULT_FRAGMENT_SIZE <= resp.fragmentSize <= MAX_FRAGMENT_SIZE
  {
    var terms := H.PeripheralTerms(resp);
    ep.(queue := ep.queue + [H.EncodedResponse(resp)],
        link := ep.link.(max := resp.window, local := resp.window, remote := resp.window),
        life := if terms.None? then ep.life.(state := Aborting) else ep.life,
        engine := if terms.None? then ep.engine
                  else ep.engine.(rxSize := terms.value.rxSize, txSize := terms.value.txSize))
  }

  function Answers(ep: EndPoint, resp: H.Response, env: Env): EndPoint
    requires DEFAULT_FRAGMENT_SIZE <= resp.fragmentSize <= MAX_FRAGMENT_SIZE
  {
    var ep1 := Stashed(ep, resp);
    if !env.handshakeTimer then CloseWith(ep1, CloseFlags(true, true), StartTimerFailed, env)
    else ep1.(life := ep1.life.(receiveTimer := true))
  }

  /** The central subscribed: the parked response goes out as an indication, and the peripheral is connected. */
  function SubscribeReceived(ep: EndPoint, env: Env): EndPoint {
    var giveUp := CloseFlags(true, true);
    if !(ep.life.state == Connecting || ep.life.state == Aborting) || |ep.queue| == 0
    then CloseWith(ep, giveUp, IncorrectState, env)
    else if !env.sent then CloseWith(Indicated(ep, false), giveUp, GattSendFailed, env)
    else
      var o := StartAckReceivedTimer(Indicated(ep, true), env);
      if o.err != NoError then CloseWith(o.ep, giveUp, o.err, env)
      else if ep.life.state == Aborting then o.ep
      else ReceiveConnectionComplete(o.ep, env)
  }

  /** The peripheral is connected, and its application is told. */
  function ReceiveConnectionComplete(ep: EndPoint, env: Env): EndPoint {
    var ep1 := ep.(life := ep.life.(state := Connected, receiveTimer := false));
    if env.subscribed
    then ep1.(life := Tell(ep1.life, ConnectionOpened))
    else CloseWith(ep1, CloseFlags(true, true), NoConnectCallback, env)
  }

  /** The indication was handed to the platform; if that failed, the parked response is dropped. */
  function Indicated(ep: EndPoint, sent: bool): EndPoint {
    ep.(link := ep.link.(gattInFlight := true, remote := if sent then Dec8(ep.link.remote) else ep.link.remote),
        queue := if sent then ep.queue else [], hist := ep.hist.(sends := ep.hist.sends + 1))
  }

  /** The central takes in the response. */
  function CapsResponseReceived(ep: EndPoint, data: Bytes, env: Env): EndPoint
    requires var r := H.DecodedResponse(data);
      r.Ok? ==> r.value.fragmentSize == 0 || r.value.fragmentSize >= DEFAULT_FRAGMENT_SIZE
  {
    if ep.life.state != Connecting then Fail(ep, IncorrectState, env)
    else
      var ep1 := ep.(capsReceived := true);
      var resp := H.DecodedResponse(data);
      if resp.Err? then Fail(ep1, resp.error, env)
      else
        var terms := H.CentralTerms(resp.value);
        if terms.Err? then Fail(ep1, terms.error, env) else Opens(ep1, terms.value, env)
  }

  /** The sizes and windows of the response are taken over. */
  function Agreed(ep: EndPoint, t: H.Terms): EndPoint {
    ep.(engine := ep.engine.(rxSize := t.rxSize, txSize := t.txSize),
        link := ep.link.(max := t.max, local := t.local, remote := t.remote))
  }

  /** The terms are taken over, the indication is to be acknowledged, and the connection is open. */
  function Opens(ep: EndPoint, t: H.Terms, env: Env): EndPoint {
    var o := StartSendAckTimer(Agreed(ep, t), env);
    if o.err != NoError then Fail(o.ep, o.err, env) else ConnectComplete(o.ep, env)
  }

  /** The central is connected, and its application is told. */
  function ConnectComplete(ep: EndPoint, env: Env): EndPoint {
    var ep1 := ep.(life := ep.life.(state := Connected, connectTimer := false));
    if ep1.life.onConnectComplete
    then ep1.(life := Tell(ep1.life, ConnectionOpened))
    else Fail(ep1, NoConnectCallback, env)
  }

  // ---------- events ----------

  datatype Event =
    | AppSend(m: Message)
    | AppClose(call: CloseCall)
    | AppConnect(req: H.Request)
    | RequestIn(data: Bytes, mtu: uint16)
    | ResponseIn(data: Bytes)
    | PacketIn(data: Bytes, env': Env)
    | PeerSubscribed
    | GattConfirmed
    | GattSubscribed
    | GattUnsubscribed
    | SendAckExpired
    | AckWaitExpired
    | HandshakeExpired

  /**
   What the platform promises about events: they reach an end point that has not been freed, a confirmation
   answers the operation in flight, and packets arrive with a complete header and valid sizes. A central whose
   log is empty has its subscription in flight once its request is confirmed, and a subscription that is being
   undone is not reported complete. A peer asks for a window of at least one and, if refused, subscribes once.
   */
  predicate Enabled(ep: EndPoint, event: Event) {
    ep.life.frees == 0 &&
    match event
    case AppSend(_) => true
    case AppClose(_) => true
    case AppConnect(_) => ep.life.central
    case RequestIn(data, mtu) => !ep.life.central && !ep.capsReceived && H.ValidMtu(mtu) &&
      var r := H.DecodedRequest(data); r.Ok? ==> H.ValidMtu(r.value.mtu) && r.value.window >= 1
    case ResponseIn(data) => ep.life.central && ep.capsConfirmed && !ep.capsReceived &&
      var r := H.DecodedResponse(data); r.Ok? ==>
        r.value.fragmentSize == 0 || r.value.fragmentSize >= DEFAULT_FRAGMENT_SIZE
    case PacketIn(data, _) => ep.capsReceived && HeaderPresent(data)
    case PeerSubscribed => !ep.life.central && (ep.life.state == Aborting ==> !ep.link.gattInFlight)
    case GattConfirmed => ep.link.gattInFlight && ep.hist.sends > ep.hist.confirms &&
      (if ep.capsConfirmed then ep.life.central ==> |ep.hist.log| > 0 else |ep.queue| > 0)
    case GattSubscribed => ep.life.central && ep.link.gattInFlight && ep.capsConfirmed && |ep.hist.log| == 0 &&
      ep.life.state != Closed
    case GattUnsubscribed => ep.life.unsubscribeTimer
    case SendAckExpired => true
    case AckWaitExpired => true
    case HandshakeExpired => true
  }

  function Apply(ep: EndPoint, event: Event, env: Env): EndPoint
    requires Enabled(ep, event)
  {
    match event
    case AppSend(m) => Send(ep, m, env)
    case AppClose(call) => AppCall(ep, call, env)
    case AppConnect(req) => StartConnect(ep, req, env)
    case RequestIn(data, mtu) => CapsRequestReceived(ep, data, mtu, env)
    case ResponseIn(data) => CapsResponseReceived(ep, data, env)
    case PacketIn(data, env') => ReceivePacket(ep, data, env, env')
    case PeerSubscribed => SubscribeReceived(ep, env)
    case GattConfirmed => Confirmed(ep, env)
    case GattSubscribed => SubscribeComplete(ep, env)
    case GattUnsubscribed => UnsubscribeDone(ep)
    case SendAckExpired => SendAckTimeout(ep, env)
    case AckWaitExpired => AckReceivedTimeout(ep, env)
    case HandshakeExpired => HandshakeTimeout(ep, env)
  }
}
