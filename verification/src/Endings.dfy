/**
 How a connection ends: which events end it, what the application is told of that and with which error, when the
 peer is told by an unsubscribe, and what is given back to whom. All of it holds in every state that any run of one
 end point reaches, against any peer and platform.
 */
module Endings {
  import opened Common
  import opened Fragments
  import opened BtpEngine
  import opened Lifecycle
  import opened EndPointModel
  import opened EndPointInvariant
  import opened EndPointEvents
  import opened EndPointEdges
  import opened EndPointRuns
  import H = Handshake

  // ---------- what an ending is ----------

  /** What the application is told when the end point gives up from its present state with error `err`. */
  function Farewell(l: Life, err: Error, quiet: bool): seq<Notice> {
    if quiet || l.state == Closing then []
    else if l.state == Connecting && l.onConnectComplete then [ConnectFailed(err)]
    else if l.state != Connecting && l.onConnectionClosed then [ConnectionClosed(err)]
    else []
  }

  /** The end point gives up with error `err`, and tells its application unless it does so quietly. */
  predicate Ends(ep: EndPoint, ep': EndPoint, err: Error, quiet: bool) {
    && ep'.life.state == Closed && !ep'.life.graceful && ep'.life.cause == err
    && ep'.life.told == ep.life.told + Farewell(ep.life, err, quiet)
    && ep'.hist == ep.hist && ep'.queue == []
  }

  lemma AbortEnds(ep: EndPoint, flags: CloseFlags, err: Error, env: Env)
    requires Sound(ep.life) && ep.life.state != Closed && flags.abort
    ensures Ends(ep, CloseWith(ep, flags, err, env), err, flags.suppress)
  {
    CloseTells(ep.life, ep.engine.txState == Idle, flags, err, env.platform);
    AbortCloses(ep, flags, err, env);
  }

  // ---------- timeouts ----------

  /** The handshake timers are off once the connection is open, so neither can end it. */
  lemma TimersOff(ep: EndPoint, env: Env)
    requires Reachable(ep) && Rank(ep.life.state) >= 3
    ensures !ep.life.connectTimer && !ep.life.receiveTimer && HandshakeTimeout(ep, env) == ep
  {
    ReachableInv(ep);
  }

  /** A handshake that does not finish in time is given up: the central's application is told, the peripheral's not. */
  lemma HandshakeExpires(ep: EndPoint, env: Env)
    requires Reachable(ep) && (ep.life.state == Connecting || ep.life.state == Aborting)
    ensures if ep.life.central then Ends(ep, HandshakeTimeout(ep, env), ConnectTimedOut, false)
      else Ends(ep, HandshakeTimeout(ep, env), ReceiveTimedOut, true)
  {
    ReachableInv(ep);
    if ep.life.central {
      ConnectExpires(ep, env);
    } else {
      ReceiveExpires(ep, env);
    }
  }

  lemma ConnectExpires(ep: EndPoint, env: Env)
    requires Sound(ep.life) && Rank(ep.life.state) < 3 && ep.life.central && ep.life.connectTimer
    ensures Ends(ep, HandshakeTimeout(ep, env), ConnectTimedOut, false)
  {
    AbortEnds(ep.(life := ep.life.(connectTimer := false)), CloseFlags(false, true), ConnectTimedOut, env);
  }

  lemma ReceiveExpires(ep: EndPoint, env: Env)
    requires Sound(ep.life) && Rank(ep.life.state) < 3 && !ep.life.central && ep.life.receiveTimer
    ensures Ends(ep, HandshakeTimeout(ep, env), ReceiveTimedOut, true)
  {
    AbortEnds(ep.(life := ep.life.(receiveTimer := false)), CloseFlags(true, true), ReceiveTimedOut, env);
  }

  /**
   A peer that does not acknowledge in time is given up: the ack-received timeout ends an open connection exactly while
   a fragment, or the handshake indication, is outstanding.
   */
  lemma AckWaitExpires(ep: EndPoint, env: Env)
    requires Reachable(ep) && IsConnected(ep.life)
    ensures if Outstanding(ep) > 0 then Ends(ep, AckReceivedTimeout(ep, env), FragmentAckTimedOut, false)
      else AckReceivedTimeout(ep, env) == ep
  {
    ReachableInv(ep);
    if Outstanding(ep) > 0 {
      AbortEnds(ep.(link := ep.link.(ackReceivedTimer := false)), CloseFlags(false, true), FragmentAckTimedOut, env);
    }
  }

  // ---------- events out of place ----------

  /** An event that the handshake or the connection has no place for. */
  predicate Misplaced(ep: EndPoint, event: Event) {
    match event
    case AppSend(_) => !IsConnected(ep.life)
    case PacketIn(_, _) => !IsConnected(ep.life)
    case AppConnect(_) => ep.life.state != Ready
    case RequestIn(_, _) => ep.life.state != Ready
    case ResponseIn(_) => ep.life.state != Connecting
    case PeerSubscribed => ep.life.state != Connecting && ep.life.state != Aborting
    case _ => false
  }

  lemma MisplacedEnds(ep: EndPoint, event: Event, env: Env)
    requires Reachable(ep) && ep.life.state != Closed && Enabled(ep, event) && Misplaced(ep, event)
    ensures Ends(ep, Apply(ep, event, env), IncorrectState, event.PeerSubscribed?)
  {
    ReachableInv(ep);
    AbortEnds(ep, CloseFlags(event.PeerSubscribed?, true), IncorrectState, env);
    AbortEnds(ep.(life := ep.life.(connectTimer := false)), CloseFlags(false, true), IncorrectState, env);
  }

  // ---------- the application always learns that its connection is lost ----------

  /** The close that the application asks for itself, and a second subscription, end a connection without a notice. */
  predicate Silent(event: Event) {
    event.PeerSubscribed? || (event.AppClose? && !event.call.ReportError?)
  }

  /** An open connection is as it was, or it is over and the application was told, once, with the error. */
  predicate KeptOrLost(l: Life, l': Life) {
    l' == l || (l'.state == Closed && !l'.graceful && l'.told == l.told + Farewell(l, l'.cause, false))
  }

  lemma SettledEnds(ep: EndPoint, o: Outcome, env: Env)
    requires Sound(ep.life) && ep.life.state == Connected && o.ep.life == ep.life
    ensures KeptOrLost(ep.life, Settled(o, env).life)
  {
    AbortEnds(o.ep, CloseFlags(false, true), o.err, env);
  }

  /** Sending changes neither the life of the end point nor what it has accepted. */
  predicate Spares(ep: EndPoint, ep': EndPoint) {
    ep'.life == ep.life && ep'.hist.accepted == ep.hist.accepted
  }

  lemma SendPieceSpares(ep: EndPoint, m: Option<Message>, env: Env)
    ensures Spares(ep, SendPiece(ep, m, env).ep)
  {
  }

  lemma AckSpares(ep: EndPoint, env: Env)
    ensures Spares(ep, DoSendStandAloneAck(ep, env).ep)
  {
  }

  lemma DriveSpares(ep: EndPoint, env: Env)
    ensures var ep' := DriveSending(ep, env).ep;
      Spares(ep, ep') || (ep.life.state == Closing && ep' == Finalize(ep.(engine := ClearTx(ep.engine)), env))
  {
    var ep1 := if ep.engine.txState == Complete then ep.(engine := ClearTx(ep.engine)) else ep;
    AckSpares(ep, env);
    SendPieceSpares(ep, None, env);
    if |ep.queue| > 0 { SendPieceSpares(ep1.(queue := ep.queue[1..]), Some(ep.queue[0]), env); }
  }

  lemma DriveKeepsLife(ep: EndPoint, env: Env)
    requires ep.life.state == Connected
    ensures DriveSending(ep, env).ep.life == ep.life
  {
    DriveSpares(ep, env);
  }

  lemma StandAloneKeepsLife(ep: EndPoint, env: Env)
    requires ep.life.state == Connected
    ensures DriveStandAloneAck(ep, env).ep.life == ep.life
  {
    DriveSpares(Wanted(ep), env);
  }

  lemma SendIsTold(ep: EndPoint, m: Message, env: Env)
    requires Sound(ep.life) && ep.life.state == Connected
    ensures KeptOrLost(ep.life, Send(ep, m, env).life)
  {
    var ep1 := ep.(queue := ep.queue + [m], hist := ep.hist.(accepted := ep.hist.accepted + [m]));
    DriveKeepsLife(ep1, env);
    SettledEnds(ep, DriveSending(ep1, env), env);
    SettledEnds(ep, Outcome(ep, OutboundTooBig), env);
  }

  lemma ProceedIsTold(ep: EndPoint, env: Env, waits: bool)
    requires Sound(ep.life) && ep.life.state == Connected
    ensures KeptOrLost(ep.life, Settled(Proceed(ep, env, waits), env).life)
  {
    DriveKeepsLife(ep, env);
    StandAloneKeepsLife(ep, env);
    SettledEnds(ep, Proceed(ep, env, waits), env);
  }

  lemma ConfirmIsTold(ep: EndPoint, env: Env)
    requires OpenAndGood(ep) && ep.life.state == Connected && Enabled(ep, GattConfirmed)
    ensures KeptOrLost(ep.life, Confirmed(ep, env).life)
  {
    var waits := |ep.queue| > 0 || ep.engine.txState == InProgress;
    var ep1 := Finished(ep);
    if ep.capsConfirmed {
      ConfirmedProceeds(ep, env);
      ProceedIsTold(Landed(ep), env, waits);
    } else {
      var ep2 := ep1.(capsConfirmed := true, queue := ep.queue[1..]);
      assert !ep.life.central;
      ProceedIsTold(ep2, env, |ep2.queue| > 0);
    }
  }

  lemma SubscribedIsTold(ep: EndPoint, env: Env)
    requires Sound(ep.life) && ep.life.state == Connected
    ensures KeptOrLost(ep.life, SubscribeComplete(ep, env).life)
  {
    var o := DriveSending(Finished(ep), env);
    DriveKeepsLife(Finished(ep), env);
    if o.err != NoError {
      AbortEnds(o.ep, CloseFlags(false, true), NoError, env);
    }
  }

  lemma TimeoutIsTold(ep: EndPoint, env: Env)
    requires Sound(ep.life) && ep.life.state == Connected
    ensures KeptOrLost(ep.life, SendAckTimeout(ep, env).life)
  {
    var ep1 := ep.(link := ep.link.(sendAckTimer := false));
    StandAloneKeepsLife(ep1, env);
    SettledEnds(ep, DriveStandAloneAck(ep1, env), env);
  }

  lemma PacketIsTold(ep: EndPoint, data: Bytes, env: Env, env': Env)
    requires Sound(ep.life) && ep.life.state == Connected && HeaderPresent(data)
    ensures KeptOrLost(ep.life, ReceivePacket(ep, data, env, env').life)
  {
    var r := Reply(ep, data, env);
    if r.err != NoError {
      AbortEnds(ep.(engine := r.engine), CloseFlags(false, true), r.err, env);
    } else {
      AckKeepsLife(ep, r, env);
      ConcludeIsTold(ep, AckHandled(ep, r, env), env, env');
    }
  }

  lemma AckKeepsLife(ep: EndPoint, r: Received, env: Env)
    requires ep.life.state == Connected
    ensures AckHandled(ep, r, env).ep.life == ep.life
  {
    var ep1 := Taken(ep, r);
    if r.ack.Some? {
      DriveKeepsLife(OpenWindow(ep1, r.ack.value), env);
      DriveKeepsLife(OpenWindow(ep1.(link := ep1.link.(ackReceivedTimer := false)), r.ack.value), env);
    }
  }

  lemma ConcludeIsTold(ep: EndPoint, o: Outcome, env: Env, env': Env)
    requires Sound(ep.life) && ep.life.state == Connected && o.ep.life == ep.life
    ensures KeptOrLost(ep.life, Conclude(o, env, env').life)
  {
    StandAloneKeepsLife(o.ep, env');
    SettledEnds(ep, o, env);
    SettledEnds(ep, Acknowledge(o.ep, env'), env');
  }

  /**
   Over every event of an established connection: either the connection is as it was, or it is over, and if the
   application has set its callback it is told exactly once, with the error the connection ended with.
   */
  lemma LossIsTold(ep: EndPoint, event: Event, env: Env)
    requires Reachable(ep) && ep.life.state == Connected && Enabled(ep, event) && !Silent(event)
    ensures KeptOrLost(ep.life, Apply(ep, event, env).life)
  {
    ReachableInv(ep);
    match event
    case AppSend(m) => SendIsTold(ep, m, env);
    case PacketIn(data, env') => PacketIsTold(ep, data, env, env');
    case GattConfirmed => ConfirmIsTold(ep, env);
    case GattSubscribed => SubscribedIsTold(ep, env);
    case SendAckExpired => TimeoutIsTold(ep, env);
    case AckWaitExpired => AckWaitExpires(ep, env);
    case AppClose(call) => ReportIsTold(ep, call.err, env);
    case HandshakeExpired => TimersOff(ep, env);
    case GattUnsubscribed =>
    case _ => MisplacedEnds(ep, event, env);
  }

  /** A central that is connecting goes on, is connected, or has failed, and its application is told which, and why. */
  predicate ConnectsOrFails(l: Life) {
    || (l.state == Connecting && l.told == [])
    || (l.state == Connected && l.told == [ConnectionOpened])
    || (l.state == Closed && !l.graceful && l.told == [ConnectFailed(l.cause)])
  }

  lemma ConnectFails(ep: EndPoint, ep1: EndPoint, err: Error, env: Env)
    requires Sound(ep.life) && ep.life.state == Connecting && ep.life.onConnectComplete
    requires ep1.life == ep.life.(connectTimer := ep1.life.connectTimer,
                                  didBeginSubscribe := ep1.life.didBeginSubscribe)
    requires ep.life.central
    ensures ConnectsOrFails(Fail(ep1, err, env).life)
  {
    AbortEnds(ep1, CloseFlags(false, true), err, env);
  }

  lemma ResponseIsTold(ep: EndPoint, data: Bytes, env: Env)
    requires EpInv(ep) && ep.life.state == Connecting && ep.life.central && ep.life.onConnectComplete
    requires Enabled(ep, ResponseIn(data))
    ensures ConnectsOrFails(CapsResponseReceived(ep, data, env).life)
  {
    var ep1 := ep.(capsReceived := true);
    var resp := H.DecodedResponse(data);
    if resp.Err? {
      ConnectFails(ep, ep1, resp.error, env);
    } else if H.CentralTerms(resp.value).Err? {
      ConnectFails(ep, ep1, H.CentralTerms(resp.value).error, env);
    } else {
      ConnectFails(ep, Agreed(ep1, H.CentralTerms(resp.value).value), StartTimerFailed, env);
    }
  }

  lemma RequestIsConfirmed(ep: EndPoint, env: Env)
    requires EpInv(ep) && ep.life.state == Connecting && ep.life.central && ep.life.onConnectComplete
    requires Enabled(ep, GattConfirmed)
    ensures ConnectsOrFails(Confirmed(ep, env).life)
  {
    ConnectFails(ep, Finished(ep).(capsConfirmed := true, queue := ep.queue[1..]), GattSubscribeFailed, env);
  }

  /** Over every event of a central that is connecting: it is told exactly once, of success or of the failure. */
  lemma ConnectIsTold(ep: EndPoint, event: Event, env: Env)
    requires Reachable(ep) && ep.life.state == Connecting && ep.life.central && ep.life.onConnectComplete
    requires Enabled(ep, event) && !Silent(event)
    ensures ConnectsOrFails(Apply(ep, event, env).life)
  {
    ReachableInv(ep);
    match event
    case AppConnect(_) => ConnectFails(ep, ep.(life := ep.life.(connectTimer := false)), IncorrectState, env);
    case AppSend(_) => ConnectFails(ep, ep, IncorrectState, env);
    case AppClose(call) => ConnectFails(ep, ep, call.err, env);
    case ResponseIn(data) => ResponseIsTold(ep, data, env);
    case GattConfirmed => RequestIsConfirmed(ep, env);
    case GattSubscribed => EarlySubscribed(ep, env);
    case HandshakeExpired => ConnectFails(ep, ep.(life := ep.life.(connectTimer := false)), ConnectTimedOut, env);
    case _ =>
  }

  /** An error that the platform reports ends the connection with that error. */
  lemma ReportIsTold(ep: EndPoint, err: Error, env: Env)
    requires Sound(ep.life) && ep.life.state != Closed
    ensures Ends(ep, AppCall(ep, ReportError(err), env), err, false)
  {
    AbortEnds(ep, CloseFlags(false, true), err, env);
  }

  lemma CallIsSettled(ep: EndPoint, call: CloseCall, env: Env)
    ensures AppCall(ep, call, env).life == Perform(ep.life, call, ep.engine.txState == Idle, env.platform)
  {
  }

  /** Close and Abort are not reported back, and nothing will be after them. */
  lemma CloseIsSilent(ep: EndPoint, call: CloseCall, env: Env)
    requires Reachable(ep) && !call.ReportError?
    ensures var l := AppCall(ep, call, env).life;
      l.told == ep.life.told && !l.onConnectComplete && !l.onConnectionClosed && !l.onMessageReceived
  {
    ReachableInv(ep);
    CallIsSettled(ep, call, env);
    CallSilences(ep.life, call, ep.engine.txState == Idle, env.platform);
  }

  // ---------- telling the peer ----------

  /** The platform took the unsubscribe, left it pending, and started the timer for it. */
  predicate UnsubscribePends(env: Env) {
    env.platform.unsubscribeSent && !env.platform.unsubscribeDone && env.platform.timerStarted
  }

  /**
   An open central ends by unsubscribing, and is kept until that completes, unless the BLE connection is gone or the
   platform does not take the unsubscribe or answers it at once; a peripheral is released at once.
   */
  lemma AbortUnsubscribesIff(ep: EndPoint, flags: CloseFlags, err: Error, env: Env)
    requires Reachable(ep) && IsConnected(ep.life) && flags.abort
    ensures var ep' := CloseWith(ep, flags, err, env);
      && (ep'.life.unsubscribeTimer <==> ep.life.central && !Severed(err) && UnsubscribePends(env))
      && (ep'.life.unsubscribeTimer ==> ep'.link.gattInFlight && ep'.life.frees == 0 && ep'.life.handBacks == 0)
      && (!ep'.life.unsubscribeTimer ==> ep'.life.frees == 1 && ep'.life.handBacks == if Severed(err) then 0 else 1)
  {
    ReachableInv(ep);
    WaitsIff(ep.life, ep.engine.txState == Idle, flags, err, env.platform);
    AbortSettles(ep, flags, err, env);
    GivesBack(CloseWith(ep, flags, err, env).life, err);
  }

  /** What a closed end point has given back, by whether it is released. */
  lemma GivesBack(l: Life, err: Error)
    requires Sound(l) && l.state == Closed && l.cause == err
    ensures if l.unsubscribeTimer then l.frees == 0 && l.handBacks == 0
      else l.frees == 1 && l.handBacks == if Severed(err) then 0 else 1
  {
  }

  lemma AbortSettles(ep: EndPoint, flags: CloseFlags, err: Error, env: Env)
    requires Sound(ep.life) && ep.life.state != Closed && flags.abort
    ensures var ep' := CloseWith(ep, flags, err, env);
      && ep'.life == DoClose(ep.life, ep.engine.txState == Idle, flags, err, env.platform)
      && Sound(ep'.life) && ep'.life.state == Closed && ep'.life.cause == err
      && (ep'.life.unsubscribeTimer ==> ep'.link.gattInFlight)
  {
    FinalizeTells(ep.life, ep.engine.txState == Idle, flags, err, env.platform);
    AbortCloses(ep, flags, err, env);
  }

  /** So does one whose lingering close has finished. */
  lemma FinishUnsubscribesIff(ep: EndPoint, env: Env)
    requires Reachable(ep) && ep.life.state == Closing
    ensures var ep' := Finalize(ep, env);
      && (ep'.life.unsubscribeTimer <==> ep.life.central && UnsubscribePends(env))
      && (ep'.life.unsubscribeTimer ==> ep'.link.gattInFlight && ep'.life.frees == 0 && ep'.life.handBacks == 0)
      && (!ep'.life.unsubscribeTimer ==> ep'.life.frees == 1 && ep'.life.handBacks == 1)
  {
    ReachableInv(ep);
    FinalizeFinalizes(ep, env);
    FinalizeWaits(ep.life, Closing, ep.engine.txState == Idle, CloseFlags(true, false), NoError, env.platform);
    FinalizeSound(ep.life, Closing, ep.engine.txState == Idle, CloseFlags(true, false), NoError, env.platform);
  }

  /** The end of the unsubscribe, reported or timed out, releases the end point and gives the connection back. */
  lemma UnsubscribeReleases(ep: EndPoint, env: Env)
    requires Reachable(ep) && Enabled(ep, GattUnsubscribed)
    ensures var l := Apply(ep, GattUnsubscribed, env).life; l.frees == 1 && l.handBacks == 1 && l.told == ep.life.told
  {
    ReachableInv(ep);
    UnsubscribeCompleteSound(ep.life);
  }

  // ---------- what is given back ----------

  /**
   The BLE connection is handed back when the end point is released, exactly unless the connection was gone; never
   before, and never twice.
   */
  lemma HandsBackIff(ep: EndPoint)
    requires Reachable(ep)
    ensures ep.life.frees == 1 ==> (ep.life.handBacks == 1 <==> !Severed(ep.life.cause))
    ensures ep.life.handBacks == 0 || (ep.life.handBacks == 1 && ep.life.frees == 1)
  {
    ReachableInv(ep);
  }

  /** A released end point holds nothing: no connection, reference, timer, callback or queued message. */
  lemma ReleasedIsBare(ep: EndPoint)
    requires Reachable(ep) && ep.life.frees == 1
    ensures ep.life.state == Closed && ep.life.refCount == 0 && !ep.life.hasConnection && ep.queue == []
    ensures !ep.life.onConnectComplete && !ep.life.onConnectionClosed && !ep.life.onMessageReceived
    ensures !ep.life.connectTimer && !ep.life.receiveTimer && !ep.life.unsubscribeTimer
    ensures !ep.link.sendAckTimer && !ep.link.ackReceivedTimer
  {
    ReachableInv(ep);
  }

  /**
   The story an application is told: nothing until the handshake is over; then that the connection is open, once, as
   long as it is; and at the end at most one notice, after which no callback is left.
   */
  lemma StoryIsOrderly(ep: EndPoint)
    requires Reachable(ep)
    ensures Orderly(ep.life.told)
    ensures Rank(ep.life.state) < 3 ==> ep.life.told == []
    ensures ep.life.state == Connected ==> ep.life.told == [ConnectionOpened]
    ensures Parted(ep.life.told) ==>
      Rank(ep.life.state) >= 4 && !ep.life.onConnectComplete && !ep.life.onConnectionClosed
  {
    ReachableInv(ep);
  }
}
