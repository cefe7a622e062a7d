/**
 An open end point never waits for nothing: an acknowledgement that its peer needs soon is not left to the timer while
 it could go out, and a lingering close is finished once there is nothing left to send, to confirm or to wait for. Both
 hold over every run from creation, against any peer.
 */
module NeverStuck {
  import opened Common
  import opened Fragments
  import opened BtpEngine
  import opened Lifecycle
  import opened EndPointModel
  import opened EndPointInvariant
  import opened EndPointEvents
  import opened EndPointEdges
  import opened EndPointRuns
  import opened NeverIdle

  // ---------- urgent acknowledgements ----------

  /**
   Something is to be acknowledged and the window given to the peer is nearly used up. A central that has sent nothing
   yet is left out: the end of its subscription does not look at that window.
   */
  predicate AckUrgent(ep: EndPoint) {
    && HasUnackedData(ep.engine) && ep.link.local <= IMMEDIATE_ACK_THRESHOLD
    && (ep.life.central ==> |ep.hist.log| > 0)
  }

  predicate Prompt(ep: EndPoint) {
    AckUrgent(ep) && !ep.link.gattInFlight ==> ep.link.remote <= NO_ACK_SEND_THRESHOLD
  }

  // ---------- lingering closes ----------

  /** A lingering close that has emptied the fragmenter and the queue waits for an ack. */
  predicate AwaitsAck(ep: EndPoint) {
    ep.life.state == Closing && ep.engine.txState == Idle && |ep.queue| == 0 ==> ep.engine.expectingAck
  }

  /** A sent message stays in the fragmenter only while something keeps the end point from going on. */
  predicate Cleared(ep: EndPoint) {
    (ep.link.max >= 2 && ep.engine.txState == Complete && |ep.queue| == 0 && !ep.link.gattInFlight
     && !ep.link.ackPending) ==> ep.engine.expectingAck
  }

  predicate Resting(ep: EndPoint) {
    IsConnected(ep.life) ==> AwaitsAck(ep) && Cleared(ep)
  }

  predicate Attentive(ep: EndPoint) {
    Resting(ep) && (IsConnected(ep.life) ==> Prompt(ep))
  }

  // ---------- sending ----------

  lemma SentIsAttentive(ep: EndPoint, ep': EndPoint)
    requires Core(ep) && SentOne(ep, ep')
    ensures Attentive(ep')
  {
    SendsKeeps(ep, ep', ep'.hist.log[|ep'.hist.log| - 1]);
  }

  /** With nothing outstanding and a window of at least 2, only the air can block an end point. */
  lemma OpenWindowUnblocks(ep: EndPoint)
    requires Numbers(ep) && !ep.engine.expectingAck && ep.link.max >= 2
    ensures ep.link.remote > NO_ACK_SEND_THRESHOLD
  {
  }

  lemma DriveRests(ep: EndPoint, env: Env)
    requires Core(ep) && Sound(ep.life) && IsConnected(ep.life) && AwaitsAck(ep)
    requires DriveSending(ep, env).err == NoError
    ensures Resting(DriveSending(ep, env).ep)
  {
    var ep' := DriveSending(ep, env).ep;
    DriveSendingDrives(ep, env);
    if SentOne(ep, ep') {
      SentIsAttentive(ep, ep');
    } else if Blocked(ep) {
      if !ep.engine.expectingAck && ep.link.max >= 2 { OpenWindowUnblocks(ep); }
    } else if HasWork(ep) && !ep.link.ackPending {
      WorkIsSent(ep, env);
    }
  }

  lemma DriveAttends(ep: EndPoint, env: Env)
    requires Core(ep) && Sound(ep.life) && IsConnected(ep.life) && Prompt(ep) && AwaitsAck(ep)
    ensures Attentive(Settled(DriveSending(ep, env), env))
  {
    var o := DriveSending(ep, env);
    if o.err != NoError {
      DriveErrorShuts(ep, env, o.err);
    } else {
      DriveRests(ep, env);
      DriveSendingDrives(ep, env);
      if SentOne(ep, o.ep) { SentIsAttentive(ep, o.ep); }
    }
  }

  lemma StandAloneAttends(ep: EndPoint, env: Env)
    requires Core(ep) && Sound(ep.life) && IsConnected(ep.life) && AwaitsAck(ep)
    ensures Attentive(Settled(DriveStandAloneAck(ep, env), env))
  {
    if ep.link.ackPending || env.buffer {
      WantedKeeps(ep);
      WantedAttends(Wanted(ep), env);
    } else {
      AbortCloses(DriveStandAloneAck(ep, env).ep, CloseFlags(false, true), NoMemory, env);
    }
  }

  /** A stand-alone ack that is wanted goes out, unless the air or the window is closed. */
  lemma WantedAttends(ep: EndPoint, env: Env)
    requires Core(ep) && Sound(ep.life) && IsConnected(ep.life) && AwaitsAck(ep) && ep.link.ackPending
    ensures Attentive(Settled(DriveSending(ep, env), env))
  {
    var o := DriveSending(ep, env);
    if o.err != NoError {
      DriveErrorShuts(ep, env, o.err);
    } else if !Blocked(ep) {
      StandAloneAckSends(ep, env);
      SentIsAttentive(ep, o.ep);
    }
  }

  /** After a confirmation the air is free; an urgent ack goes out with the next fragment, or at once. */
  lemma ProceedAttends(ep: EndPoint, env: Env, waits: bool)
    requires Core(ep) && Sound(ep.life) && IsConnected(ep.life) && AwaitsAck(ep)
    requires waits <==> |ep.queue| > 0 || ep.engine.txState == InProgress
    ensures Attentive(Settled(Proceed(ep, env, waits), env))
  {
    if ep.link.local <= IMMEDIATE_ACK_THRESHOLD && !waits {
      StandAloneAttends(ep, env);
    } else if ep.link.local > IMMEDIATE_ACK_THRESHOLD || Blocked(ep) {
      DriveAttends(ep, env);
    } else {
      WaitingGoes(ep, env);
    }
  }

  lemma WaitingGoes(ep: EndPoint, env: Env)
    requires Core(ep) && Sound(ep.life) && IsConnected(ep.life) && !Blocked(ep)
    requires |ep.queue| > 0 || ep.engine.txState == InProgress
    ensures Attentive(Settled(DriveSending(ep, env), env))
  {
    var o := DriveSending(ep, env);
    if o.err != NoError {
      DriveErrorShuts(ep, env, o.err);
    } else {
      DriveSendingDrives(ep, env);
      if ep.link.ackPending {
        StandAloneAckSends(ep, env);
      } else {
        WorkIsSent(ep, env);
      }
      SentIsAttentive(ep, o.ep);
    }
  }

  // ---------- events ----------

  lemma EventAttends(ep: EndPoint, event: Event, env: Env)
    requires OpenAndGood(ep) && Attentive(ep) && Enabled(ep, event) && !event.PacketIn?
    ensures Attentive(Apply(ep, event, env))
  {
    match event
    case AppSend(m) => SendAttends(ep, m, env);
    case GattConfirmed => ConfirmAttends(ep, env);
    case GattSubscribed => SubscribedAttends(ep, env);
    case SendAckExpired => TimeoutAttends(ep, env);
    case AppClose(call) => CallAttends(ep, call, env);
    case AckWaitExpired => AckWaitShuts(ep, env);
    case _ => OutOfPlaceAttends(ep, event, env);
  }

  lemma OutOfPlaceAttends(ep: EndPoint, event: Event, env: Env)
    requires OpenAndGood(ep) && Attentive(ep) && Enabled(ep, event) && OutOfPlace(event)
    ensures Attentive(Apply(ep, event, env))
  {
    OutOfPlaceShuts(ep, event, env);
  }

  lemma SendAttends(ep: EndPoint, m: Message, env: Env)
    requires OpenAndGood(ep) && Attentive(ep)
    ensures Attentive(Send(ep, m, env))
  {
    if |m| > ep.config.capacity {
      AbortCloses(ep, CloseFlags(false, true), OutboundTooBig, env);
    } else {
      EnqueueKeeps(ep, m);
      DriveAttends(ep.(queue := ep.queue + [m], hist := ep.hist.(accepted := ep.hist.accepted + [m])), env);
    }
  }

  lemma ConfirmAttends(ep: EndPoint, env: Env)
    requires OpenAndGood(ep) && Attentive(ep) && Enabled(ep, GattConfirmed)
    ensures Attentive(Confirmed(ep, env))
  {
    if ep.capsConfirmed {
      LandedKeeps(ep);
      ProceedAttends(Landed(ep), env, |ep.queue| > 0 || ep.engine.txState == InProgress);
    } else {
      UnparkedKeeps(ep);
      ProceedAttends(Unparked(ep), env, |ep.queue| > 1);
    }
  }

  lemma SubscribedAttends(ep: EndPoint, env: Env)
    requires OpenAndGood(ep) && Attentive(ep) && Enabled(ep, GattSubscribed)
    ensures Attentive(SubscribeComplete(ep, env))
  {
    LandedKeeps(ep);
    DriveAttends(Landed(ep), env);
    if DriveSending(Landed(ep), env).err != NoError {
      DriveErrorShuts(Landed(ep), env, NoError);
    }
  }

  lemma TimeoutAttends(ep: EndPoint, env: Env)
    requires OpenAndGood(ep) && Attentive(ep)
    ensures Attentive(SendAckTimeout(ep, env))
  {
    if ep.link.sendAckTimer && !ep.link.ackInFlight {
      var ep1 := ep.(link := ep.link.(sendAckTimer := false));
      FlagsKeep(ep, ep1);
      StandAloneAttends(ep1, env);
    }
  }

  lemma CallAttends(ep: EndPoint, call: CloseCall, env: Env)
    requires OpenAndGood(ep) && Attentive(ep)
    ensures Attentive(AppCall(ep, call, env))
  {
    PerformSound(ep.life, call, ep.engine.txState == Idle, env.platform);
  }

  // ---------- packets ----------

  /** Taking a packet in leaves an end point that awaits an ack, unless that was the ack it awaited. */
  lemma TakenAwaits(ep: EndPoint, r: Received)
    requires OpenAndGood(ep) && Attentive(ep) && Accepts(ep, r)
    ensures r.ack.None? || !LastAckIn(After(ep, r)) ==> AwaitsAck(After(ep, r))
  {
  }

  /** The ack, if any, has been dealt with. An ack may have become urgent, which is seen to next. */
  lemma AckHandledAttends(ep: EndPoint, r: Received, env: Env)
    requires OpenAndGood(ep) && Attentive(ep) && Accepts(ep, r)
    requires var o := AckHandled(ep, r, env); o.err == NoError && IsConnected(o.ep.life)
    ensures Resting(AckHandled(ep, r, env).ep)
  {
    AfterKeeps(ep, r);
    TakenAwaits(ep, r);
    if r.ack.Some? {
      OnAckCases(ep, r, env);
      if LastAckIn(After(ep, r)) {
        TakenFinalizes(ep, r, env);
      } else {
        DriveRests(After(ep, r), env);
      }
    }
  }

  lemma AcknowledgeAttends(ep: EndPoint, env: Env)
    requires OpenAndGood(ep) && Resting(ep)
    ensures Attentive(Settled(Acknowledge(ep, env), env))
  {
    if HasUnackedData(ep.engine) {
      if ep.link.local <= IMMEDIATE_ACK_THRESHOLD && !ep.link.gattInFlight {
        StandAloneAttends(ep, env);
      } else if !ep.link.sendAckTimer && !env.sendAckTimer {
        AbortCloses(ep, CloseFlags(false, true), StartTimerFailed, env);
      }
    }
  }

  lemma ConcludeAttends(ep: EndPoint, env: Env)
    requires OpenAndGood(ep) && Resting(ep)
    ensures Attentive(Conclude(Outcome(ep, NoError), env, env))
  {
    AcknowledgeAttends(ep, env);
    var o := Acknowledge(ep, env);
    if o.err != NoError {
      AcknowledgeFails(ep, env);
    } else {
      HandUpAttends(o.ep);
    }
  }

  lemma HandUpAttends(ep: EndPoint)
    requires Attentive(ep)
    ensures Attentive(HandUp(ep))
  {
  }

  lemma PacketAttends(ep: EndPoint, data: Bytes, env: Env, env': Env)
    requires OpenAndGood(ep) && Attentive(ep) && HeaderPresent(data)
    ensures Attentive(ReceivePacket(ep, data, env, env'))
  {
    var r := Reply(ep, data, env);
    if r.err != NoError {
      RefusedMoves(ep, data, env, env');
    } else {
      ReplyAccepts(ep, data, env);
      TakenAttends(ep, data, r, env, env');
    }
  }

  lemma TakenAttends(ep: EndPoint, data: Bytes, r: Received, env: Env, env': Env)
    requires OpenAndGood(ep) && Attentive(ep) && HeaderPresent(data)
    requires r == Reply(ep, data, env) && r.err == NoError && Accepts(ep, r)
    ensures Attentive(ReceivePacket(ep, data, env, env'))
  {
    var o := AckHandled(ep, r, env);
    if o.err == NoError && o.ep.life.state == Closed {
      PacketFinalizes(ep, data, env, env');
    } else {
      PacketConcludes(ep, data, env, env');
      OpenAttends(ep, r, env, env');
    }
  }

  lemma OpenAttends(ep: EndPoint, r: Received, env: Env, env': Env)
    requires OpenAndGood(ep) && Attentive(ep) && Accepts(ep, r)
    requires var o := AckHandled(ep, r, env); o.err == NoError ==> o.ep.life.state != Closed
    ensures Attentive(Conclude(AckHandled(ep, r, env), env, env'))
  {
    var o := AckHandled(ep, r, env);
    if o.err != NoError {
      AckHandledFails(ep, r, env);
      AbortCloses(o.ep, CloseFlags(false, true), o.err, env);
    } else {
      StillOpen(ep, r, env);
      AckHandledAttends(ep, r, env);
      ConcludeAttends(o.ep, env');
      assert Conclude(o, env, env') == Conclude(Outcome(o.ep, NoError), env', env');
    }
  }

  // ---------- every run ----------

  lemma OpeningAttends(ep: EndPoint)
    requires OpensCentral(ep) || OpensPeripheral(ep)
    ensures Attentive(ep)
  {
  }

  lemma StepAttends(ep: EndPoint, event: Event, env: Env)
    requires EpInv(ep) && Attentive(ep) && Enabled(ep, event)
    ensures Attentive(Apply(ep, event, env))
  {
    if Rank(ep.life.state) < 3 {
      EarlyKeeps(ep, event, env);
      if IsConnected(Apply(ep, event, env).life) { OpeningAttends(Apply(ep, event, env)); }
    } else if ep.life.state == Closed {
      ClosedKeeps(ep, event, env);
    } else if event.PacketIn? {
      PacketAttends(ep, event.data, env, event.env');
    } else {
      EventAttends(ep, event, env);
    }
  }

  lemma {:induction false} RunAttends(ep: EndPoint, os: seq<Occurrence>, ep': EndPoint)
    requires EpInv(ep) && Attentive(ep) && Runs(ep, os, ep')
    ensures EpInv(ep') && Attentive(ep')
    decreases |os|
  {
    if |os| > 0 {
      EventSteps(ep, os[0].event, os[0].env);
      StepAttends(ep, os[0].event, os[0].env);
      RunAttends(Apply(ep, os[0].event, os[0].env), os[1..], ep');
    }
  }

  lemma ReachableAttends(ep: EndPoint)
    requires Reachable(ep)
    ensures EpInv(ep) && Attentive(ep)
  {
    var ep0, os :| IsNew(ep0) && Runs(ep0, os, ep);
    RunAttends(ep0, os, ep);
  }

  /**
   Acknowledgements never idle: in every reachable open state, an end point that owes an ack while its peer has at most
   one slot left, and has a free air, has itself at most one slot of the peer's window left.
   */
  lemma AcksNeverIdle(ep: EndPoint)
    requires Reachable(ep) && IsConnected(ep.life) && AckUrgent(ep) && !ep.link.gattInFlight
    ensures ep.link.remote <= NO_ACK_SEND_THRESHOLD
  {
    ReachableAttends(ep);
  }

  /**
   A lingering close never hangs: with a window of at least 2, an end point that is still closing has a message to send,
   or one it is sending, or an operation to be confirmed, or an ack to wait for.
   */
  lemma LingerNeverHangs(ep: EndPoint)
    requires Reachable(ep) && ep.life.state == Closing && ep.link.max >= 2
    ensures |ep.queue| > 0 || ep.engine.txState == InProgress || ep.link.gattInFlight || ep.engine.expectingAck
  {
    ReachableAttends(ep);
    if !ep.engine.expectingAck { OpenWindowUnblocks(ep); }
  }
}
