/**
 The send path never rests while it could go on: between events, an open end point with message data to send and a
 free air is held back by its peer's window alone.
 */
module NeverIdle {
  import opened Common
  import opened Fragments
  import opened BtpEngine
  import opened Lifecycle
  import opened EndPointModel
  import opened EndPointInvariant
  import opened EndPointEvents
  import opened EndPointEdges
  import opened PairRuns

  /** Message data could go out next. */
  predicate HasWork(ep: EndPoint) {
    ep.engine.txState == InProgress || (|ep.queue| > 0 && (ep.engine.txState == Idle || ep.engine.txState == Complete))
  }

  predicate Driven(ep: EndPoint) {
    HasWork(ep) && !ep.link.gattInFlight ==> ep.link.remote <= NO_ACK_SEND_THRESHOLD
  }

  predicate DrivenIfOpen(ep: EndPoint) {
    IsConnected(ep.life) ==> Driven(ep)
  }

  /** Driving the send path does what can be done, whatever state it starts from. */
  lemma DriveIsDone(ep: EndPoint, env: Env)
    requires Core(ep) && Sound(ep.life) && IsConnected(ep.life)
    ensures DrivenIfOpen(Settled(DriveSending(ep, env), env))
  {
    var o := DriveSending(ep, env);
    if o.err != NoError {
      DriveErrorShuts(ep, env, o.err);
    } else if !Blocked(ep) {
      UnblockedIsDone(ep, env);
    }
  }

  lemma UnblockedIsDone(ep: EndPoint, env: Env)
    requires Core(ep) && Sound(ep.life) && !Blocked(ep) && DriveSending(ep, env).err == NoError
    ensures DrivenIfOpen(DriveSending(ep, env).ep)
  {
    DriveSendingDrives(ep, env);
    var ep' := DriveSending(ep, env).ep;
    if IsConnected(ep'.life) && !SentOne(ep, ep') {
      if HasWork(ep) {
        WorkIsSent(ep, env);
      }
      assert Quiet(ep, ep') && !HasWork(ep');
    }
  }

  lemma WorkIsSent(ep: EndPoint, env: Env)
    requires Core(ep) && !Blocked(ep) && HasWork(ep) && !ep.link.ackPending && DriveSending(ep, env).err == NoError
    ensures DriveSending(ep, env).ep.link.gattInFlight
  {
    if ep.engine.txState == InProgress {
      ContinueSends(ep, env);
    } else if ep.engine.txState == Complete {
      NextMessageSends(ep.(engine := ClearTx(ep.engine)), env);
    } else {
      NextMessageSends(ep, env);
    }
  }

  lemma StandAloneIsDone(ep: EndPoint, env: Env)
    requires Core(ep) && Sound(ep.life) && IsConnected(ep.life)
    ensures DrivenIfOpen(Settled(DriveStandAloneAck(ep, env), env))
  {
    if ep.link.ackPending || env.buffer {
      WantedKeeps(ep);
      DriveIsDone(Wanted(ep), env);
    } else {
      AbortCloses(DriveStandAloneAck(ep, env).ep, CloseFlags(false, true), NoMemory, env);
    }
  }

  lemma ProceedIsDone(ep: EndPoint, env: Env, waits: bool)
    requires Core(ep) && Sound(ep.life) && IsConnected(ep.life)
    ensures DrivenIfOpen(Settled(Proceed(ep, env, waits), env))
  {
    StandAloneIsDone(ep, env);
    DriveIsDone(ep, env);
  }

  // ---------- events ----------

  lemma EventDriven(ep: EndPoint, event: Event, env: Env)
    requires OpenAndGood(ep) && Driven(ep) && Enabled(ep, event) && !event.PacketIn?
    ensures DrivenIfOpen(Apply(ep, event, env))
  {
    match event
    case AppSend(m) => SendDriven(ep, m, env);
    case GattConfirmed => ConfirmDriven(ep, env);
    case GattSubscribed => SubscribedDriven(ep, env);
    case SendAckExpired => TimeoutDriven(ep, env);
    case AppClose(call) => CallDriven(ep, call, env);
    case AckWaitExpired => AckWaitShuts(ep, env);
    case _ => OutOfPlaceShuts(ep, event, env);
  }

  lemma SendDriven(ep: EndPoint, m: Message, env: Env)
    requires OpenAndGood(ep)
    ensures DrivenIfOpen(Send(ep, m, env))
  {
    if |m| > ep.config.capacity {
      AbortCloses(ep, CloseFlags(false, true), OutboundTooBig, env);
    } else {
      EnqueueKeeps(ep, m);
      DriveIsDone(ep.(queue := ep.queue + [m], hist := ep.hist.(accepted := ep.hist.accepted + [m])), env);
    }
  }

  lemma ConfirmDriven(ep: EndPoint, env: Env)
    requires OpenAndGood(ep) && ep.link.gattInFlight
    ensures ep.capsConfirmed || |ep.queue| > 0
    ensures DrivenIfOpen(Confirmed(ep, env))
  {
    if ep.capsConfirmed {
      LandedKeeps(ep);
      ProceedIsDone(Landed(ep), env, |ep.queue| > 0 || ep.engine.txState == InProgress);
    } else {
      UnparkedKeeps(ep);
      ProceedIsDone(Unparked(ep), env, |ep.queue| > 1);
    }
  }

  lemma SubscribedDriven(ep: EndPoint, env: Env)
    requires OpenAndGood(ep) && ep.link.gattInFlight && ep.capsConfirmed && |ep.hist.log| == 0
    ensures DrivenIfOpen(SubscribeComplete(ep, env))
  {
    LandedKeeps(ep);
    DriveIsDone(Landed(ep), env);
    if DriveSending(Landed(ep), env).err != NoError {
      DriveErrorShuts(Landed(ep), env, NoError);
    }
  }

  lemma TimeoutDriven(ep: EndPoint, env: Env)
    requires OpenAndGood(ep) && Driven(ep)
    ensures DrivenIfOpen(SendAckTimeout(ep, env))
  {
    if ep.link.sendAckTimer && !ep.link.ackInFlight {
      var ep1 := ep.(link := ep.link.(sendAckTimer := false));
      FlagsKeep(ep, ep1);
      StandAloneIsDone(ep1, env);
    }
  }

  lemma CallDriven(ep: EndPoint, call: CloseCall, env: Env)
    requires OpenAndGood(ep) && Driven(ep)
    ensures DrivenIfOpen(AppCall(ep, call, env))
  {
    PerformSound(ep.life, call, ep.engine.txState == Idle, env.platform);
  }

  // ---------- packets ----------

  lemma AckHandledDriven(ep: EndPoint, r: Received, env: Env)
    requires OpenAndGood(ep) && Driven(ep) && Accepts(ep, r)
    requires var o := AckHandled(ep, r, env); o.err == NoError && IsConnected(o.ep.life)
    ensures Driven(AckHandled(ep, r, env).ep)
  {
    AfterKeeps(ep, r);
    if r.ack.Some? {
      OnAckCases(ep, r, env);
      if LastAckIn(After(ep, r)) {
        TakenFinalizes(ep, r, env);
      } else {
        DriveIsDone(After(ep, r), env);
      }
    }
  }

  lemma AcknowledgeDriven(ep: EndPoint, env: Env)
    requires OpenAndGood(ep) && Driven(ep)
    ensures DrivenIfOpen(Settled(Acknowledge(ep, env), env))
  {
    if HasUnackedData(ep.engine) {
      if ep.link.local <= IMMEDIATE_ACK_THRESHOLD && !ep.link.gattInFlight {
        StandAloneIsDone(ep, env);
      } else if !ep.link.sendAckTimer && !env.sendAckTimer {
        AbortCloses(ep, CloseFlags(false, true), StartTimerFailed, env);
      }
    }
  }

  lemma ConcludeDriven(ep: EndPoint, env: Env)
    requires OpenAndGood(ep) && Driven(ep)
    ensures DrivenIfOpen(Conclude(Outcome(ep, NoError), env, env))
  {
    AcknowledgeDriven(ep, env);
    var o := Acknowledge(ep, env);
    if o.err != NoError {
      AcknowledgeFails(ep, env);
    }
  }

  lemma PacketDriven(ep: EndPoint, data: Bytes, env: Env, env': Env)
    requires OpenAndGood(ep) && Driven(ep) && HeaderPresent(data)
    ensures DrivenIfOpen(ReceivePacket(ep, data, env, env'))
  {
    var r := Reply(ep, data, env);
    if r.err != NoError {
      RefusedMoves(ep, data, env, env');
    } else {
      ReplyAccepts(ep, data, env);
      TakenDriven(ep, data, r, env, env');
    }
  }

  lemma TakenDriven(ep: EndPoint, data: Bytes, r: Received, env: Env, env': Env)
    requires OpenAndGood(ep) && Driven(ep) && HeaderPresent(data)
    requires r == Reply(ep, data, env) && r.err == NoError && Accepts(ep, r)
    ensures DrivenIfOpen(ReceivePacket(ep, data, env, env'))
  {
    var o := AckHandled(ep, r, env);
    if o.err == NoError && o.ep.life.state == Closed {
      PacketFinalizes(ep, data, env, env');
    } else {
      PacketConcludes(ep, data, env, env');
      OpenDriven(ep, r, env, env');
    }
  }

  lemma OpenDriven(ep: EndPoint, r: Received, env: Env, env': Env)
    requires OpenAndGood(ep) && Driven(ep) && Accepts(ep, r)
    requires var o := AckHandled(ep, r, env); o.err == NoError ==> o.ep.life.state != Closed
    ensures DrivenIfOpen(Conclude(AckHandled(ep, r, env), env, env'))
  {
    var o := AckHandled(ep, r, env);
    if o.err != NoError {
      AckHandledFails(ep, r, env);
      AbortCloses(o.ep, CloseFlags(false, true), o.err, env);
    } else {
      StillOpen(ep, r, env);
      AckHandledDriven(ep, r, env);
      ConcludeDriven(o.ep, env');
      assert Conclude(o, env, env') == Conclude(Outcome(o.ep, NoError), env', env');
    }
  }

  // ---------- every run of a pair ----------

  predicate BothDriven(p: Pair) {
    DrivenIfOpen(p.a) && DrivenIfOpen(p.b)
  }

  lemma EventDrivenStep(x: EndPoint, event: Event, env: Env)
    requires Calm(x) && Sound(x.life) && DrivenIfOpen(x) && Rank(x.life.state) >= 3
    requires x.life.state == Closed ==> Dormant(x)
    requires Enabled(x, event) && !event.PacketIn?
    ensures DrivenIfOpen(Apply(x, event, env))
  {
    if IsConnected(x.life) {
      EventDriven(x, event, env);
    } else {
      ClosedApplies(x, event, env);
    }
  }

  lemma PacketDrivenStep(x: EndPoint, data: Bytes, env: Env, env': Env)
    requires Calm(x) && Sound(x.life) && DrivenIfOpen(x) && Rank(x.life.state) >= 3 && HeaderPresent(data)
    ensures DrivenIfOpen(ReceivePacket(x, data, env, env'))
  {
    if IsConnected(x.life) {
      PacketDriven(x, data, env, env');
    } else {
      ClosedPacket(x, data, env, env');
    }
  }

  lemma StepDriven(p: Pair, s: Step)
    requires LinkInv(p) && BothDriven(p) && CanStep(p, s)
    ensures BothDriven(Take(p, s))
  {
    match s
    case AtA(event, env) => EventDrivenStep(p.a, event, env);
    case AtB(event, env) => EventDrivenStep(p.b, event, env);
    case ToA(env, env') => PacketDrivenStep(p.a, p.b.hist.log[p.toA].Wire(), env, env');
    case ToB(env, env') => PacketDrivenStep(p.b, p.a.hist.log[p.toB].Wire(), env, env');
  }

  lemma {:induction false} RunDriven(p: Pair, steps: seq<Step>, q: Pair)
    requires LinkInv(p) && BothDriven(p) && Runs(p, steps, q)
    ensures BothDriven(q)
    decreases |steps|
  {
    if |steps| > 0 {
      StepLinks(p, steps[0]);
      StepDriven(p, steps[0]);
      RunDriven(Take(p, steps[0]), steps[1..], q);
    }
  }

  /**
   Sending never idles: in every state that a pair reaches, an open side that has message data to send and no
   operation in flight has at most one slot of the other side's window left.
   */
  lemma SendingNeverIdles(q: Pair)
    requires Reached(q)
    ensures BothDriven(q)
  {
    var p, steps :| Opening(p) && Runs(p, steps, q);
    OpeningLinks(p);
    RunDriven(p, steps, q);
  }
}
