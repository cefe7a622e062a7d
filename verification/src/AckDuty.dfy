/**
 The duty to acknowledge. `Promised` says that whatever has arrived will be acknowledged; `Fresh` says that
 nothing is scheduled to acknowledge when nothing has. The first is lost only by a timeout that the source
 ignores; the second only by a stand-alone ack that goes out while the send-ack timer flag is set.
 */
module AckDuty {
  import opened Common
  import opened Fragments
  import opened BtpEngine
  import opened Numbering
  import opened Lifecycle
  import opened EndPointModel
  import opened EndPointInvariant
  import opened EndPointEvents

  /** A stand-alone ack is waiting to go out. */
  predicate AckWaits(ep: EndPoint) {
    ep.link.ackPending && !ep.link.ackInFlight
  }

  predicate Promised(ep: EndPoint) {
    Unacked(ep) > 0 && !ep.hist.lapsed ==> ep.link.sendAckTimer || AckWaits(ep)
  }

  predicate Fresh(ep: EndPoint) {
    (ep.link.sendAckTimer ==> Unacked(ep) > 0) && (AckWaits(ep) ==> Unacked(ep) > 0)
  }

  /** A stand-alone ack waits, and the send-ack timer flag was set again behind it. */
  predicate Armed(ep: EndPoint) {
    AckWaits(ep) && ep.link.sendAckTimer
  }

  /** Few enough fragments wait for the 8-bit tests to be right. */
  predicate Narrow(ep: EndPoint) {
    0 <= Unacked(ep) <= 0xff && ep.link.max >= 3
  }

  // ---------- sending ----------

  lemma SendsPromised(ep: EndPoint, ep': EndPoint, f: Fragment)
    requires Promised(ep) && Air(ep) && Sends(ep, ep', f)
    ensures Promised(ep')
  {
  }

  /**
   Exactly when freshness is lost: from a fresh end point, sending one fragment leaves it fresh if and only if
   the fragment was not a stand-alone ack sent with the timer flag set; and such a send never was a stale ack.
   */
  lemma SendsFreshIff(ep: EndPoint, ep': EndPoint, f: Fragment)
    requires Fresh(ep) && Air(ep) && Sends(ep, ep', f)
    ensures ep'.hist.stale == ep.hist.stale
    ensures Fresh(ep') <==> !Armed(ep)
  {
  }

  lemma DrivesDuty(ep: EndPoint, ep': EndPoint)
    requires Core(ep) && Drives(ep, ep') && ep'.life.state != Closed
    ensures Promised(ep) ==> Promised(ep')
    ensures Fresh(ep) && !Armed(ep) ==> Fresh(ep') && ep'.hist.stale == ep.hist.stale
  {
    if SentOne(ep, ep') {
      var f := ep'.hist.log[|ep'.hist.log| - 1];
      if Promised(ep) { SendsPromised(ep, ep', f); }
      if Fresh(ep) { SendsFreshIff(ep, ep', f); }
    }
  }

  /** What a drive of the send path leaves of the duty, if it leaves the end point open. */
  predicate DutyKept(ep: EndPoint, ep': EndPoint) {
    IsConnected(ep'.life) ==>
      && (Promised(ep) ==> Promised(ep'))
      && (Fresh(ep) && !Armed(ep) ==> Fresh(ep') && ep'.hist.stale == ep.hist.stale)
  }

  lemma DriveDuty(ep: EndPoint, env: Env)
    requires Core(ep) && Sound(ep.life) && IsConnected(ep.life)
    ensures DutyKept(ep, Settled(DriveSending(ep, env), env))
  {
    var o := DriveSending(ep, env);
    DriveSendingDrives(ep, env);
    if o.err == NoError {
      if o.ep.life.state != Closed {
        DrivesDuty(ep, o.ep);
      }
    } else {
      DriveErrorShuts(ep, env, o.err);
    }
  }

  /** Wanting a stand-alone ack keeps the duty when there is something to acknowledge. */
  lemma StandAloneDuty(ep: EndPoint, env: Env)
    requires Core(ep) && Sound(ep.life) && IsConnected(ep.life) && !ep.link.ackInFlight && Unacked(ep) > 0
    ensures var ep' := Settled(DriveStandAloneAck(ep, env), env);
      IsConnected(ep'.life) ==> Promised(ep') && Fresh(ep') && ep'.hist.stale == ep.hist.stale
  {
    if ep.link.ackPending || env.buffer {
      WantedKeeps(ep);
      DriveDuty(Wanted(ep), env);
    } else {
      AbortCloses(DriveStandAloneAck(ep, env).ep, CloseFlags(false, true), NoMemory, env);
    }
  }

  /** A window that is nearly used up means that something is unacknowledged. */
  lemma NearlyUsedUp(ep: EndPoint)
    requires LocalSum(ep) && Narrow(ep) && ep.link.local <= IMMEDIATE_ACK_THRESHOLD
    ensures Unacked(ep) > 0
  {
  }

  lemma ProceedDuty(ep: EndPoint, env: Env, waits: bool)
    requires Core(ep) && Sound(ep.life) && IsConnected(ep.life) && Narrow(ep) && !ep.link.gattInFlight
    ensures DutyKept(ep, Settled(Proceed(ep, env, waits), env))
  {
    if ep.link.local <= IMMEDIATE_ACK_THRESHOLD && !waits {
      NearlyUsedUp(ep);
      StandAloneDuty(ep, env);
    } else {
      DriveDuty(ep, env);
    }
  }

  // ---------- events ----------

  /** The duty is kept by an event if it holds before it. */
  lemma EventDuty(ep: EndPoint, event: Event, env: Env)
    requires OpenAndGood(ep) && Narrow(ep) && Enabled(ep, event) && !event.PacketIn?
    ensures DutyKept(ep, Apply(ep, event, env))
  {
    match event
    case AppSend(m) => SendDuty(ep, m, env);
    case GattConfirmed => ConfirmDuty(ep, env);
    case GattSubscribed => SubscribedDuty(ep, env);
    case SendAckExpired => TimeoutDuty(ep, env);
    case AppClose(call) => CallDuty(ep, call, env);
    case AckWaitExpired => AckWaitShuts(ep, env);
    case _ => OutOfPlaceShuts(ep, event, env);
  }

  lemma SendDuty(ep: EndPoint, m: Message, env: Env)
    requires OpenAndGood(ep)
    ensures DutyKept(ep, Send(ep, m, env))
  {
    if |m| > ep.config.capacity {
      AbortCloses(ep, CloseFlags(false, true), OutboundTooBig, env);
    } else {
      EnqueueKeeps(ep, m);
      DriveDuty(ep.(queue := ep.queue + [m], hist := ep.hist.(accepted := ep.hist.accepted + [m])), env);
    }
  }

  lemma ConfirmDuty(ep: EndPoint, env: Env)
    requires OpenAndGood(ep) && Narrow(ep) && ep.link.gattInFlight
    ensures ep.capsConfirmed || |ep.queue| > 0
    ensures DutyKept(ep, Confirmed(ep, env))
  {
    if ep.capsConfirmed {
      FragmentConfirmDuty(ep, env);
    } else {
      UnparkedKeeps(ep);
      ProceedDuty(Unparked(ep), env, |ep.queue| > 1);
    }
  }

  lemma FragmentConfirmDuty(ep: EndPoint, env: Env)
    requires OpenAndGood(ep) && Narrow(ep) && ep.link.gattInFlight && ep.capsConfirmed
    ensures DutyKept(ep, Confirmed(ep, env))
  {
    LandedKeeps(ep);
    ConfirmedProceeds(ep, env);
    ProceedDuty(Landed(ep), env, |ep.queue| > 0 || ep.engine.txState == InProgress);
  }

  lemma SubscribedDuty(ep: EndPoint, env: Env)
    requires OpenAndGood(ep) && ep.link.gattInFlight && ep.capsConfirmed && |ep.hist.log| == 0
    ensures DutyKept(ep, SubscribeComplete(ep, env))
  {
    LandedKeeps(ep);
    var o := DriveSending(Landed(ep), env);
    DriveDuty(Landed(ep), env);
    if o.err != NoError {
      DriveErrorShuts(Landed(ep), env, NoError);
    }
  }

  lemma TimeoutDuty(ep: EndPoint, env: Env)
    requires OpenAndGood(ep)
    ensures DutyKept(ep, SendAckTimeout(ep, env))
  {
    if ep.link.sendAckTimer && !ep.link.ackInFlight {
      var ep1 := ep.(link := ep.link.(sendAckTimer := false));
      FlagsKeep(ep, ep1);
      if Unacked(ep) > 0 {
        StandAloneDuty(ep1, env);
      } else {
        IdleTimeoutDuty(ep1, env);
      }
    }
  }

  lemma IdleTimeoutDuty(ep: EndPoint, env: Env)
    requires Core(ep) && Sound(ep.life) && IsConnected(ep.life) && Unacked(ep) <= 0 && !ep.link.ackInFlight
    ensures var ep' := Settled(DriveStandAloneAck(ep, env), env); IsConnected(ep'.life) ==> Promised(ep')
  {
    if ep.link.ackPending || env.buffer {
      WantedKeeps(ep);
      DriveDuty(Wanted(ep), env);
    } else {
      AbortCloses(DriveStandAloneAck(ep, env).ep, CloseFlags(false, true), NoMemory, env);
    }
  }

  lemma CallDuty(ep: EndPoint, call: CloseCall, env: Env)
    requires OpenAndGood(ep)
    ensures DutyKept(ep, AppCall(ep, call, env))
  {
    PerformSound(ep.life, call, ep.engine.txState == Idle, env.platform);
    SettleDuty(ep, Perform(ep.life, call, ep.engine.txState == Idle, env.platform));
  }

  lemma SettleDuty(ep: EndPoint, l: Life)
    requires l.central == ep.life.central && ep.life.state != Closed
    ensures DutyKept(ep, Settle(ep, l))
  {
    if l.state != Closed {
      assert Settle(ep, l) == ep.(life := l);
      assert Unacked(ep.(life := l)) == Unacked(ep);
    }
  }

  // ---------- packets ----------

  lemma AfterFresh(ep: EndPoint, r: Received)
    requires Numbers(ep) && Accepts(ep, r)
    ensures var mid := After(ep, r);
      Fresh(mid) && (Armed(mid) <==> Armed(ep)) && mid.hist.stale == ep.hist.stale && mid.life == ep.life
  {
    assert Unacked(After(ep, r)) == Unacked(ep) + 1;
  }

  lemma AckHandledDuty(ep: EndPoint, r: Received, env: Env)
    requires OpenAndGood(ep) && Accepts(ep, r) && !Armed(ep)
    requires var o := AckHandled(ep, r, env); o.err == NoError && IsConnected(o.ep.life)
    ensures var o := AckHandled(ep, r, env); Fresh(o.ep) && o.ep.hist.stale == ep.hist.stale
  {
    AfterFresh(ep, r);
    AfterKeeps(ep, r);
    if r.ack.Some? {
      OnAckCases(ep, r, env);
      OutcomeDuty(ep, r, AckHandled(ep, r, env), env);
    }
  }

  lemma OutcomeDuty(ep: EndPoint, r: Received, o: Outcome, env: Env)
    requires OpenAndGood(ep) && Core(After(ep, r)) && Fresh(After(ep, r)) && !Armed(After(ep, r))
    requires o.err == NoError && IsConnected(o.ep.life)
    requires o == DriveSending(After(ep, r), env)
      || (LastAckIn(After(ep, r)) && o.ep == Finalize(TimerStopped(Taken(ep, r)), env))
    ensures Fresh(o.ep) && o.ep.hist.stale == After(ep, r).hist.stale
  {
    if o == DriveSending(After(ep, r), env) {
      DriveDuty(After(ep, r), env);
    } else {
      TakenFinalizes(ep, r, env);
    }
  }

  lemma AcknowledgeDuty(ep: EndPoint, env: Env)
    requires OpenAndGood(ep) && Narrow(ep)
    ensures var ep' := Settled(Acknowledge(ep, env), env);
      IsConnected(ep'.life) ==> Promised(ep') && (Fresh(ep) ==> Fresh(ep') && ep'.hist.stale == ep.hist.stale)
  {
    HasUnackedDataIff(ep.engine, ep.hist.rxA, RxN(ep));
    if HasUnackedData(ep.engine) {
      if ep.link.local <= IMMEDIATE_ACK_THRESHOLD && !ep.link.gattInFlight {
        StandAloneDuty(ep, env);
      } else {
        TimerDuty(ep, env);
      }
    }
  }

  lemma TimerDuty(ep: EndPoint, env: Env)
    requires OpenAndGood(ep) && Unacked(ep) > 0
    ensures var ep' := Settled(StartSendAckTimer(ep, env), env);
      IsConnected(ep'.life) ==> Promised(ep') && (Fresh(ep) ==> Fresh(ep') && ep'.hist.stale == ep.hist.stale)
  {
    if !ep.link.sendAckTimer && !env.sendAckTimer {
      AbortCloses(ep, CloseFlags(false, true), StartTimerFailed, env);
    }
  }

  lemma HandUpDuty(ep: EndPoint)
    ensures var ep' := HandUp(ep);
      && Promised(ep) == Promised(ep') && Fresh(ep) == Fresh(ep') && ep'.hist.stale == ep.hist.stale
      && ep'.life == ep.life
  {
    assert Unacked(HandUp(ep)) == Unacked(ep);
  }

  /** After a packet everything that has arrived will be acknowledged, and freshness survives unless it was armed. */
  lemma PacketDuty(ep: EndPoint, data: Bytes, env: Env, env': Env)
    requires OpenAndGood(ep) && HeaderPresent(data) && Reply(ep, data, env).err == NoError
    requires var o := AckHandled(ep, Reply(ep, data, env), env);
      o.err == NoError && IsConnected(o.ep.life) ==> Narrow(o.ep)
    ensures var ep' := ReceivePacket(ep, data, env, env');
      IsConnected(ep'.life) ==> Promised(ep') && (!Armed(ep) ==> Fresh(ep') && ep'.hist.stale == ep.hist.stale)
  {
    var r := Reply(ep, data, env);
    ReplyAccepts(ep, data, env);
    var o := AckHandled(ep, r, env);
    if o.err == NoError && o.ep.life.state == Closed {
      PacketFinalizes(ep, data, env, env');
    } else {
      PacketConcludes(ep, data, env, env');
      if o.err != NoError {
        AckHandledFails(ep, r, env);
        AbortCloses(o.ep, CloseFlags(false, true), o.err, env);
      } else {
        StillOpen(ep, r, env);
        OpenPacketDuty(ep, r, env, env');
      }
    }
  }

  lemma OpenPacketDuty(ep: EndPoint, r: Received, env: Env, env': Env)
    requires OpenAndGood(ep) && Accepts(ep, r)
    requires var o := AckHandled(ep, r, env); o.err == NoError && o.ep.life.state != Closed && Narrow(o.ep)
    ensures var ep' := Conclude(AckHandled(ep, r, env), env, env');
      IsConnected(ep'.life) ==> Promised(ep') && (!Armed(ep) ==> Fresh(ep') && ep'.hist.stale == ep.hist.stale)
  {
    var o := AckHandled(ep, r, env);
    StillOpen(ep, r, env);
    if !Armed(ep) {
      AckHandledDuty(ep, r, env);
    }
    ConcludeDuty(o.ep, env');
    assert Conclude(o, env, env') == Conclude(Outcome(o.ep, NoError), env', env');
  }

  lemma ConcludeDuty(ep: EndPoint, env: Env)
    requires OpenAndGood(ep) && Narrow(ep)
    ensures var ep' := Conclude(Outcome(ep, NoError), env, env);
      IsConnected(ep'.life) ==> Promised(ep') && (Fresh(ep) ==> Fresh(ep') && ep'.hist.stale == ep.hist.stale)
  {
    AcknowledgeDuty(ep, env);
    var o := Acknowledge(ep, env);
    if o.err == NoError {
      HandUpDuty(o.ep);
    } else {
      AcknowledgeFails(ep, env);
    }
  }
}
