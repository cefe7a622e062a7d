/**
 Where the protocol code does less than it sets out to do, each with the exact condition under which it happens.
 `ShortfallRuns` has a run of normal use that gets to each.
 */
module Shortfalls {
  import opened Common
  import opened Fragments
  import opened BtpEngine
  import opened Numbering
  import opened Lifecycle
  import opened EndPointModel
  import opened EndPointInvariant
  import opened EndPointEvents
  import opened AckDuty
  import opened PairProgress
  import opened NeverIdle

  // ---------- the stale send-ack flag ----------

  /**
   On a platform that does what it is asked, the send path fails exactly when message data is to carry an ack and
   there is nothing to acknowledge.
   */
  lemma DriveFailsIff(ep: EndPoint, env: Env)
    requires Cooperates(env)
    ensures DriveSending(ep, env).err != NoError <==>
      !Blocked(ep) && !ep.link.ackPending && HasWork(ep) && ep.link.sendAckTimer && !HasUnackedData(ep.engine)
  {
    if !(ep.link.sendAckTimer && !HasUnackedData(ep.engine)) {
      DriveSucceeds(ep, env);
    }
  }

  /** Sending a stand-alone ack leaves the timer flag as it was, with nothing left to acknowledge. */
  lemma AckLeavesFlag(ep: EndPoint, ep': EndPoint, f: Fragment)
    requires Sends(ep, ep', f) && !f.HasData() && ep.link.sendAckTimer && ep.link.remote >= 2
    ensures ep'.link.sendAckTimer && !HasUnackedData(ep'.engine)
    ensures ep'.link.gattInFlight && ep'.link.ackInFlight && ep'.link.remote >= 1
      && ep'.capsConfirmed == ep.capsConfirmed
    ensures ep'.queue == ep.queue && ep'.engine.txState == ep.engine.txState && ep'.life == ep.life
  {
  }

  /**
   A stand-alone ack goes out while the timer flag is set behind it: the flag stays, with nothing left to
   acknowledge.
   */
  lemma ArmedAckLeavesFlag(ep: EndPoint, env: Env)
    requires OpenAndGood(ep) && Armed(ep) && ep.link.gattInFlight && ep.capsConfirmed && ep.link.remote >= 2
    requires Cooperates(env)
    ensures var o := DriveSending(Landed(ep), env);
      && o.err == NoError && OpenAndGood(o.ep) && o.ep.link.sendAckTimer && !HasUnackedData(o.ep.engine)
      && o.ep.link.gattInFlight && o.ep.link.ackInFlight && o.ep.link.remote >= 1 && o.ep.capsConfirmed
      && o.ep.queue == ep.queue && o.ep.engine.txState == ep.engine.txState && o.ep.life == ep.life
  {
    var ep1 := Landed(ep);
    LandedKeeps(ep);
    var o, f := DriveSending(ep1, env), StandAloneAck(ep1.engine.rxNewest, ep1.engine.txNext);
    assert o == DoSendStandAloneAck(ep1, env);
    StandAloneAckSends(ep1, env);
    AckLeavesFlag(ep1, o.ep, f);
    SendsKeeps(ep1, o.ep, f);
  }

  lemma FlagAborts(ep: EndPoint, env: Env)
    requires OpenAndGood(ep) && ep.link.gattInFlight && ep.link.ackInFlight && ep.capsConfirmed && HasWork(ep)
    requires Cooperates(env)
    requires ep.link.sendAckTimer && !HasUnackedData(ep.engine) && ep.link.remote >= 1
    ensures Confirmed(ep, env).life.state == Closed && !Confirmed(ep, env).life.graceful
  {
    var ep1 := Landed(ep);
    DriveFailsIff(ep1, env);
    var o := DriveSending(ep1, env);
    DriveFails(ep1, env);
    AbortCloses(o.ep, CloseFlags(false, true), o.err, env);
    assert Confirmed(ep, env) == Fail(o.ep, o.err, env);
  }

  /**
   An end point whose send-ack timer flag was set again while a stand-alone ack waits, and which has data to send,
   loses its connection: the next two confirmations close it, with no error from the platform or the peer.
   */
  lemma ArmedIsDoomed(ep: EndPoint, env: Env)
    requires OpenAndGood(ep) && Armed(ep) && ep.link.gattInFlight && ep.capsConfirmed && ep.link.remote >= 2
    requires HasWork(ep)
    requires Cooperates(env)
    ensures var ep1 := DriveSending(Landed(ep), env).ep;
      && ep1.capsConfirmed && Confirmed(ep1, env).life.state == Closed && !Confirmed(ep1, env).life.graceful
  {
    ArmedAckLeavesFlag(ep, env);
    FlagAborts(DriveSending(Landed(ep), env).ep, env);
  }

  /**
   When an ack goes out with nothing to acknowledge: exactly when it is a stand-alone ack for which nothing waits.
   One that rides on data never is.
   */
  lemma StaleIff(ep: EndPoint, ep': EndPoint, f: Fragment)
    requires Numbers(ep) && Sends(ep, ep', f) && !ep.hist.stale
    ensures ep'.hist.stale <==> !f.HasData() && Unacked(ep) == 0
  {
    if f.HasData() && f.ack.Some? {
      HasUnackedDataIff(ep.engine, ep.hist.rxA, RxN(ep));
    }
  }

  // ---------- closing with messages queued ----------

  /**
   Close drops accepted messages that never went out exactly when the fragmenter is idle and some are queued; with
   a message in the fragmenter it lingers instead.
   */
  lemma CloseDropsIff(ep: EndPoint, env: Env)
    requires OpenAndGood(ep) && ep.life.state == Connected
    ensures var ep' := AppCall(ep, CallClose, env);
      && (ep'.life.state == Closed <==> ep.engine.txState == Idle)
      && (ep'.life.state == Closed && Assemble(ep'.hist.log).done != ep'.hist.accepted
          <==> ep.engine.txState == Idle && |Waiting(ep)| > 0)
  {
    CloseUnfold(Prelude(ep.life, CallClose), ep.engine.txState == Idle, env.platform);
    var a := Assemble(ep.hist.log);
    if ep.engine.txState == Idle {
      assert Current(ep, a) == [];
      assert |ep.hist.accepted| == |a.done| + |Waiting(ep)|;
      if |Waiting(ep)| == 0 { assert ep.hist.accepted == a.done; }
    }
  }

  // ---------- a timeout that is ignored ----------

  /** Something will acknowledge what has arrived. */
  predicate Scheduled(ep: EndPoint) {
    Unacked(ep) > 0 ==> ep.link.sendAckTimer || AckWaits(ep)
  }

  /**
   The send-ack timeout leaves received fragments without any scheduled acknowledgement exactly when it strikes
   while a stand-alone ack is in flight.
   */
  lemma TimeoutForgetsIff(ep: EndPoint, env: Env)
    requires OpenAndGood(ep) && ep.link.sendAckTimer && Unacked(ep) > 0 && Cooperates(env)
    ensures var ep' := SendAckTimeout(ep, env); IsConnected(ep'.life) && (Scheduled(ep') <==> !ep.link.ackInFlight)
  {
    if !ep.link.ackInFlight {
      TimeoutSends(ep, env);
    }
  }

  lemma TimeoutSends(ep: EndPoint, env: Env)
    requires OpenAndGood(ep) && ep.link.sendAckTimer && !ep.link.ackInFlight && Cooperates(env)
    ensures var ep' := SendAckTimeout(ep, env); IsConnected(ep'.life) && Scheduled(ep')
  {
    if Blocked(Wanted(ep)) {
      assert SendAckTimeout(ep, env) == Wanted(ep);
    } else {
      StandAloneAckSends(Wanted(ep), env);
    }
  }

  // ---------- running on after a close ----------

  /** The ack just taken in lets the send path finalize a lingering close, and the handler does not notice. */
  predicate ClosesUnderway(ep: EndPoint, r: Received) {
    && ep.life.state == Closing && |ep.queue| == 0 && ep.engine.txState == Complete
    && var mid := After(ep, r); !mid.engine.expectingAck && !Blocked(mid) && !mid.link.ackPending
  }

  /** Exactly when that happens, among the acks after which the handler goes on. */
  lemma ClosesUnderwayIff(ep: EndPoint, r: Received, env: Env)
    requires OpenAndGood(ep) && Accepts(ep, r) && r.ack.Some? && Cooperates(env)
    requires HasUnackedData(After(ep, r).engine) && !LastAckIn(After(ep, r))
    ensures AckHandled(ep, r, env).err == NoError
    ensures AckHandled(ep, r, env).ep.life.state == Closed <==> ClosesUnderway(ep, r)
  {
    var mid := After(ep, r);
    AfterKeeps(ep, r);
    OnAckCases(ep, r, env);
    DriveSucceeds(mid, env);
    DriveSendingDrives(mid, env);
    if ClosesUnderway(ep, r) {
      FinalizeFinalizes(mid.(engine := ClearTx(mid.engine)), env);
    }
  }

  /** A handler has run on into an end point that was released, or set a timer of one that was closed. */
  predicate RanOn(ep: EndPoint) {
    ep.hist.faulted || (ep.life.state == Closed && ep.link.sendAckTimer)
  }

  /** What then happens to the closed end point `ep`. */
  lemma RunsOnInto(ep: EndPoint, ep1: EndPoint, env: Env, env': Env)
    requires Sound(ep.life) && Finalizes(ep, ep1) && HasUnackedData(ep1.engine) && Cooperates(env')
    ensures var ep' := Conclude(Outcome(ep1, NoError), env, env');
      if ep1.life.frees == 1 then ep'.hist.faulted
      else ep'.life.state == Closed && ep'.life.unsubscribeTimer && ep'.link.sendAckTimer
  {
    if ep1.life.frees == 0 {
      AcknowledgeWaits(ep1, env');
    }
  }

  lemma FinalizeKeepsOwed(ep: EndPoint, env: Env)
    ensures HasUnackedData(Finalize(ep, env).engine) == HasUnackedData(ep.engine)
  {
  }

  /** The end point that the ack allowed to close still owes an acknowledgement. */
  lemma StillOwes(ep: EndPoint, r: Received, env: Env)
    requires OpenAndGood(ep) && Accepts(ep, r) && r.ack.Some? && ClosesUnderway(ep, r)
    requires HasUnackedData(After(ep, r).engine)
    ensures var o := AckHandled(ep, r, env);
      o.err == NoError && HasUnackedData(o.ep.engine) && Finalizes(After(ep, r), o.ep)
  {
    var mid := After(ep, r);
    var cleared := mid.(engine := ClearTx(mid.engine));
    OnAckCases(ep, r, env);
    assert DriveSending(mid, env) == Outcome(Finalize(cleared, env), NoError);
    FinalizeKeepsOwed(cleared, env);
    FinalizeFinalizes(cleared, env);
  }

  /** As long as it stays open, nothing that an end point sends is a fault. */
  lemma DriveNoFault(ep: EndPoint, env: Env)
    requires Core(ep) && Sound(ep.life) && DriveSending(ep, env).err == NoError
    requires IsConnected(DriveSending(ep, env).ep.life)
    ensures DriveSending(ep, env).ep.hist.faulted == ep.hist.faulted
  {
    DriveSendingDrives(ep, env);
  }

  lemma AcknowledgeNoFault(ep: EndPoint, env: Env)
    requires OpenAndGood(ep) && Cooperates(env) && Acknowledge(ep, env).ep.life == ep.life
    ensures Acknowledge(ep, env).ep.hist.faulted == ep.hist.faulted
  {
    if HasUnackedData(ep.engine) && ep.link.local <= IMMEDIATE_ACK_THRESHOLD && !ep.link.gattInFlight {
      WantedKeeps(ep);
      StandAloneStaysOpen(ep, env);
      DriveNoFault(Wanted(ep), env);
    }
  }

  lemma ConcludeNoFault(ep: EndPoint, env: Env)
    requires OpenAndGood(ep) && Cooperates(env)
    ensures var ep' := Conclude(Outcome(ep, NoError), env, env);
      ep'.life == ep.life && ep'.hist.faulted == ep.hist.faulted
  {
    AcknowledgeStaysOpen(ep, env);
    AcknowledgeNoFault(ep, env);
  }

  lemma AckNoFault(ep: EndPoint, r: Received, env: Env)
    requires OpenAndGood(ep) && Accepts(ep, r)
    requires var o := AckHandled(ep, r, env); o.err == NoError && IsConnected(o.ep.life)
    ensures AckHandled(ep, r, env).ep.hist.faulted == ep.hist.faulted
  {
    if r.ack.Some? {
      AfterKeeps(ep, r);
      OnAckCases(ep, r, env);
      if LastAckIn(After(ep, r)) {
        TakenFinalizes(ep, r, env);
      } else {
        DriveNoFault(After(ep, r), env);
      }
    }
  }

  lemma LastAckEnds(ep: EndPoint, env: Env)
    requires Sound(ep.life) && ep.life.state == Closing
    ensures var ep' := Finalize(ep, env); ep'.hist == ep.hist && !ep'.link.sendAckTimer
  {
    FinalizeFinalizes(ep, env);
  }

  /**
   The handler of an accepted packet runs on into a closed end point exactly when the packet's ack lets the send path
   finalize a lingering close: the last message was already complete in the fragmenter, nothing is queued or waits,
   and the air is free. A released end point is then used again; one that waits for its unsubscribe has its send-ack
   timer set.
   */
  lemma RunsOnIff(ep: EndPoint, data: Bytes, env: Env, env': Env)
    requires OpenAndGood(ep) && !ep.hist.faulted && HeaderPresent(data) && Cooperates(env) && Cooperates(env')
    requires var r := Reply(ep, data, env); r.err == NoError && HasUnackedData(After(ep, r).engine)
    ensures var r := Reply(ep, data, env);
      RanOn(ReceivePacket(ep, data, env, env')) <==> r.ack.Some? && ClosesUnderway(ep, r)
  {
    var r := Reply(ep, data, env);
    ReplyAccepts(ep, data, env);
    var o := AckHandled(ep, r, env);
    AckHandledStaysOpen(ep, r, env);
    if r.ack.Some? && LastAckIn(After(ep, r)) {
      LastAckEnds(TimerStopped(Taken(ep, r)), env);
    } else if r.ack.Some? && ClosesUnderway(ep, r) {
      StillOwes(ep, r, env);
      RunsOnInto(After(ep, r), o.ep, env, env');
    } else {
      if r.ack.Some? { ClosesUnderwayIff(ep, r, env); }
      PacketConcludes(ep, data, env, env');
      StillOpen(ep, r, env);
      AckNoFault(ep, r, env);
      ConcludeNoFault(o.ep, env');
      assert Conclude(o, env, env') == Conclude(Outcome(o.ep, NoError), env', env');
    }
  }
}
