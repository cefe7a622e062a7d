/**
 How far a pair still has to go, one side at a time: the message data a side has left to send, and a weight that
 confirmations and deliveries bring down as long as no data goes out.
 */
module Effects {
  import opened Common
  import opened Fragments
  import opened BtpEngine
  import opened Lifecycle
  import opened EndPointModel
  import opened EndPointInvariant
  import opened EndPointEvents
  import opened AckDuty
  import opened PairProgress
  import opened NeverIdle

  // ---------- measures ----------

  function QueueSize(queue: seq<Message>): nat {
    if |queue| == 0 then 0 else |queue[0]| + 1 + QueueSize(queue[1..])
  }

  /** Bytes and messages still to be sent. */
  function Remaining(ep: EndPoint): nat {
    QueueSize(Waiting(ep)) + (if ep.engine.txState == InProgress then |ep.engine.txLeft| else 0)
  }

  /** Fragments sent, fragments to acknowledge, and the operation in flight. */
  function Weight(ep: EndPoint): int {
    3 * |ep.hist.log| + 2 * Unacked(ep) + (if ep.link.gattInFlight then 1 else 0)
  }

  /** Data went out, or the weight grew by `w` at most. */
  predicate Small(ep: EndPoint, ep': EndPoint, w: int) {
    Remaining(ep') < Remaining(ep) || (Remaining(ep') == Remaining(ep) && Weight(ep') <= Weight(ep) + w)
  }

  /** A stand-alone ack waits only while the window is nearly used up, and without a timer behind it. */
  predicate Tidy(ep: EndPoint) {
    AckWaits(ep) ==> ep.link.local <= IMMEDIATE_ACK_THRESHOLD && !ep.link.sendAckTimer
  }

  /** An open side in normal use. */
  predicate Lively(ep: EndPoint) {
    && OpenAndGood(ep) && ep.life.state == Connected && Narrow(ep)
    && Fresh(ep) && Tidy(ep) && !ep.hist.stale && !ep.hist.lapsed
  }

  // ---------- sending ----------

  lemma SendsRemaining(ep: EndPoint, ep': EndPoint, f: Fragment)
    requires Core(ep) && Sends(ep, ep', f)
    ensures f.HasData() ==> Remaining(ep') < Remaining(ep)
    ensures !f.HasData() ==> Remaining(ep') == Remaining(ep) && Weight(ep') == Weight(ep) + 4 - 2 * Unacked(ep)
  {
    assert ep.capsConfirmed;
  }

  /** What a drive of the send path does: nothing, a fragment with data, or a stand-alone ack. */
  predicate DriveLeaves(ep: EndPoint, ep': EndPoint) {
    && ep'.life == ep.life && ep'.hist.accepted == ep.hist.accepted && (ep'.hist.lapsed ==> ep.hist.lapsed)
    && (Small(ep, ep', 0) || (ep.link.ackPending && Small(ep, ep', 4 - 2 * Unacked(ep))))
    && (Tidy(ep) ==> Tidy(ep'))
    && (ep'.link.gattInFlight && !ep.link.gattInFlight ==> !AckWaits(ep'))
  }

  lemma DriveEffect(ep: EndPoint, env: Env)
    requires Core(ep) && Sound(ep.life) && ep.life.state == Connected && DriveSending(ep, env).err == NoError
    ensures DriveLeaves(ep, DriveSending(ep, env).ep)
  {
    DriveSendingDrives(ep, env);
    DrivesEffect(ep, DriveSending(ep, env).ep);
  }

  lemma DrivesEffect(ep: EndPoint, ep': EndPoint)
    requires Core(ep) && ep.life.state == Connected && Drives(ep, ep')
    ensures DriveLeaves(ep, ep')
  {
    if SentOne(ep, ep') {
      SendsRemaining(ep, ep', ep'.hist.log[|ep'.hist.log| - 1]);
    } else {
      assert Quiet(ep, ep');
      assert Waiting(ep') == Waiting(ep) && Unacked(ep') == Unacked(ep);
    }
  }

  /** A window that is nearly used up leaves at least two fragments to acknowledge. */
  lemma UsedUp(ep: EndPoint)
    requires LocalSum(ep) && Narrow(ep) && ep.link.local <= IMMEDIATE_ACK_THRESHOLD
    ensures Unacked(ep) >= 2
  {
  }

  /** A side that waits with an ack, if at all, for a window that is nearly used up. */
  predicate Ripe(ep: EndPoint) {
    Tidy(ep) && Narrow(ep) && (ep.link.ackPending ==> AckWaits(ep)) && !ep.link.gattInFlight
  }

  /** What an event leaves of a side: still as it was, or a step on. */
  predicate Leaves(ep: EndPoint, ep': EndPoint, w: int) {
    && ep'.life == ep.life && ep'.hist.accepted == ep.hist.accepted && (ep'.hist.lapsed ==> ep.hist.lapsed)
    && Small(ep, ep', w) && Tidy(ep')
  }

  lemma RipeDrives(ep: EndPoint, env: Env)
    requires Core(ep) && Sound(ep.life) && ep.life.state == Connected && Ripe(ep) && Cooperates(env)
    requires ep.link.sendAckTimer ==> HasUnackedData(ep.engine)
    ensures var o := DriveSending(ep, env);
      o.err == NoError && Leaves(ep, o.ep, 0) && (o.ep.link.gattInFlight ==> !AckWaits(o.ep))
  {
    DriveSucceeds(ep, env);
    DriveEffect(ep, env);
    if ep.link.ackPending {
      UsedUp(ep);
    }
  }

  lemma WantedDrives(ep: EndPoint, env: Env)
    requires Core(ep) && Sound(ep.life) && ep.life.state == Connected && Ripe(ep) && Cooperates(env)
    requires ep.link.local <= IMMEDIATE_ACK_THRESHOLD && !ep.link.ackInFlight
    ensures var o := DriveStandAloneAck(ep, env); o.err == NoError && Leaves(ep, o.ep, 0)
  {
    WantedKeeps(ep);
    RipeDrives(Wanted(ep), env);
    assert Waiting(Wanted(ep)) == Waiting(ep) && Unacked(Wanted(ep)) == Unacked(ep);
  }

  lemma ProceedEffect(ep: EndPoint, env: Env, waits: bool)
    requires Core(ep) && Sound(ep.life) && ep.life.state == Connected && Ripe(ep) && Cooperates(env)
    requires (ep.link.sendAckTimer ==> HasUnackedData(ep.engine)) && !ep.link.ackInFlight
    ensures var o := Proceed(ep, env, waits); o.err == NoError && Leaves(ep, o.ep, 0)
  {
    if ep.link.local <= IMMEDIATE_ACK_THRESHOLD && !waits {
      WantedDrives(ep, env);
    } else {
      RipeDrives(ep, env);
    }
  }

  // ---------- a confirmation ----------

  /** The event that confirms the operation in flight. */
  function Confirmation(ep: EndPoint): Event {
    if ep.capsConfirmed && ep.life.central && |ep.hist.log| == 0 then GattSubscribed else GattConfirmed
  }

  lemma LandedRipe(ep: EndPoint)
    requires Lively(ep) && ep.link.gattInFlight && ep.capsConfirmed
    ensures var ep1 := Landed(ep);
      && Core(ep1) && Ripe(ep1) && !ep1.link.ackInFlight && Remaining(ep1) == Remaining(ep)
      && Weight(ep1) == Weight(ep) - 1
  {
    LandedKeeps(ep);
    assert Waiting(Landed(ep)) == Waiting(ep) && Unacked(Landed(ep)) == Unacked(ep);
  }

  lemma UnparkedRipe(ep: EndPoint)
    requires Lively(ep) && !ep.capsConfirmed
    ensures var ep1 := Unparked(ep);
      && Core(ep1) && Ripe(ep1) && !ep1.link.ackInFlight && Remaining(ep1) == Remaining(ep)
      && Weight(ep1) == Weight(ep) - 1
  {
    UnparkedKeeps(ep);
    assert Waiting(Unparked(ep)) == Waiting(ep) && Unacked(Unparked(ep)) == Unacked(ep);
  }

  /** A confirmation is a step on: data goes out, or the weight comes down. */
  lemma ConfirmEffect(ep: EndPoint, env: Env)
    requires Lively(ep) && ep.link.gattInFlight && Cooperates(env)
    ensures Enabled(ep, Confirmation(ep)) && Ordinary(ep, Confirmation(ep))
    ensures Leaves(ep, Apply(ep, Confirmation(ep), env), -1)
  {
    if ep.capsConfirmed {
      FragmentEffect(ep, env);
    } else {
      HandshakeEffect(ep, env);
    }
  }

  lemma FragmentEffect(ep: EndPoint, env: Env)
    requires Lively(ep) && ep.link.gattInFlight && ep.capsConfirmed && Cooperates(env)
    ensures Enabled(ep, Confirmation(ep)) && Ordinary(ep, Confirmation(ep))
    ensures Leaves(ep, Apply(ep, Confirmation(ep), env), -1)
  {
    FreshMeansUnacked(ep);
    LandedRipe(ep);
    var ep1 := Landed(ep);
    ProceedEffect(ep1, env, |ep.queue| > 0 || ep.engine.txState == InProgress);
    RipeDrives(ep1, env);
    LandedApplies(ep, env);
  }

  lemma HandshakeEffect(ep: EndPoint, env: Env)
    requires Lively(ep) && ep.link.gattInFlight && !ep.capsConfirmed && Cooperates(env)
    ensures Enabled(ep, Confirmation(ep)) && Ordinary(ep, Confirmation(ep))
    ensures Leaves(ep, Apply(ep, Confirmation(ep), env), -1)
  {
    FreshMeansUnacked(ep);
    UnparkedRipe(ep);
    ProceedEffect(Unparked(ep), env, |ep.queue| > 1);
    UnparkedApplies(ep, env);
  }

  lemma LandedApplies(ep: EndPoint, env: Env)
    requires Lively(ep) && ep.link.gattInFlight && ep.capsConfirmed
    requires var ep1, waits := Landed(ep), |ep.queue| > 0 || ep.engine.txState == InProgress;
      Proceed(ep1, env, waits).err == NoError && DriveSending(ep1, env).err == NoError
    ensures var ep1, waits := Landed(ep), |ep.queue| > 0 || ep.engine.txState == InProgress;
      Enabled(ep, Confirmation(ep)) &&
      Apply(ep, Confirmation(ep), env) in {Proceed(ep1, env, waits).ep, DriveSending(ep1, env).ep}
  {
  }

  lemma UnparkedApplies(ep: EndPoint, env: Env)
    requires Lively(ep) && ep.link.gattInFlight && !ep.capsConfirmed && |ep.queue| > 0
    requires Proceed(Unparked(ep), env, |ep.queue| > 1).err == NoError
    ensures Enabled(ep, GattConfirmed) && Apply(ep, GattConfirmed, env) == Proceed(Unparked(ep), env, |ep.queue| > 1).ep
  {
  }

  // ---------- a delivery ----------

  /** The engine took a packet, and there is room in the window for it. */
  predicate TakesIn(ep: EndPoint, r: Received) {
    Accepts(ep, r) && HasUnackedData(After(ep, r).engine) && Unacked(ep) + 1 <= ep.link.max
  }

  lemma TakenRipe(ep: EndPoint, r: Received)
    requires Lively(ep) && !ep.link.gattInFlight && TakesIn(ep, r)
    ensures var mid := After(ep, r);
      && Core(mid) && Ripe(mid) && mid.life == ep.life && mid.hist.accepted == ep.hist.accepted
      && mid.hist.lapsed == ep.hist.lapsed && Remaining(mid) == Remaining(ep) && Weight(mid) == Weight(ep) + 2
  {
    AfterKeeps(ep, r);
    var mid := After(ep, r);
    assert Waiting(mid) == Waiting(ep) && Unacked(mid) == Unacked(ep) + 1;
    LocalIs(ep);
    LocalIs(mid);
  }

  lemma LocalIs(ep: EndPoint)
    requires LocalSum(ep) && 0 <= Unacked(ep) <= ep.link.max
    ensures ep.link.local == ep.link.max - Unacked(ep)
  {
  }

  lemma AckEffect(ep: EndPoint, r: Received, env: Env)
    requires Lively(ep) && !ep.link.gattInFlight && TakesIn(ep, r) && Cooperates(env)
    ensures var o := AckHandled(ep, r, env);
      o.err == NoError && Leaves(ep, o.ep, 2) && (o.ep.link.gattInFlight ==> !AckWaits(o.ep))
  {
    TakenRipe(ep, r);
    RipeDrives(After(ep, r), env);
    if r.ack.Some? {
      OnAckCases(ep, r, env);
    }
  }

  lemma AcknowledgeEffect(ep: EndPoint, env: Env)
    requires OpenAndGood(ep) && ep.life.state == Connected && Narrow(ep) && Tidy(ep) && Cooperates(env)
    requires ep.link.gattInFlight ==> !AckWaits(ep)
    ensures var o := Acknowledge(ep, env); o.err == NoError && Leaves(ep, o.ep, 0)
  {
    if HasUnackedData(ep.engine) {
      if ep.link.local <= IMMEDIATE_ACK_THRESHOLD && !ep.link.gattInFlight {
        WantedDrives(ep, env);
      } else {
        TimerEffect(ep, env);
      }
    }
  }

  lemma TimerEffect(ep: EndPoint, env: Env)
    requires Tidy(ep) && (ep.link.local <= IMMEDIATE_ACK_THRESHOLD ==> ep.link.gattInFlight) && Cooperates(env)
    requires ep.link.gattInFlight ==> !AckWaits(ep)
    ensures var o := StartSendAckTimer(ep, env); o.err == NoError && Leaves(ep, o.ep, 0)
  {
    var ep' := StartSendAckTimer(ep, env).ep;
    assert Waiting(ep') == Waiting(ep) && Unacked(ep') == Unacked(ep);
  }

  lemma HandUpEffect(ep: EndPoint)
    requires Tidy(ep)
    ensures Leaves(ep, HandUp(ep), 0)
  {
    var ep' := HandUp(ep);
    assert Waiting(ep') == Waiting(ep) && Unacked(ep') == Unacked(ep);
  }

  lemma ConcludeEffect(ep: EndPoint, env: Env)
    requires OpenAndGood(ep) && ep.life.state == Connected && Narrow(ep) && Tidy(ep) && Cooperates(env)
    requires ep.link.gattInFlight ==> !AckWaits(ep)
    ensures Leaves(ep, Conclude(Outcome(ep, NoError), env, env), 0)
  {
    AcknowledgeEffect(ep, env);
    HandUpEffect(Acknowledge(ep, env).ep);
  }

  /** Taking in a fragment adds the one to acknowledge, unless data goes out. */
  lemma DeliverEffect(ep: EndPoint, data: Bytes, env: Env)
    requires Lively(ep) && !ep.link.gattInFlight && HeaderPresent(data) && Cooperates(env)
    requires var r := Reply(ep, data, env); r.err == NoError && TakesIn(ep, r)
    requires Narrow(AckHandled(ep, Reply(ep, data, env), env).ep)
    ensures Leaves(ep, ReceivePacket(ep, data, env, env), 2)
  {
    var r := Reply(ep, data, env);
    var o := AckHandled(ep, r, env);
    AckEffect(ep, r, env);
    StillOpen(ep, r, env);
    PacketConcludes(ep, data, env, env);
    ConcludeEffect(o.ep, env);
    assert Conclude(o, env, env) == Conclude(Outcome(o.ep, NoError), env, env);
  }

  // ---------- when data does go out ----------

  /** With a free air, an open window and no ack waiting, work goes out. */
  lemma WorkGoesOut(ep: EndPoint, env: Env)
    requires Core(ep) && Sound(ep.life) && ep.life.state == Connected && Ripe(ep) && Cooperates(env)
    requires (ep.link.sendAckTimer ==> HasUnackedData(ep.engine)) && !ep.link.ackPending && HasWork(ep)
      && ep.link.remote >= 2
    ensures var o := DriveSending(ep, env);
      o.err == NoError && Leaves(ep, o.ep, 0) && Remaining(o.ep) < Remaining(ep) && !AckWaits(o.ep)
  {
    RipeDrives(ep, env);
    DriveSendingDrives(ep, env);
    WorkIsSent(ep, env);
    var ep' := DriveSending(ep, env).ep;
    assert SentOne(ep, ep');
    SendsRemaining(ep, ep', ep'.hist.log[|ep'.hist.log| - 1]);
  }

  /** The ack in flight of a side with work is confirmed, and the work goes on. */
  lemma ConfirmSends(ep: EndPoint, env: Env)
    requires Lively(ep) && ep.link.ackInFlight && HasWork(ep) && ep.link.remote >= 2 && Cooperates(env)
    ensures ep.link.gattInFlight && Confirmation(ep) == GattConfirmed && Enabled(ep, GattConfirmed)
    ensures Remaining(Apply(ep, GattConfirmed, env)) < Remaining(ep)
  {
    FreshMeansUnacked(ep);
    LandedRipe(ep);
    WorkGoesOut(Landed(ep), env);
    assert Apply(ep, GattConfirmed, env) == DriveSending(Landed(ep), env).ep;
  }

  /** A side with work whose ack is on the air, and whose window is open behind it. */
  predicate Poised(ep: EndPoint) {
    ep.link.gattInFlight && ep.link.ackInFlight && HasWork(ep) && ep.link.remote >= 2
  }

  /** A side that waited with an ack for its window sends the ack first. */
  lemma WaitingAckGoesOut(ep: EndPoint, env: Env)
    requires Core(ep) && Sound(ep.life) && ep.life.state == Connected && Ripe(ep) && Cooperates(env)
    requires ep.link.ackPending && HasWork(ep) && ep.link.remote >= 3
    ensures var o := DriveSending(ep, env);
      o.err == NoError && Poised(o.ep) && !HasUnackedData(o.ep.engine) && o.ep.life == ep.life
  {
    StandAloneAckSends(ep, env);
    assert DriveSending(ep, env) == DoSendStandAloneAck(ep, env);
    DriveSucceedsPlainly(ep, env);
  }

  lemma DriveSucceedsPlainly(ep: EndPoint, env: Env)
    requires ep.link.ackPending && !Blocked(ep) && Cooperates(env)
    ensures DriveSending(ep, env).err == NoError
  {
  }

  /** An ack that opens the window of a blocked side sets it going again. */
  lemma ReliefSends(ep: EndPoint, data: Bytes, env: Env)
    requires Lively(ep) && !ep.link.gattInFlight && HasWork(ep) && HeaderPresent(data) && Cooperates(env)
    requires var r := Reply(ep, data, env);
      r.err == NoError && TakesIn(ep, r) && r.ack.Some? && After(ep, r).link.remote == ep.link.max
    requires Narrow(AckHandled(ep, Reply(ep, data, env), env).ep)
    ensures var ep' := ReceivePacket(ep, data, env, env); Remaining(ep') < Remaining(ep) || Poised(ep')
  {
    var r := Reply(ep, data, env);
    var mid, o := After(ep, r), AckHandled(ep, r, env);
    TakenRipe(ep, r);
    OnAckCases(ep, r, env);
    AckEffect(ep, r, env);
    StillOpen(ep, r, env);
    PacketConcludes(ep, data, env, env);
    assert Conclude(o, env, env) == Conclude(Outcome(o.ep, NoError), env, env);
    if mid.link.ackPending {
      WaitingAckGoesOut(mid, env);
      NothingOwed(o.ep, env);
    } else {
      WorkGoesOut(mid, env);
      ConcludeEffect(o.ep, env);
    }
  }

  lemma NothingOwed(ep: EndPoint, env: Env)
    requires Poised(ep) && !HasUnackedData(ep.engine) && ep.life.frees == 0
    ensures Poised(Conclude(Outcome(ep, NoError), env, env))
  {
  }

  /** One more fragment is on the air, and it acknowledges all that was received. */
  predicate AckedAll(ep: EndPoint, ep': EndPoint) {
    && |ep'.hist.log| == |ep.hist.log| + 1 && ep'.hist.log[|ep.hist.log|].ack.Some? && Unacked(ep') == 0
  }

  /** Nothing was sent, the air is free, and something is to be acknowledged. */
  predicate StillOwing(ep: EndPoint, ep': EndPoint) {
    ep'.hist.log == ep.hist.log && !ep'.link.gattInFlight && ep'.link.remote > 0 && Unacked(ep') > 0
  }

  /** What a drive with a window that is open leaves: data went out, an ack did, or nothing could. */
  lemma OpenDrives(ep: EndPoint, env: Env)
    requires Core(ep) && Sound(ep.life) && ep.life.state == Connected && Ripe(ep) && Cooperates(env)
    requires (ep.link.sendAckTimer ==> HasUnackedData(ep.engine)) && ep.link.remote >= 3
    ensures var o := DriveSending(ep, env);
      || Remaining(o.ep) < Remaining(ep)
      || (AckedAll(ep, o.ep) && !HasUnackedData(o.ep.engine))
      || (Quiet(ep, o.ep) && o.ep.link == ep.link && !ep.link.ackPending)
  {
    if ep.link.ackPending {
      StandAloneAckSends(ep, env);
      DriveSucceedsPlainly(ep, env);
    } else {
      RipeDrives(ep, env);
      DriveSendingDrives(ep, env);
      var ep' := DriveSending(ep, env).ep;
      if SentOne(ep, ep') {
        SendsRemaining(ep, ep', ep'.hist.log[|ep'.hist.log| - 1]);
      }
    }
  }

  lemma OwedSends(ep: EndPoint, env: Env)
    requires Core(ep) && !ep.link.gattInFlight && ep.link.remote >= 3 && Cooperates(env)
    ensures var o := DriveStandAloneAck(ep, env);
      o.err == NoError && AckedAll(ep, o.ep) && !HasUnackedData(o.ep.engine) && o.ep.life == ep.life
  {
    var ep1 := Wanted(ep);
    StandAloneAckSends(ep1, env);
    DriveSucceedsPlainly(ep1, env);
    assert DriveStandAloneAck(ep, env) == DoSendStandAloneAck(ep1, env);
  }

  lemma OwedConcludes(ep: EndPoint, env: Env)
    requires OpenAndGood(ep) && ep.life.state == Connected && Narrow(ep) && Cooperates(env)
    requires !ep.link.gattInFlight && ep.link.remote >= 3 && Unacked(ep) > 0
    ensures var ep' := Conclude(Outcome(ep, NoError), env, env); AckedAll(ep, ep') || StillOwing(ep, ep')
  {
    NarrowUnacked(ep);
    if ep.link.local <= IMMEDIATE_ACK_THRESHOLD {
      OwedSends(ep, env);
      AckedHandsUp(ep, DriveStandAloneAck(ep, env).ep);
    } else {
      OwedWaits(ep, StartSendAckTimer(ep, env).ep, env);
    }
  }

  lemma AckedHandsUp(ep: EndPoint, ep1: EndPoint)
    requires AckedAll(ep, ep1)
    ensures AckedAll(ep, HandUp(ep1))
  {
    assert Unacked(HandUp(ep1)) == Unacked(ep1);
  }

  lemma OwedWaits(ep: EndPoint, ep1: EndPoint, env: Env)
    requires !ep.link.gattInFlight && ep.link.remote >= 3 && Unacked(ep) > 0
    requires ep1 == StartSendAckTimer(ep, env).ep
    ensures StillOwing(ep, HandUp(ep1))
  {
    assert Unacked(HandUp(ep1)) == Unacked(ep1) == Unacked(ep);
  }

  lemma DoneConcludes(ep: EndPoint, ep0: EndPoint, env: Env)
    requires AckedAll(ep0, ep) && !HasUnackedData(ep.engine) && ep.life.frees == 0
    ensures AckedAll(ep0, Conclude(Outcome(ep, NoError), env, env))
  {
    AckedHandsUp(ep0, ep);
  }

  /** An ack that opens the window fully: data goes out, everything is acknowledged, or it can be by timeout. */
  lemma OpeningEffect(ep: EndPoint, data: Bytes, env: Env)
    requires Lively(ep) && !ep.link.gattInFlight && HeaderPresent(data) && Cooperates(env)
    requires var r := Reply(ep, data, env);
      r.err == NoError && TakesIn(ep, r) && r.ack.Some? && After(ep, r).link.remote == ep.link.max
    requires Narrow(AckHandled(ep, Reply(ep, data, env), env).ep)
    ensures var ep' := ReceivePacket(ep, data, env, env);
      Remaining(ep') < Remaining(ep) || AckedAll(ep, ep') || StillOwing(ep, ep')
  {
    var r := Reply(ep, data, env);
    var mid, o := After(ep, r), AckHandled(ep, r, env);
    TakenRipe(ep, r);
    OnAckCases(ep, r, env);
    AckEffect(ep, r, env);
    StillOpen(ep, r, env);
    PacketConcludes(ep, data, env, env);
    assert Conclude(o, env, env) == Conclude(Outcome(o.ep, NoError), env, env);
    OpenDrives(mid, env);
    OpeningConcludes(ep, mid, o.ep, env);
  }

  lemma OpeningConcludes(ep: EndPoint, mid: EndPoint, ep1: EndPoint, env: Env)
    requires ep.life.state == Connected && mid.hist.log == ep.hist.log && Unacked(mid) == Unacked(ep) + 1 > 0
    requires !mid.link.gattInFlight && mid.link.remote >= 3
    requires OpenAndGood(ep1) && Leaves(ep, ep1, 2) && (ep1.link.gattInFlight ==> !AckWaits(ep1))
    requires ep1.life == ep.life && Narrow(ep1) && Cooperates(env)
    requires Remaining(mid) == Remaining(ep)
    requires || Remaining(ep1) < Remaining(mid)
      || (AckedAll(mid, ep1) && !HasUnackedData(ep1.engine))
      || (Quiet(mid, ep1) && ep1.link == mid.link && !mid.link.ackPending)
    ensures var ep' := Conclude(Outcome(ep1, NoError), env, env);
      Remaining(ep') < Remaining(ep) || AckedAll(ep, ep') || StillOwing(ep, ep')
  {
    if Remaining(ep1) < Remaining(mid) {
      ConcludeEffect(ep1, env);
    } else if AckedAll(mid, ep1) && !HasUnackedData(ep1.engine) {
      DoneConcludes(ep1, ep, env);
    } else {
      assert Unacked(ep1) == Unacked(ep) + 1;
      OwedConcludes(ep1, env);
    }
  }

  /** Behind a closed window a confirmation sends nothing. */
  lemma ConfirmRests(ep: EndPoint, env: Env)
    requires Lively(ep) && ep.link.ackInFlight && HasWork(ep) && ep.link.remote == 0
    ensures ep.link.gattInFlight && Confirmation(ep) == GattConfirmed && Enabled(ep, GattConfirmed)
    ensures Apply(ep, GattConfirmed, env) == Landed(ep) && HasWork(Landed(ep))
  {
  }
}
