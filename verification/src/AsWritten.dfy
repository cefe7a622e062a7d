/**
 The window arithmetic as the source has it gives away one slot too many when a sequence number has wrapped past
 an ack. The two sides still never wedge: a side can use the extra slot only in a stretch of fragments that
 carries two acks, and the first of them already frees its peer.
 */
module AsWritten {
  import opened Common
  import opened Fragments
  import opened BtpEngine
  import opened Numbering
  import opened Windows
  import opened Lifecycle
  import opened EndPointModel
  import opened EndPointInvariant
  import opened EndPointEvents
  import opened AckDuty

  lemma NextPageIs(n: nat)
    ensures n <= NextPage(n) < n + 0x100 && NextPage(n) % 0x100 == 0
  {
  }

  /** The index of the last fragment that carries an ack, or -1. */
  function LastAck(log: seq<Fragment>): (i: int)
    ensures -1 <= i < |log|
  {
    if |log| == 0 then -1
    else if log[|log| - 1].ack.Some? then |log| - 1
    else LastAck(log[..|log| - 1])
  }

  /** The index of the last but one, or -1. */
  function AckBefore(log: seq<Fragment>): (i: int)
    ensures -1 <= i < |log| || (i == -1)
  {
    if LastAck(log) <= 0 then -1 else LastAck(log[..LastAck(log)])
  }

  lemma LastAckExtend(log: seq<Fragment>, f: Fragment)
    ensures LastAck(log + [f]) == if f.ack.Some? then |log| else LastAck(log)
    ensures f.ack.Some? ==> AckBefore(log + [f]) == LastAck(log)
  {
    assert (log + [f])[..|log|] == log;
    if f.ack.Some? && |log| == 0 {
      assert LastAck(log) == -1;
    }
  }

  /** Whether the window counter stands one too high. */
  predicate Inflated(ep: EndPoint) {
    ep.link.remote + Outstanding(ep) == ep.link.max + 1
  }

  /** The number of the fragment at index `i` of the log. */
  function NumberOf(ep: EndPoint, i: int): int {
    TxBase(ep.life.central) + i
  }

  /**
   How far a side has come since the page boundary among its outstanding fragments without sending an ack; `room`
   is how many more fragments the extra slot would allow.
   */
  predicate Paced(ep: EndPoint, room: int) {
    var t, n, b := ep.hist.txA, TxN(ep), NextPage(ep.hist.txA);
    var acked := NumberOf(ep, LastAck(ep.hist.log)) > b;
    && (Inflated(ep) && !acked ==> Unacked(ep) > 0 && n - b <= ep.link.max - room)
    && (!Inflated(ep) && t < b < n && !acked ==> n - b <= ep.link.max - 2)
    && (Inflated(ep) && Outstanding(ep) == ep.link.max + 1 && t == b ==> NumberOf(ep, AckBefore(ep.hist.log)) > b)
  }

  predicate Written(ep: EndPoint) {
    && ep.config.offset == AS_WRITTEN && 3 <= ep.link.max <= 0xfe
    && RemoteSum(ep) && ep.hist.txA <= TxN(ep)
  }

  // ---------- sending ----------

  /** Sending with an ack: the boundary now has an ack behind it. */
  lemma SendsAckPaced(ep: EndPoint, ep': EndPoint, f: Fragment)
    requires Written(ep) && Written(ep') && Paced(ep, 1) && Sends(ep, ep', f) && f.ack.Some?
    ensures Paced(ep', 1)
  {
    LastAckExtend(ep.hist.log, f);
    NextPageIs(ep.hist.txA);
    assert TxN(ep') == TxN(ep) + 1;
  }

  /** Sending without one, when nothing waits to be acknowledged. */
  lemma SendsPlainPaced(ep: EndPoint, ep': EndPoint, f: Fragment)
    requires Written(ep) && Written(ep') && Paced(ep, 1) && Sends(ep, ep', f) && f.ack.None? && Unacked(ep) <= 0
    ensures Paced(ep', 1)
  {
    LastAckExtend(ep.hist.log, f);
    NextPageIs(ep.hist.txA);
    assert TxN(ep') == TxN(ep) + 1;
  }

  /** Sending without one, right after a packet was taken in by a side that had nothing to acknowledge. */
  lemma SendsAtOncePaced(ep: EndPoint, ep': EndPoint, f: Fragment)
    requires Written(ep) && Written(ep') && Paced(ep, 2) && Sends(ep, ep', f) && f.ack.None? && Unacked(ep) > 0
    ensures Paced(ep', 1)
  {
    LastAckExtend(ep.hist.log, f);
    NextPageIs(ep.hist.txA);
    assert TxN(ep') == TxN(ep) + 1;
  }

  // ---------- receiving ----------

  /** With an ack taken in, the window stands one too high exactly if a page boundary is left among the outstanding. */
  lemma AfterInflated(ep: EndPoint, r: Received)
    requires Numbers(ep) && Written(ep) && Accepts(ep, r) && r.ack.Some?
    ensures var mid := After(ep, r);
      && ep.hist.txA < mid.hist.txA <= TxN(ep) && (Inflated(mid) <==> NextPage(mid.hist.txA) < TxN(ep))
  {
    var ack, txA := r.ack.value, ep.hist.txA;
    AcceptAckRep(ep.engine, txA, TxN(ep), ack);
    var acked := Lift(txA, ack);
    LiftResidue(txA, ack);
    assert AfterAck(txA, ack) == acked + 1;
    AdjustIsWithinOne(acked, TxN(ep) - 1, ep.link.max, ep.config.offset);
  }

  /** A later start has the same page boundary ahead, or one beyond all that is outstanding. */
  lemma SamePage(t: nat, t': nat, n: nat)
    requires t < t' <= n <= t + 0xff && NextPage(t') < n
    ensures NextPage(t') == NextPage(t) && t < NextPage(t)
  {
  }

  lemma AfterAckPaced(ep: EndPoint, r: Received)
    requires Numbers(ep) && Written(ep) && Accepts(ep, r) && r.ack.Some? && Paced(ep, 1)
    ensures Paced(After(ep, r), if Unacked(ep) > 0 then 1 else 2)
  {
    AfterInflated(ep, r);
    var mid := After(ep, r);
    assert TxN(mid) == TxN(ep) && mid.hist.log == ep.hist.log && Unacked(mid) == Unacked(ep) + 1;
    if NextPage(mid.hist.txA) < TxN(ep) {
      SamePage(ep.hist.txA, mid.hist.txA, TxN(ep));
    }
  }

  lemma AfterPaced(ep: EndPoint, r: Received)
    requires Numbers(ep) && Written(ep) && Accepts(ep, r) && Paced(ep, 1)
    ensures Paced(After(ep, r), if Unacked(ep) > 0 then 1 else 2)
  {
    if r.ack.Some? {
      AfterAckPaced(ep, r);
    } else {
      var mid := After(ep, r);
      assert TxN(mid) == TxN(ep) && Unacked(mid) == Unacked(ep) + 1;
    }
  }

  // ---------- events ----------

  /** Nothing that pacing looks at differs. */
  predicate SameView(ep: EndPoint, ep': EndPoint) {
    && ep'.config == ep.config && ep'.link.max == ep.link.max && ep'.link.remote == ep.link.remote
    && ep'.life.central == ep.life.central && ep'.hist.log == ep.hist.log && ep'.hist.received == ep.hist.received
    && ep'.hist.txA == ep.hist.txA && ep'.hist.rxA == ep.hist.rxA
    && (ep.hist.strayed ==> ep'.hist.strayed)
  }

  /** On pace, unless a fragment once went out without the ack it owed. */
  predicate InStep(ep: EndPoint) {
    ep.hist.strayed || Paced(ep, 1)
  }

  lemma SameViewInStep(ep: EndPoint, ep': EndPoint)
    requires SameView(ep, ep') && InStep(ep)
    ensures InStep(ep')
  {
    assert TxN(ep') == TxN(ep) && Unacked(ep') == Unacked(ep) && Outstanding(ep') == Outstanding(ep);
  }

  /** The window the negotiation settled on, in the code as written. */
  predicate Setting(ep: EndPoint) {
    ep.config.offset == AS_WRITTEN && 3 <= ep.link.max <= 0xfe
  }

  /**
   A fragment without ack goes out only with nothing to acknowledge, with room to spare, or as the mark of straying.
   */
  predicate Cleared(ep: EndPoint) {
    !ep.link.sendAckTimer && !ep.link.ackPending && !ep.hist.lapsed ==>
      Unacked(ep) <= 0 || Paced(ep, 2) || ep.hist.strayed
  }

  lemma SentPaced(ep: EndPoint, ep': EndPoint)
    requires Core(ep) && Numbers(ep') && Setting(ep) && InStep(ep) && Cleared(ep) && SentOne(ep, ep')
    ensures InStep(ep')
  {
    var f := ep'.hist.log[|ep'.hist.log| - 1];
    if ep'.hist.strayed {
    } else if f.ack.Some? {
      SendsAckPaced(ep, ep', f);
    } else if Unacked(ep) <= 0 {
      SendsPlainPaced(ep, ep', f);
    } else {
      SendsAtOncePaced(ep, ep', f);
    }
  }

  lemma DrivesPaced(ep: EndPoint, ep': EndPoint)
    requires Core(ep) && Setting(ep) && InStep(ep) && Cleared(ep) && Drives(ep, ep') && ep'.life.state != Closed
    ensures InStep(ep')
  {
    if SentOne(ep, ep') {
      DrivesKeeps(ep, ep');
      SentPaced(ep, ep');
    } else {
      SameViewInStep(ep, ep');
    }
  }

  predicate PacedIfOpen(ep: EndPoint) {
    IsConnected(ep.life) ==> InStep(ep)
  }

  /** An open end point in order, in the code as written, and paced. */
  predicate OnPace(ep: EndPoint) {
    Core(ep) && Sound(ep.life) && IsConnected(ep.life) && Setting(ep) && InStep(ep)
  }

  lemma DrivePaced(ep: EndPoint, env: Env)
    requires OnPace(ep) && Cleared(ep)
    ensures PacedIfOpen(Settled(DriveSending(ep, env), env))
  {
    var o := DriveSending(ep, env);
    DriveSendingDrives(ep, env);
    if o.err == NoError {
      if o.ep.life.state != Closed {
        DrivesPaced(ep, o.ep);
      }
    } else {
      DriveErrorShuts(ep, env, o.err);
    }
  }

  lemma StandAlonePaced(ep: EndPoint, env: Env)
    requires OnPace(ep)
    ensures PacedIfOpen(Settled(DriveStandAloneAck(ep, env), env))
  {
    if ep.link.ackPending || env.buffer {
      WantedKeeps(ep);
      SameViewInStep(ep, Wanted(ep));
      DrivePaced(Wanted(ep), env);
    } else {
      AbortCloses(DriveStandAloneAck(ep, env).ep, CloseFlags(false, true), NoMemory, env);
    }
  }

  lemma ProceedPaced(ep: EndPoint, env: Env, waits: bool)
    requires OnPace(ep) && Cleared(ep)
    ensures PacedIfOpen(Settled(Proceed(ep, env, waits), env))
  {
    if ep.link.local <= IMMEDIATE_ACK_THRESHOLD && !waits {
      StandAlonePaced(ep, env);
    } else {
      DrivePaced(ep, env);
    }
  }

  lemma PreparedPaced(ep: EndPoint, ep1: EndPoint)
    requires OnPace(ep) && Prepares(ep, ep1) && Core(ep1)
    ensures OnPace(ep1)
  {
    SameViewInStep(ep, ep1);
  }

  lemma SendPaced(ep: EndPoint, m: Message, env: Env)
    requires OnPace(ep) && HeldBack(ep) && Promised(ep)
    ensures PacedIfOpen(Send(ep, m, env))
  {
    if |m| > ep.config.capacity {
      AbortCloses(ep, CloseFlags(false, true), OutboundTooBig, env);
    } else {
      EnqueueKeeps(ep, m);
      var ep1 := ep.(queue := ep.queue + [m], hist := ep.hist.(accepted := ep.hist.accepted + [m]));
      PreparedPaced(ep, ep1);
      DrivePaced(ep1, env);
    }
  }

  lemma ConfirmPaced(ep: EndPoint, env: Env)
    requires OnPace(ep) && HeldBack(ep) && Promised(ep) && ep.link.gattInFlight
    ensures ep.capsConfirmed || |ep.queue| > 0
    ensures PacedIfOpen(Confirmed(ep, env))
  {
    if ep.capsConfirmed {
      LandedKeeps(ep);
      PreparedPaced(ep, Landed(ep));
      ProceedPaced(Landed(ep), env, |ep.queue| > 0 || ep.engine.txState == InProgress);
    } else {
      UnparkedKeeps(ep);
      PreparedPaced(ep, Unparked(ep));
      ProceedPaced(Unparked(ep), env, |ep.queue| > 1);
    }
  }

  lemma SubscribedPaced(ep: EndPoint, env: Env)
    requires OnPace(ep) && HeldBack(ep) && Promised(ep) && ep.link.gattInFlight && ep.capsConfirmed
    requires |ep.hist.log| == 0
    ensures PacedIfOpen(SubscribeComplete(ep, env))
  {
    LandedKeeps(ep);
    PreparedPaced(ep, Landed(ep));
    var o := DriveSending(Landed(ep), env);
    DrivePaced(Landed(ep), env);
    if o.err != NoError {
      DriveErrorShuts(Landed(ep), env, NoError);
    }
  }

  lemma TimeoutPaced(ep: EndPoint, env: Env)
    requires OnPace(ep)
    ensures PacedIfOpen(SendAckTimeout(ep, env))
  {
    if ep.link.sendAckTimer && ep.link.ackInFlight {
      SameViewInStep(ep, SendAckTimeout(ep, env));
    } else if ep.link.sendAckTimer {
      var ep1 := ep.(link := ep.link.(sendAckTimer := false));
      FlagsKeep(ep, ep1);
      PreparedPaced(ep, ep1);
      StandAlonePaced(ep1, env);
    }
  }

  lemma CallPaced(ep: EndPoint, call: CloseCall, env: Env)
    requires OnPace(ep)
    ensures PacedIfOpen(AppCall(ep, call, env))
  {
    PerformSound(ep.life, call, ep.engine.txState == Idle, env.platform);
    SettlePaced(ep, Perform(ep.life, call, ep.engine.txState == Idle, env.platform));
  }

  lemma SettlePaced(ep: EndPoint, l: Life)
    requires l.central == ep.life.central && ep.life.state != Closed && InStep(ep)
    ensures PacedIfOpen(Settle(ep, l))
  {
    if l.state != Closed {
      assert Settle(ep, l) == ep.(life := l);
      SameViewInStep(ep, ep.(life := l));
    }
  }

  /** Every event of an open end point that has promised to acknowledge keeps it on pace. */
  lemma EventPaced(ep: EndPoint, event: Event, env: Env)
    requires OnPace(ep) && Good(ep) && Promised(ep) && Enabled(ep, event) && !event.PacketIn?
    ensures PacedIfOpen(Apply(ep, event, env))
  {
    match event
    case AppSend(m) => SendPaced(ep, m, env);
    case GattConfirmed => ConfirmPaced(ep, env);
    case GattSubscribed => SubscribedPaced(ep, env);
    case SendAckExpired => TimeoutPaced(ep, env);
    case AppClose(call) => CallPaced(ep, call, env);
    case AckWaitExpired => AckWaitShuts(ep, env);
    case _ => OutOfPlaceShuts(ep, event, env);
  }

  // ---------- packets ----------

  lemma TakenOnPace(ep: EndPoint, r: Received)
    requires OnPace(ep) && Good(ep) && Accepts(ep, r) && Promised(ep)
    ensures OnPace(After(ep, r)) && Cleared(After(ep, r))
  {
    AfterKeeps(ep, r);
    if !ep.hist.strayed {
      AfterPaced(ep, r);
    }
  }

  lemma AckHandledPaced(ep: EndPoint, r: Received, env: Env)
    requires OnPace(ep) && Good(ep) && Accepts(ep, r) && Promised(ep)
    requires var o := AckHandled(ep, r, env); o.err == NoError && IsConnected(o.ep.life)
    ensures InStep(AckHandled(ep, r, env).ep)
  {
    TakenOnPace(ep, r);
    if r.ack.Some? {
      OnAckCases(ep, r, env);
      OutcomePaced(ep, r, AckHandled(ep, r, env), env);
    }
  }

  lemma OutcomePaced(ep: EndPoint, r: Received, o: Outcome, env: Env)
    requires OnPace(After(ep, r)) && Cleared(After(ep, r)) && o.err == NoError && IsConnected(o.ep.life)
    requires Sound(ep.life)
    requires o == DriveSending(After(ep, r), env)
      || (LastAckIn(After(ep, r)) && o.ep == Finalize(TimerStopped(Taken(ep, r)), env))
    ensures InStep(o.ep)
  {
    if o == DriveSending(After(ep, r), env) {
      DrivePaced(After(ep, r), env);
    } else {
      TakenFinalizes(ep, r, env);
    }
  }

  lemma AcknowledgePaced(ep: EndPoint, env: Env)
    requires OnPace(ep) && Good(ep)
    ensures PacedIfOpen(Settled(Acknowledge(ep, env), env))
  {
    if HasUnackedData(ep.engine) {
      if ep.link.local <= IMMEDIATE_ACK_THRESHOLD && !ep.link.gattInFlight {
        StandAlonePaced(ep, env);
      } else {
        TimerPaced(ep, env);
      }
    }
  }

  lemma TimerPaced(ep: EndPoint, env: Env)
    requires Sound(ep.life) && InStep(ep)
    ensures PacedIfOpen(Settled(StartSendAckTimer(ep, env), env))
  {
    if ep.link.sendAckTimer {
      assert StartSendAckTimer(ep, env).ep == ep;
    } else if env.sendAckTimer {
      SameViewInStep(ep, ep.(link := ep.link.(sendAckTimer := true), hist := ep.hist.(lapsed := false)));
    } else {
      AbortCloses(ep, CloseFlags(false, true), StartTimerFailed, env);
    }
  }

  lemma ConcludePaced(ep: EndPoint, env: Env)
    requires OnPace(ep) && Good(ep)
    ensures PacedIfOpen(Conclude(Outcome(ep, NoError), env, env))
  {
    AcknowledgePaced(ep, env);
    var o := Acknowledge(ep, env);
    if o.err == NoError {
      AcknowledgeStays(ep, env);
      SameViewInStep(o.ep, HandUp(o.ep));
    } else {
      AcknowledgeFails(ep, env);
    }
  }

  lemma PacketPaced(ep: EndPoint, data: Bytes, env: Env, env': Env)
    requires OnPace(ep) && Good(ep) && HeaderPresent(data) && Promised(ep)
    ensures PacedIfOpen(ReceivePacket(ep, data, env, env'))
  {
    var r := Reply(ep, data, env);
    if r.err != NoError {
      RefusedMoves(ep, data, env, env');
    } else {
      ReplyAccepts(ep, data, env);
      TakenPaced(ep, data, r, env, env');
    }
  }

  lemma TakenPaced(ep: EndPoint, data: Bytes, r: Received, env: Env, env': Env)
    requires OnPace(ep) && Good(ep) && HeaderPresent(data) && r == Reply(ep, data, env) && r.err == NoError
    requires Accepts(ep, r) && Promised(ep)
    ensures PacedIfOpen(ReceivePacket(ep, data, env, env'))
  {
    var o := AckHandled(ep, r, env);
    if o.err == NoError && o.ep.life.state == Closed {
      PacketFinalizes(ep, data, env, env');
    } else {
      PacketConcludes(ep, data, env, env');
      OpenPaced(ep, r, env, env');
    }
  }

  lemma OpenPaced(ep: EndPoint, r: Received, env: Env, env': Env)
    requires OnPace(ep) && Good(ep) && Accepts(ep, r) && Promised(ep)
    requires var o := AckHandled(ep, r, env); o.err == NoError ==> o.ep.life.state != Closed
    ensures PacedIfOpen(Conclude(AckHandled(ep, r, env), env, env'))
  {
    var o := AckHandled(ep, r, env);
    if o.err != NoError {
      AckHandledFails(ep, r, env);
      AbortCloses(o.ep, CloseFlags(false, true), o.err, env);
    } else {
      StillOnPace(ep, r, env);
      ConcludePaced(o.ep, env');
      assert Conclude(o, env, env') == Conclude(Outcome(o.ep, NoError), env', env');
    }
  }

  lemma StillOnPace(ep: EndPoint, r: Received, env: Env)
    requires OnPace(ep) && Good(ep) && Accepts(ep, r) && Promised(ep)
    requires var o := AckHandled(ep, r, env); o.err == NoError && o.ep.life.state != Closed
    ensures var o := AckHandled(ep, r, env); OnPace(o.ep) && Good(o.ep)
  {
    StillOpen(ep, r, env);
    AckHandledPaced(ep, r, env);
    AckHandledSetting(ep, r, env);
  }

  lemma AckHandledSetting(ep: EndPoint, r: Received, env: Env)
    requires OpenAndGood(ep) && Accepts(ep, r) && Setting(ep)
    requires var o := AckHandled(ep, r, env); o.err == NoError && IsConnected(o.ep.life)
    ensures Setting(AckHandled(ep, r, env).ep)
  {
    if r.ack.Some? {
      OnAckCases(ep, r, env);
      DriveSendingDrives(After(ep, r), env);
      if LastAckIn(After(ep, r)) {
        TakenFinalizes(ep, r, env);
      }
    }
  }
}
