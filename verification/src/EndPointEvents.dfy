/**
 Every event of an open end point, taken apart: it prepares (a queue entry, a confirmation, a timer), and then
 it drives the send path at most once; a packet is first taken in.
 */
module EndPointEvents {
  import opened Common
  import opened Fragments
  import opened BtpEngine
  import opened Reassembly
  import opened Lifecycle
  import opened EndPointModel
  import opened EndPointInvariant

  /** Nothing that the peer, the numbers or the windows can see has changed. */
  predicate Prepares(ep: EndPoint, ep': EndPoint) {
    && ep'.life == ep.life && ep'.config == ep.config && ep'.engine == ep.engine && ep'.capsReceived == ep.capsReceived
    && ep'.link.max == ep.link.max && ep'.link.remote == ep.link.remote && ep'.link.local == ep.link.local
    && ep'.hist == ep.hist.(accepted := ep'.hist.accepted, sends := ep'.hist.sends, confirms := ep'.hist.confirms,
                            lapsed := ep'.hist.lapsed)
  }

  // ---------- preparations ----------

  lemma EnqueueKeeps(ep: EndPoint, m: Message)
    requires Good(ep) && |m| <= ep.config.capacity
    ensures var ep1 := ep.(queue := ep.queue + [m], hist := ep.hist.(accepted := ep.hist.accepted + [m]));
      Core(ep1) && HeldBack(ep1) && Prepares(ep, ep1)
  {
    var ep1 := ep.(queue := ep.queue + [m], hist := ep.hist.(accepted := ep.hist.accepted + [m]));
    assert Waiting(ep1) == Waiting(ep) + [m];
    assert Current(ep1, Assemble(ep.hist.log)) == Current(ep, Assemble(ep.hist.log));
    forall n | 0 <= n < |ep1.hist.log|
      ensures LogEntry(ep1, n)
    {
      assert LogEntry(ep, n);
    }
  }

  /** The operation in flight is confirmed. */
  function Landed(ep: EndPoint): EndPoint {
    ep.(link := ep.link.(gattInFlight := false, ackInFlight := false,
                         ackPending := ep.link.ackPending && !ep.link.ackInFlight),
        hist := ep.hist.(confirms := ep.hist.confirms + 1))
  }

  lemma LandedKeeps(ep: EndPoint)
    requires Good(ep) && ep.link.gattInFlight && ep.capsConfirmed
    ensures Core(Landed(ep)) && Prepares(ep, Landed(ep))
  {
    SameDataKeeps(ep, Landed(ep));
  }

  /** The handshake message is confirmed and leaves the queue; what was queued behind it stays, in order. */
  function Unparked(ep: EndPoint): EndPoint
    requires |ep.queue| > 0
  {
    ep.(link := ep.link.(gattInFlight := false), capsConfirmed := true, queue := ep.queue[1..],
        hist := ep.hist.(confirms := ep.hist.confirms + 1))
  }

  lemma UnparkedKeeps(ep: EndPoint)
    requires Good(ep) && !ep.capsConfirmed
    ensures Core(Unparked(ep)) && Prepares(ep, Unparked(ep)) && Unparked(ep).queue == Waiting(ep)
  {
    var ep1 := Unparked(ep);
    assert Current(ep1, Assemble(ep.hist.log)) == Current(ep, Assemble(ep.hist.log));
  }

  /** A stand-alone ack is now wanted. */
  function Wanted(ep: EndPoint): EndPoint {
    ep.(link := ep.link.(sendAckTimer := false, ackPending := true), hist := ep.hist.(lapsed := false))
  }

  lemma WantedKeeps(ep: EndPoint)
    requires Core(ep)
    ensures Core(Wanted(ep)) && Prepares(ep, Wanted(ep))
  {
    SameDataKeeps(ep, Wanted(ep));
  }

  lemma FlagsKeep(ep: EndPoint, ep': EndPoint)
    requires Core(ep)
    requires ep' == ep.(link := ep.link.(sendAckTimer := ep'.link.sendAckTimer),
                        hist := ep.hist.(lapsed := ep'.hist.lapsed))
    ensures Core(ep') && (HeldBack(ep) ==> HeldBack(ep')) && Prepares(ep, ep')
  {
    SameDataKeeps(ep, ep');
  }

  // ---------- moves ----------

  /** The end point is closed for good; what it has sent, taken in and accepted stays on record. */
  predicate Shuts(ep: EndPoint, ep': EndPoint) {
    && ep'.life.state == Closed && ClosedSoundly(ep.life, ep'.life)
    && ep'.config == ep.config && ep'.link.max == ep.link.max
    && ep'.engine.rxSize == ep.engine.rxSize && ep'.engine.txSize == ep.engine.txSize
    && KeepsRecord(ep.hist, ep'.hist) && Dormant(ep')
  }

  predicate KeepsRecord(h: History, h': History) {
    (h.stale ==> h'.stale) && h' == h.(rxA := h'.rxA, stale := h'.stale, sends := h'.sends)
  }

  /** One move of an open end point. */
  predicate Move(ep: EndPoint, ep': EndPoint) {
    || (Prepares(ep, ep') && Core(ep'))
    || Drives(ep, ep')
    || Finalizes(ep, ep')
    || ep' == HandUp(ep)
    || Lingers(ep, ep')
    || Shuts(ep, ep')
  }

  /** The application closes, and the end point stays to finish sending. */
  predicate Lingers(ep: EndPoint, ep': EndPoint) {
    && ep' == ep.(life := ep'.life) && ep'.life.state == Closing && ClosedSoundly(ep.life, ep'.life)
    && (ep'.life.onMessageReceived ==> ep.life.onMessageReceived)
    && (ep.life.state == Closing || ep.engine.txState != Idle)
  }

  /** A sequence of moves from `ep` to `ep'`, which is in order if it is still open. */
  predicate Path(path: seq<EndPoint>, ep: EndPoint, ep': EndPoint) {
    && |path| > 0 && path[0] == ep && path[|path| - 1] == ep'
    && (forall i :: 0 <= i < |path| - 1 ==> IsConnected(path[i].life) && Move(path[i], path[i + 1]))
    && Sound(ep'.life) && (IsConnected(ep'.life) ==> Good(ep'))
  }

  lemma AbortShuts(ep: EndPoint, ep0: EndPoint, flags: CloseFlags, err: Error, env: Env)
    requires Sound(ep.life) && ep.life.state != Closed && flags.abort && ep.life == ep0.life
    requires ep.config == ep0.config && ep.link.max == ep0.link.max
    requires ep.engine.rxSize == ep0.engine.rxSize && ep.engine.txSize == ep0.engine.txSize
    requires KeepsRecord(ep0.hist, ep.hist)
    ensures Shuts(ep0, CloseWith(ep, flags, err, env))
  {
    AbortCloses(ep, flags, err, env);
  }

  function WithTimer(ep: EndPoint): EndPoint {
    ep.(link := ep.link.(ackReceivedTimer := true))
  }

  function TimerWorks(env: Env): Env {
    env.(ackTimer := true)
  }

  /** A failed step sent nothing, or would have succeeded had the ack timer started, and differs only there. */
  predicate FailsLike(ep: EndPoint, o: Outcome, retried: Outcome) {
    && o.ep.life == ep.life && o.ep.config == ep.config && o.ep.link.max == ep.link.max
    && o.ep.engine.rxSize == ep.engine.rxSize && o.ep.engine.txSize == ep.engine.txSize
    && (KeepsRecord(ep.hist, o.ep.hist) || (retried.err == NoError && retried.ep == WithTimer(o.ep)))
  }

  lemma SendFragmentSizes(e: Engine, m: Option<Message>, withAck: bool, headroom: bool)
    ensures var e' := SendFragment(e, m, withAck, headroom).engine; e'.rxSize == e.rxSize && e'.txSize == e.txSize
  {
  }

  lemma SendPieceFails(ep: EndPoint, m: Option<Message>, env: Env)
    ensures var o := SendPiece(ep, m, env); o.err != NoError ==> FailsLike(ep, o, SendPiece(ep, m, TimerWorks(env)))
  {
    var withAck := ep.link.sendAckTimer;
    SendFragmentSizes(ep.engine, m, withAck, env.headroom);
    var s := SendFragment(ep.engine, m, withAck, env.headroom);
    if s.ok {
      TransmitFails(ep, Acked(ep, withAck).(engine := s.engine), s.fragment, env);
    }
  }

  lemma TransmitFails(ep: EndPoint, ep1: EndPoint, f: Fragment, env: Env)
    requires ep1.life == ep.life && ep1.config == ep.config && ep1.link.max == ep.link.max
    requires ep1.engine.rxSize == ep.engine.rxSize && ep1.engine.txSize == ep.engine.txSize
    requires KeepsRecord(ep.hist, ep1.hist)
    ensures var o := Transmit(ep1, f, env); o.err != NoError ==> FailsLike(ep, o, Transmit(ep1, f, TimerWorks(env)))
  {
    if !env.sent {
      assert KeepsRecord(ep.hist, SendCharacteristic(ep1, f, env).ep.hist);
    }
  }

  lemma StandAloneAckFails(ep: EndPoint, env: Env)
    ensures var o := DoSendStandAloneAck(ep, env);
      o.err != NoError ==> FailsLike(ep, o, DoSendStandAloneAck(ep, TimerWorks(env)))
  {
  }

  lemma DriveFails(ep: EndPoint, env: Env)
    ensures var o := DriveSending(ep, env); o.err != NoError ==> FailsLike(ep, o, DriveSending(ep, TimerWorks(env)))
  {
    if !Blocked(ep) {
      if ep.link.ackPending {
        StandAloneAckFails(ep, env);
      } else {
        var ep1 := if ep.engine.txState == Complete then ep.(engine := ClearTx(ep.engine)) else ep;
        if |ep.queue| > 0 {
          SendPieceFails(ep1.(queue := ep.queue[1..]), Some(ep.queue[0]), env);
        }
        SendPieceFails(ep, None, env);
      }
    }
  }

  /** Driving from an end point in order ends in order, or shuts it. */
  lemma DriveMoves(ep: EndPoint, env: Env) returns (path: seq<EndPoint>)
    requires Core(ep) && Sound(ep.life) && IsConnected(ep.life)
    ensures Path(path, ep, Settled(DriveSending(ep, env), env))
  {
    var o := DriveSending(ep, env);
    DriveSendingDrives(ep, env);
    if o.err == NoError {
      if o.ep.life.state != Closed {
        DrivesKeeps(ep, o.ep);
      }
      path := OneMove(ep, o.ep);
    } else {
      path := FailMoves(ep, env);
    }
  }

  lemma FailMoves(ep: EndPoint, env: Env) returns (path: seq<EndPoint>)
    requires Core(ep) && Sound(ep.life) && IsConnected(ep.life) && DriveSending(ep, env).err != NoError
    ensures Path(path, ep, Settled(DriveSending(ep, env), env))
  {
    var o := DriveSending(ep, env);
    DriveFails(ep, env);
    DriveSendingDrives(ep, TimerWorks(env));
    path := FailurePath(ep, o, DriveSending(ep, TimerWorks(env)), o.err, env);
  }

  /** The path of a failed step, by way of the state in which it would have succeeded if it sent a fragment. */
  lemma FailurePath(ep: EndPoint, o: Outcome, retried: Outcome, err: Error, env: Env) returns (path: seq<EndPoint>)
    requires Sound(ep.life) && IsConnected(ep.life) && FailsLike(ep, o, retried)
    requires retried.err == NoError ==> Drives(ep, retried.ep)
    ensures Path(path, ep, Fail(o.ep, err, env))
  {
    var ep' := Fail(o.ep, err, env);
    if KeepsRecord(ep.hist, o.ep.hist) {
      AbortShuts(o.ep, ep, CloseFlags(false, true), err, env);
      path := Ended(ep, ep');
    } else {
      AbortShuts(o.ep, retried.ep, CloseFlags(false, true), err, env);
      path := Ended(retried.ep, ep');
      path := Prepend(ep, retried.ep, ep', path);
    }
  }

  /** Prefix one preparation to a path. */
  lemma Prepend(ep: EndPoint, ep1: EndPoint, ep': EndPoint, path1: seq<EndPoint>) returns (path: seq<EndPoint>)
    requires IsConnected(ep.life) && Move(ep, ep1) && Path(path1, ep1, ep')
    ensures Path(path, ep, ep')
  {
    path := [ep] + path1;
    forall i | 0 <= i < |path| - 1
      ensures IsConnected(path[i].life) && Move(path[i], path[i + 1])
    {
      if i > 0 {
        assert Move(path1[i - 1], path1[i]);
      }
    }
  }

  lemma Trivial(ep: EndPoint) returns (path: seq<EndPoint>)
    requires Sound(ep.life) && (IsConnected(ep.life) ==> Good(ep))
    ensures Path(path, ep, ep)
  {
    path := [ep];
  }

  lemma OneMove(ep: EndPoint, ep': EndPoint) returns (path: seq<EndPoint>)
    requires IsConnected(ep.life) && Move(ep, ep') && Sound(ep'.life) && (IsConnected(ep'.life) ==> Good(ep'))
    ensures Path(path, ep, ep')
  {
    path := [ep, ep'];
  }

  // ---------- the events of an open end point ----------

  predicate OpenAndGood(ep: EndPoint) {
    IsConnected(ep.life) && Sound(ep.life) && Good(ep)
  }

  lemma AbortMoves(ep: EndPoint, flags: CloseFlags, err: Error, env: Env) returns (path: seq<EndPoint>)
    requires IsConnected(ep.life) && Sound(ep.life) && flags.abort
    ensures Path(path, ep, CloseWith(ep, flags, err, env))
  {
    AbortShuts(ep, ep, flags, err, env);
    path := [ep, CloseWith(ep, flags, err, env)];
  }

  lemma SendMoves(ep: EndPoint, m: Message, env: Env) returns (path: seq<EndPoint>)
    requires OpenAndGood(ep)
    ensures Path(path, ep, Send(ep, m, env))
  {
    if |m| > ep.config.capacity {
      path := AbortMoves(ep, CloseFlags(false, true), OutboundTooBig, env);
    } else {
      EnqueueKeeps(ep, m);
      var ep1 := ep.(queue := ep.queue + [m], hist := ep.hist.(accepted := ep.hist.accepted + [m]));
      path := DriveMoves(ep1, env);
      path := Prepend(ep, ep1, Send(ep, m, env), path);
    }
  }

  lemma StandAloneMoves(ep: EndPoint, env: Env) returns (path: seq<EndPoint>)
    requires Core(ep) && Sound(ep.life) && IsConnected(ep.life)
    ensures Path(path, ep, Settled(DriveStandAloneAck(ep, env), env))
  {
    if ep.link.ackPending || env.buffer {
      WantedKeeps(ep);
      path := DriveMoves(Wanted(ep), env);
      path := Prepend(ep, Wanted(ep), Settled(DriveStandAloneAck(ep, env), env), path);
    } else {
      path := NoBufferMoves(ep, env);
    }
  }

  /** There is no buffer for the ack. */
  lemma NoBufferMoves(ep: EndPoint, env: Env) returns (path: seq<EndPoint>)
    requires Sound(ep.life) && IsConnected(ep.life) && !ep.link.ackPending && !env.buffer
    ensures Path(path, ep, Settled(DriveStandAloneAck(ep, env), env))
  {
    var o := DriveStandAloneAck(ep, env);
    AbortShuts(o.ep, ep, CloseFlags(false, true), o.err, env);
    path := [ep, Fail(o.ep, o.err, env)];
  }

  lemma ProceedMoves(ep: EndPoint, env: Env, waits: bool) returns (path: seq<EndPoint>)
    requires Core(ep) && Sound(ep.life) && IsConnected(ep.life)
    ensures Path(path, ep, Settled(Proceed(ep, env, waits), env))
  {
    if ep.link.local <= IMMEDIATE_ACK_THRESHOLD && !waits {
      path := StandAloneMoves(ep, env);
    } else {
      path := DriveMoves(ep, env);
    }
  }

  /** A confirmed fragment frees the air and the buffer of an ack, and the end point goes on. */
  lemma ConfirmedProceeds(ep: EndPoint, env: Env)
    requires OpenAndGood(ep) && ep.link.gattInFlight && ep.capsConfirmed
    ensures Confirmed(ep, env)
         == Settled(Proceed(Landed(ep), env, |ep.queue| > 0 || ep.engine.txState == InProgress), env)
  {
  }

  lemma FragmentConfirmedMoves(ep: EndPoint, env: Env) returns (path: seq<EndPoint>)
    requires OpenAndGood(ep) && ep.link.gattInFlight && ep.capsConfirmed
    ensures Path(path, ep, Confirmed(ep, env))
  {
    LandedKeeps(ep);
    path := ProceedMoves(Landed(ep), env, |ep.queue| > 0 || ep.engine.txState == InProgress);
    path := Prepend(ep, Landed(ep), Confirmed(ep, env), path);
  }

  lemma HandshakeConfirmedMoves(ep: EndPoint, env: Env) returns (path: seq<EndPoint>)
    requires OpenAndGood(ep) && !ep.capsConfirmed
    ensures Path(path, ep, Confirmed(ep, env))
  {
    UnparkedKeeps(ep);
    path := ProceedMoves(Unparked(ep), env, |ep.queue| > 1);
    path := Prepend(ep, Unparked(ep), Confirmed(ep, env), path);
  }

  lemma SubscribedMoves(ep: EndPoint, env: Env) returns (path: seq<EndPoint>)
    requires OpenAndGood(ep) && ep.link.gattInFlight && ep.capsConfirmed && |ep.hist.log| == 0
    ensures Path(path, ep, SubscribeComplete(ep, env))
  {
    LandedKeeps(ep);
    var ep1 := Landed(ep);
    var o := DriveSending(ep1, env);
    if o.err == NoError {
      path := DriveMoves(ep1, env);
      path := Prepend(ep, ep1, SubscribeComplete(ep, env), path);
    } else {
      path := SubscribedFails(ep, ep1, env);
    }
  }

  /** The same failure, reported without an error code. */
  lemma SubscribedFails(ep: EndPoint, ep1: EndPoint, env: Env) returns (path: seq<EndPoint>)
    requires Core(ep1) && Sound(ep1.life) && IsConnected(ep1.life) && IsConnected(ep.life) && Move(ep, ep1)
    requires DriveSending(ep1, env).err != NoError
    ensures Path(path, ep, Fail(DriveSending(ep1, env).ep, NoError, env))
  {
    var o := DriveSending(ep1, env);
    DriveFails(ep1, env);
    DriveSendingDrives(ep1, TimerWorks(env));
    path := FailurePath(ep1, o, DriveSending(ep1, TimerWorks(env)), NoError, env);
    path := Prepend(ep, ep1, Fail(o.ep, NoError, env), path);
  }

  lemma SendAckTimeoutMoves(ep: EndPoint, env: Env) returns (path: seq<EndPoint>)
    requires OpenAndGood(ep)
    ensures Path(path, ep, SendAckTimeout(ep, env))
  {
    if !ep.link.sendAckTimer {
      path := [ep];
    } else if ep.link.ackInFlight {
      FlagsKeep(ep, SendAckTimeout(ep, env));
      path := [ep, SendAckTimeout(ep, env)];
    } else {
      var ep1 := ep.(link := ep.link.(sendAckTimer := false));
      FlagsKeep(ep, ep1);
      path := StandAloneMoves(ep1, env);
      path := Prepend(ep, ep1, SendAckTimeout(ep, env), path);
    }
  }

  lemma AckReceivedTimeoutMoves(ep: EndPoint, env: Env) returns (path: seq<EndPoint>)
    requires OpenAndGood(ep)
    ensures Path(path, ep, AckReceivedTimeout(ep, env))
  {
    var ep1 := ep.(link := ep.link.(ackReceivedTimer := false));
    if ep.link.ackReceivedTimer {
      AbortShuts(ep1, ep, CloseFlags(false, true), FragmentAckTimedOut, env);
      path := [ep, AckReceivedTimeout(ep, env)];
    } else {
      path := [ep];
    }
  }

  lemma SettleShuts(ep: EndPoint, l: Life)
    requires ep.life.state != Closed && ClosedSoundly(ep.life, l) && l.state == Closed
    ensures Shuts(ep, Settle(ep, l))
  {
  }

  lemma LingersNumbers(ep: EndPoint, l: Life)
    requires Numbers(ep) && Air(ep) && l.central == ep.life.central
    ensures var ep' := ep.(life := l); Numbers(ep') && Air(ep')
  {
    var ep' := ep.(life := l);
    assert TxN(ep') == TxN(ep) && RxN(ep') == RxN(ep);
  }

  lemma LingersKeeps(ep: EndPoint, ep': EndPoint)
    requires OpenAndGood(ep) && Lingers(ep, ep')
    ensures OpenAndGood(ep')
  {
    LingersNumbers(ep, ep'.life);
    SameDataKeeps(ep, ep');
  }

  lemma SettleMoves(ep: EndPoint, l: Life) returns (path: seq<EndPoint>)
    requires OpenAndGood(ep) && ClosedSoundly(ep.life, l)
    requires l.state == Closed ||
             (l.state == Closing && !l.onMessageReceived && (ep.life.state == Closing || ep.engine.txState != Idle))
    ensures Path(path, ep, Settle(ep, l))
  {
    var ep' := Settle(ep, l);
    if l.state == Closed {
      SettleShuts(ep, l);
      path := OneMove(ep, ep');
    } else {
      assert Lingers(ep, ep');
      LingersKeeps(ep, ep');
      path := OneMove(ep, ep');
    }
  }

  lemma CallMoves(ep: EndPoint, call: CloseCall, env: Env) returns (path: seq<EndPoint>)
    requires OpenAndGood(ep)
    ensures Path(path, ep, AppCall(ep, call, env))
  {
    var idle := ep.engine.txState == Idle;
    PerformSound(ep.life, call, idle, env.platform);
    path := SettleMoves(ep, Perform(ep.life, call, idle, env.platform));
  }

  // ---------- a packet ----------

  lemma Join(ep: EndPoint, mid: EndPoint, ep': EndPoint, path1: seq<EndPoint>, path2: seq<EndPoint>)
    returns (path: seq<EndPoint>)
    requires Path(path1, ep, mid) && Path(path2, mid, ep')
    ensures Path(path, ep, ep')
  {
    path := path1 + path2[1..];
    forall i | 0 <= i < |path| - 1
      ensures IsConnected(path[i].life) && Move(path[i], path[i + 1])
    {
      if i >= |path1| - 1 {
        var j := i - (|path1| - 1);
        assert path[i] == path2[j] && path[i + 1] == path2[j + 1];
      }
    }
  }

  lemma AcknowledgeMoves(ep: EndPoint, env: Env) returns (path: seq<EndPoint>)
    requires OpenAndGood(ep)
    ensures Path(path, ep, Settled(Acknowledge(ep, env), env))
  {
    var ep' := Settled(Acknowledge(ep, env), env);
    if !HasUnackedData(ep.engine) {
      path := [ep];
    } else if ep.link.local <= IMMEDIATE_ACK_THRESHOLD && !ep.link.gattInFlight {
      path := StandAloneMoves(ep, env);
    } else if ep.link.sendAckTimer || env.sendAckTimer {
      FlagsKeep(ep, ep');
      path := [ep, ep'];
    } else {
      path := AbortMoves(ep, CloseFlags(false, true), StartTimerFailed, env);
    }
  }

  lemma HandUpNumbers(x: EndPoint)
    requires Numbers(x) && Air(x) && Parked(x)
    ensures var x' := HandUp(x); Numbers(x') && Air(x') && Parked(x') && SameData(x, x')
  {
    assert TxN(HandUp(x)) == TxN(x) && RxN(HandUp(x)) == RxN(x);
  }

  lemma HandUpCore(x: EndPoint)
    requires Core(x) && IsConnected(x.life)
    ensures Core(HandUp(x))
  {
    HandUpNumbers(x);
    SameDataKeeps(x, HandUp(x));
  }

  lemma HandUpKeeps(ep: EndPoint)
    requires OpenAndGood(ep)
    ensures OpenAndGood(HandUp(ep))
  {
    HandUpCore(ep);
  }

  function Reply(ep: EndPoint, data: Bytes, env: Env): Received
    requires HeaderPresent(data)
  {
    Receive(ep.engine, data, ep.config.capacity, env.buffer)
  }

  lemma ReplyAccepts(ep: EndPoint, data: Bytes, env: Env)
    requires HeaderPresent(data)
    ensures Reply(ep, data, env).err == NoError ==> Accepts(ep, Reply(ep, data, env))
  {
    ReceiveBookkeeps(ep.engine, data, ep.config.capacity, env.buffer);
  }

  /** Taking in a packet that is refused shuts the end point. */
  lemma RefusedMoves(ep: EndPoint, data: Bytes, env: Env, env': Env)
    requires OpenAndGood(ep) && HeaderPresent(data) && Reply(ep, data, env).err != NoError
    ensures Shuts(ep, ReceivePacket(ep, data, env, env'))
  {
    var r := Reply(ep, data, env);
    RefusedSizes(ep, data, env);
    AbortShuts(ep.(engine := r.engine), ep, CloseFlags(false, true), r.err, env);
  }

  lemma RefusedSizes(ep: EndPoint, data: Bytes, env: Env)
    requires HeaderPresent(data)
    ensures var e := Reply(ep, data, env).engine; e.rxSize == ep.engine.rxSize && e.txSize == ep.engine.txSize
  {
  }

  /**
   What the end point does with an ack it has taken in: drive from the reopened window, or finish a close, or fail.
   */
  lemma OnAckCases(ep: EndPoint, r: Received, env: Env)
    requires Good(ep) && Accepts(ep, r) && r.ack.Some?
    ensures var o := OnAck(Taken(ep, r), r.ack.value, env);
      var mid := After(ep, r);
      || o == DriveSending(mid, env)
      || (o.err == NoError && LastAckIn(mid) && o.ep == Finalize(TimerStopped(Taken(ep, r)), env))
      || (o.err == StartTimerFailed && !env.ackTimer && o.ep == TimerStopped(Taken(ep, r)))
  {
    var ep1 := Taken(ep, r);
    if ep1.engine.expectingAck {
      assert ep1.link.(ackReceivedTimer := true) == ep1.link;
      assert ep1.(link := ep1.link) == ep1;
    }
  }

  function TimerStopped(ep: EndPoint): EndPoint {
    ep.(link := ep.link.(ackReceivedTimer := false))
  }

  lemma TakenFinalizes(ep: EndPoint, r: Received, env: Env)
    requires Sound(ep.life) && LastAckIn(After(ep, r))
    ensures Finalizes(After(ep, r), Finalize(TimerStopped(Taken(ep, r)), env))
  {
    FinalizeFinalizes(TimerStopped(Taken(ep, r)), env);
  }

  lemma TakenFails(ep: EndPoint, r: Received, env: Env)
    requires Sound(ep.life) && ep.life.state != Closed
    ensures Shuts(After(ep, r), Fail(TimerStopped(Taken(ep, r)), StartTimerFailed, env))
  {
    AbortShuts(TimerStopped(Taken(ep, r)), After(ep, r), CloseFlags(false, true), StartTimerFailed, env);
  }

  lemma AckMoves(ep: EndPoint, r: Received, env: Env) returns (path: seq<EndPoint>)
    requires OpenAndGood(ep) && Accepts(ep, r)
    ensures Path(path, After(ep, r), Settled(AckHandled(ep, r, env), env))
  {
    AfterKeeps(ep, r);
    if r.ack.None? {
      path := Trivial(After(ep, r));
    } else {
      OnAckCases(ep, r, env);
      path := OutcomeMoves(ep, r, AckHandled(ep, r, env), env);
    }
  }

  lemma OutcomeMoves(ep: EndPoint, r: Received, o: Outcome, env: Env) returns (path: seq<EndPoint>)
    requires Sound(ep.life) && IsConnected(ep.life) && Core(After(ep, r))
    requires var mid := After(ep, r);
      || o == DriveSending(mid, env)
      || (o.err == NoError && LastAckIn(mid) && o.ep == Finalize(TimerStopped(Taken(ep, r)), env))
      || (o.err == StartTimerFailed && o.ep == TimerStopped(Taken(ep, r)))
    ensures Path(path, After(ep, r), Settled(o, env))
  {
    var mid := After(ep, r);
    if o == DriveSending(mid, env) {
      path := DriveMoves(mid, env);
    } else if o.err == NoError {
      TakenFinalizes(ep, r, env);
      path := Ended(mid, o.ep);
    } else {
      TakenFails(ep, r, env);
      path := Ended(mid, Fail(o.ep, o.err, env));
    }
  }

  lemma Ended(ep: EndPoint, ep': EndPoint) returns (path: seq<EndPoint>)
    requires IsConnected(ep.life) && (Finalizes(ep, ep') || Shuts(ep, ep'))
    ensures Path(path, ep, ep')
  {
    path := OneMove(ep, ep');
  }

  lemma AcknowledgeStays(ep: EndPoint, env: Env)
    requires OpenAndGood(ep) && Acknowledge(ep, env).err == NoError
    ensures Acknowledge(ep, env).ep.life == ep.life
  {
    if ep.link.ackPending || env.buffer {
      DriveSendingDrives(Wanted(ep), env);
    }
  }

  /** Unless the close was finalized, the packet is acknowledged and handed up. */
  lemma PacketConcludes(ep: EndPoint, data: Bytes, env: Env, env': Env)
    requires OpenAndGood(ep) && HeaderPresent(data) && Reply(ep, data, env).err == NoError
    requires var o := AckHandled(ep, Reply(ep, data, env), env); o.err == NoError ==> o.ep.life.state != Closed
    ensures ReceivePacket(ep, data, env, env') == Conclude(AckHandled(ep, Reply(ep, data, env), env), env, env')
  {
    var r := Reply(ep, data, env);
    if r.ack.Some? && LastAckIn(Taken(ep, r)) {
      TakenFinalizes(ep, r, env);
    }
  }

  /** The source goes on with an end point that the sending has closed: its timer is set, or it faults, and no more. */
  lemma RunsOn(ep: EndPoint, o: Outcome, env: Env, env': Env)
    requires Sound(ep.life) && Air(ep) && Finalizes(ep, o.ep) && !ep.link.gattInFlight && o.err == NoError
    ensures Finalizes(ep, Conclude(o, env, env'))
  {
    if o.ep.life.frees == 0 {
      WaitingConcludes(o.ep, env, env');
    }
    FinalizesOn(ep, o.ep, Conclude(o, env, env'));
  }

  /** What a handler may still do to an end point that is closed. */
  predicate AfterEnd(e: EndPoint, e': EndPoint) {
    && (e'.engine == e.engine || e'.engine == ClearRx(e.engine))
    && e' == e.(engine := e'.engine, link := e.link.(sendAckTimer := e'.link.sendAckTimer),
                hist := e.hist.(lapsed := e'.hist.lapsed, faulted := e'.hist.faulted))
  }

  lemma WaitingConcludes(e: EndPoint, env: Env, env': Env)
    requires e.life.state == Closed && e.life.frees == 0 && e.link.gattInFlight && !e.life.onMessageReceived
    ensures AfterEnd(e, Conclude(Outcome(e, NoError), env, env'))
  {
    AcknowledgeWaits(e, env');
    ClosedFails(e, StartTimerFailed, env');
    SilentHandUp(e);
    SilentHandUp(StartSendAckTimer(e, env').ep);
  }

  lemma SilentHandUp(e: EndPoint)
    requires !e.life.onMessageReceived
    ensures HandUp(e) == e.(engine := if e.engine.rxState == Complete then ClearRx(e.engine) else e.engine)
  {
  }

  /** That does not undo the close. */
  lemma FinalizesOn(ep: EndPoint, e: EndPoint, e': EndPoint)
    requires Finalizes(ep, e) && AfterEnd(e, e')
    requires e'.link.sendAckTimer ==> e.life.unsubscribeTimer && e.link.gattInFlight && e.hist.sends == e.hist.confirms
    ensures Finalizes(ep, e')
  {
  }

  lemma ClosedFails(ep: EndPoint, err: Error, env: Env)
    requires ep.life.state == Closed
    ensures Fail(ep, err, env) == ep
  {
    assert DoClose(ep.life, ep.engine.txState == Idle, CloseFlags(false, true), err, env.platform) == ep.life;
  }

  /** With the air busy, nothing is sent. */
  lemma AirBusy(ep: EndPoint, env: Env)
    requires ep.link.gattInFlight
    ensures DriveSending(ep, env) == Outcome(ep, NoError)
  {
  }

  /** With the air busy, an acknowledgement is left to the timer. */
  lemma AcknowledgeWaits(ep: EndPoint, env: Env)
    requires ep.link.gattInFlight
    ensures Acknowledge(ep, env) == if HasUnackedData(ep.engine) then StartSendAckTimer(ep, env)
      else Outcome(ep, NoError)
  {
  }

  /** A close that is finalized while the packet is dealt with stays finalized, whatever the source does then. */
  lemma PacketFinalizes(ep: EndPoint, data: Bytes, env: Env, env': Env)
    requires OpenAndGood(ep) && HeaderPresent(data) && Reply(ep, data, env).err == NoError
    requires var o := AckHandled(ep, Reply(ep, data, env), env); o.err == NoError && o.ep.life.state == Closed
    ensures Finalizes(After(ep, Reply(ep, data, env)), ReceivePacket(ep, data, env, env'))
  {
    var r := Reply(ep, data, env);
    ReplyAccepts(ep, data, env);
    AfterKeeps(ep, r);
    OnAckCases(ep, r, env);
    if LastAckIn(Taken(ep, r)) {
      TakenFinalizes(ep, r, env);
    } else {
      DriveFinalizes(After(ep, r), env);
      RunsOn(After(ep, r), AckHandled(ep, r, env), env, env');
    }
  }

  /** Sending closes an end point only by finishing its close. */
  lemma DriveFinalizes(ep: EndPoint, env: Env)
    requires Core(ep) && Sound(ep.life) && IsConnected(ep.life)
    requires DriveSending(ep, env).err == NoError && DriveSending(ep, env).ep.life.state == Closed
    ensures Finalizes(ep, DriveSending(ep, env).ep) && !ep.link.gattInFlight
  {
    DriveSendingDrives(ep, env);
  }

  /** A packet that is taken in leads, by moves, from the state after it to the result. */
  lemma PacketMoves(ep: EndPoint, data: Bytes, env: Env, env': Env) returns (path: seq<EndPoint>)
    requires OpenAndGood(ep) && HeaderPresent(data) && Reply(ep, data, env).err == NoError
    ensures Path(path, After(ep, Reply(ep, data, env)), ReceivePacket(ep, data, env, env'))
  {
    var r := Reply(ep, data, env);
    ReplyAccepts(ep, data, env);
    var o := AckHandled(ep, r, env);
    if o.err == NoError && o.ep.life.state == Closed {
      PacketFinalizes(ep, data, env, env');
      path := Ended(After(ep, r), ReceivePacket(ep, data, env, env'));
    } else {
      PacketConcludes(ep, data, env, env');
      path := OpenPacketMoves(ep, r, env, env');
    }
  }

  lemma OpenPacketMoves(ep: EndPoint, r: Received, env: Env, env': Env) returns (path: seq<EndPoint>)
    requires OpenAndGood(ep) && Accepts(ep, r)
    requires var o := AckHandled(ep, r, env); o.err == NoError ==> o.ep.life.state != Closed
    ensures Path(path, After(ep, r), Conclude(AckHandled(ep, r, env), env, env'))
  {
    var o := AckHandled(ep, r, env);
    path := AckMoves(ep, r, env);
    if o.err == NoError {
      StillOpen(ep, r, env);
      var path2 := AcknowledgeMoves(o.ep, env');
      var o' := Acknowledge(o.ep, env');
      path := Join(After(ep, r), o.ep, Settled(o', env'), path, path2);
      if o'.err == NoError {
        AcknowledgeStays(o.ep, env');
        HandUpKeeps(o'.ep);
        path2 := OneMove(o'.ep, HandUp(o'.ep));
        path := Join(After(ep, r), o'.ep, HandUp(o'.ep), path, path2);
      }
    }
  }

  lemma StillOpen(ep: EndPoint, r: Received, env: Env)
    requires OpenAndGood(ep) && Accepts(ep, r)
    requires var o := AckHandled(ep, r, env); o.err == NoError && o.ep.life.state != Closed
    ensures OpenAndGood(AckHandled(ep, r, env).ep)
  {
    var path := AckMoves(ep, r, env);
    AckHandledLife(ep, r, env);
  }

  lemma AckHandledLife(ep: EndPoint, r: Received, env: Env)
    requires OpenAndGood(ep) && Accepts(ep, r)
    requires var o := AckHandled(ep, r, env); o.err == NoError && o.ep.life.state != Closed
    ensures IsConnected(AckHandled(ep, r, env).ep.life)
  {
    if r.ack.Some? {
      AfterKeeps(ep, r);
      OnAckCases(ep, r, env);
      DriveSendingDrives(After(ep, r), env);
      if LastAckIn(After(ep, r)) {
        TakenFinalizes(ep, r, env);
      }
    }
  }

  lemma AckHandledFails(ep: EndPoint, r: Received, env: Env)
    requires OpenAndGood(ep) && Accepts(ep, r) && AckHandled(ep, r, env).err != NoError
    ensures AckHandled(ep, r, env).ep.life == ep.life
  {
    OnAckCases(ep, r, env);
    DriveFails(After(ep, r), env);
  }

  lemma AcknowledgeFails(ep: EndPoint, env: Env)
    requires OpenAndGood(ep) && Acknowledge(ep, env).err != NoError
    ensures Settled(Acknowledge(ep, env), env).life.state == Closed
  {
    var o := Acknowledge(ep, env);
    if ep.link.local <= IMMEDIATE_ACK_THRESHOLD && !ep.link.gattInFlight && (ep.link.ackPending || env.buffer) {
      DriveErrorShuts(Wanted(ep), env, o.err);
    } else {
      assert o.ep.life == ep.life;
      AbortCloses(o.ep, CloseFlags(false, true), o.err, env);
    }
  }

  // ---------- all events of an open end point ----------

  /** The handshake timers are off in an open connection, and their timeouts do nothing. */
  lemma NoHandshakeTimeout(ep: EndPoint, env: Env)
    requires OpenAndGood(ep)
    ensures HandshakeTimeout(ep, env) == ep && ep.(life := ep.life.(connectTimer := false)) == ep
  {
    assert ep.life.(connectTimer := false) == ep.life;
  }

  /** An event that has no place in an open connection. */
  predicate OutOfPlace(event: Event) {
    event.AppConnect? || event.RequestIn? || event.ResponseIn? || event.PeerSubscribed? || event.HandshakeExpired?
      || event.GattUnsubscribed?
  }

  predicate UnchangedOrShut(ep: EndPoint, ep': EndPoint) {
    ep' == ep || (ep'.life.state == Closed && ep'.hist == ep.hist)
  }

  lemma AckWaitShuts(ep: EndPoint, env: Env)
    requires OpenAndGood(ep)
    ensures UnchangedOrShut(ep, AckReceivedTimeout(ep, env))
  {
    if ep.link.ackReceivedTimer {
      AbortCloses(ep.(link := ep.link.(ackReceivedTimer := false)), CloseFlags(false, true), FragmentAckTimedOut, env);
    }
  }

  /** Such an event shuts the end point or leaves it as it is. */
  lemma OutOfPlaceShuts(ep: EndPoint, event: Event, env: Env)
    requires OpenAndGood(ep) && Enabled(ep, event) && OutOfPlace(event)
    ensures UnchangedOrShut(ep, Apply(ep, event, env))
  {
    match event
    case AppConnect(_) =>
      NoHandshakeTimeout(ep, env);
      AbortCloses(ep, CloseFlags(false, true), IncorrectState, env);
    case HandshakeExpired =>
    case GattUnsubscribed =>
    case RequestIn(_, _) => AbortCloses(ep, CloseFlags(false, true), IncorrectState, env);
    case ResponseIn(_) => AbortCloses(ep, CloseFlags(false, true), IncorrectState, env);
    case PeerSubscribed => AbortCloses(ep, CloseFlags(true, true), IncorrectState, env);
  }

  /** A send path that fails shuts the end point. */
  lemma DriveErrorShuts(ep: EndPoint, env: Env, err: Error)
    requires Sound(ep.life) && DriveSending(ep, env).err != NoError
    ensures Fail(DriveSending(ep, env).ep, err, env).life.state == Closed
  {
    DriveFails(ep, env);
    AbortCloses(DriveSending(ep, env).ep, CloseFlags(false, true), err, env);
  }

  lemma EventMoves(ep: EndPoint, event: Event, env: Env) returns (path: seq<EndPoint>)
    requires OpenAndGood(ep) && Enabled(ep, event) && !event.PacketIn?
    ensures Path(path, ep, Apply(ep, event, env))
  {
    match event
    case AppSend(m) => path := SendMoves(ep, m, env);
    case AppClose(call) => path := CallMoves(ep, call, env);
    case AppConnect(req) =>
      NoHandshakeTimeout(ep, env);
      path := AbortMoves(ep, CloseFlags(false, true), IncorrectState, env);
    case RequestIn(data, mtu) => path := AbortMoves(ep, CloseFlags(false, true), IncorrectState, env);
    case ResponseIn(data) => path := AbortMoves(ep, CloseFlags(false, true), IncorrectState, env);
    case PeerSubscribed => path := AbortMoves(ep, CloseFlags(true, true), IncorrectState, env);
    case GattConfirmed =>
      if ep.capsConfirmed {
        path := FragmentConfirmedMoves(ep, env);
      } else {
        path := HandshakeConfirmedMoves(ep, env);
      }
    case GattSubscribed => path := SubscribedMoves(ep, env);
    case GattUnsubscribed =>
    case SendAckExpired => path := SendAckTimeoutMoves(ep, env);
    case AckWaitExpired => path := AckReceivedTimeoutMoves(ep, env);
    case HandshakeExpired =>
      NoHandshakeTimeout(ep, env);
      path := [ep];
  }
}
