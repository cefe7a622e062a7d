/**
 The end point as the source has it: an object whose handlers change its fields step by step and call one another.
 Every handler computes the function of the same meaning in modules `EndPointModel` and `Lifecycle`. The engine is
 a field held by value; class `WoBle` (module `WoBleEngine`) shows how it works in place.
 */
module BleEndPoint {
  import opened Common
  import opened Fragments
  import opened BtpEngine
  import opened Windows
  import opened Lifecycle
  import opened EndPointModel
  import H = Handshake
  import L = Lifecycle
  import M = EndPointModel

  /** The end point once its connection is given up, or kept only until an unsubscribe completes. */
  ghost function Departed(ep: EndPoint, l: Life): EndPoint {
    ep.(life := l,
        engine := if l.frees > 0 then ClearRx(ClearTx(ep.engine)) else ep.engine,
        link := ep.link.(sendAckTimer := false, ackReceivedTimer := false,
                         gattInFlight := ep.link.gattInFlight || l.unsubscribeTimer))
  }

  /** Disconnect of a central that has subscribed. */
  ghost function Unsubscribed(l: Life, p: Platform): Life {
    if p.unsubscribeSent && !p.unsubscribeDone && l.hasConnection && p.timerStarted then l.(unsubscribeTimer := true)
    else if !p.unsubscribeSent || p.unsubscribeDone || l.hasConnection then L.Free(l)
    else l
  }

  lemma DepartedSettles(ep: EndPoint, l2: Life, l: Life)
    requires ep.life.state != Closed && l.state == Closed
    ensures Departed(ep.(life := l2, queue := []), l) == Settle(ep, l)
  {
  }

  /** The parts of FinalizeClose put together: `l2` is the life after the callback, if one fires. */
  lemma FinalizeSettles(ep: EndPoint, was: State, flags: CloseFlags, err: Error, p: Platform, l2: Life)
    requires ep.life.state != Closed
    requires var l1 := ep.life.(state := Closed, graceful := was == Closing && !flags.abort, cause := err);
      l2 == if was != Closing && !flags.suppress
        then L.CloseCallback(l1, was, ep.engine.txState == Idle, err, p)
        else l1
    ensures l2.frees == ep.life.frees && l2.unsubscribeTimer == ep.life.unsubscribeTimer && l2.state == Closed
    ensures Departed(ep.(life := l2, queue := []), L.Disconnect(l2, err, p))
         == Settle(ep, L.FinalizeClose(ep.life, was, ep.engine.txState == Idle, flags, err, p))
  {
    var l1 := ep.life.(state := Closed, graceful := was == Closing && !flags.abort, cause := err);
    FinalizeUnfold(ep.life, was, ep.engine.txState == Idle, flags, err, p);
    ClosedCallback(l1, was, ep.engine.txState == Idle, err, p);
    DisconnectCloses(l2, err, p);
    DepartedSettles(ep, l2, L.Disconnect(l2, err, p));
  }

  lemma SettleInClosed(ep: EndPoint, l: Life)
    requires ep.life.state == Closed
    ensures Settle(ep, l) == ep.(life := l)
  {
  }

  /** The life of an end point that lingers, after its callback if one fires. */
  ghost function Lingered(l: Life, was: State, idle: bool, flags: CloseFlags, err: Error, p: Platform): Life {
    if flags.suppress then l.(state := Closing) else L.CloseCallback(l.(state := Closing), was, idle, err, p)
  }

  lemma SettleFrom(ep: EndPoint, l0: Life, l: Life)
    requires l0.state != Closed <==> ep.life.state != Closed
    ensures Settle(ep.(life := l0), l) == Settle(ep, l)
  {
  }

  /** What the application does next, after a close from its callback that led to `ep1`. */
  lemma SettleNext(ep: EndPoint, l1: Life, p: Platform)
    requires ep.life.state == Closed ==> l1.state == Closed
    ensures var ep1 := Settle(ep, l1);
      Settle(ep1, RunApp(l1, ep1.engine.txState == Idle, p)) == Settle(ep, RunApp(l1, ep.engine.txState == Idle, p))
  {
    if l1.state == Closed {
      var ep1 := Settle(ep, l1);
      ClosedIgnoresFragmenter(l1, ep.engine.txState == Idle, ep1.engine.txState == Idle, p);
      ClosedIsFinal(l1, ep.engine.txState == Idle, p);
      SettleClosed(ep, l1, RunApp(l1, ep.engine.txState == Idle, p));
    } else {
      SettleFrom(ep, l1, RunApp(l1, ep.engine.txState == Idle, p));
    }
  }

  lemma SettleClosed(ep: EndPoint, l1: Life, l2: Life)
    requires l1.state == Closed && l2.state == Closed && l2.frees == l1.frees
    requires l2.unsubscribeTimer == l1.unsubscribeTimer
    ensures Settle(Settle(ep, l1), l2) == Settle(ep, l2)
  {
  }

  lemma SettleSame(ep: EndPoint)
    ensures Settle(ep, ep.life) == ep
  {
  }

  lemma SettleClears(ep: EndPoint, l: Life)
    ensures var l1 := l.(onConnectComplete := false, onConnectionClosed := false);
      Settle(ep, l).(life := l1) == Settle(ep, l1)
  {
  }

  class BLEEndPoint {
    const config: Config
    var life: Life

    var mWoBle: Engine
    var mSendQueue: seq<Message>
    var mReceiveWindowMaxSize: uint8
    var mLocalReceiveWindowSize: uint8
    var mRemoteReceiveWindowSize: uint8
    var mAckToSend: bool

    var gattOperationInFlight: bool
    var standAloneAckInFlight: bool
    var capabilitiesMsgReceived: bool
    var capabilitiesConfReceived: bool
    var sendAckTimerRunning: bool
    var ackReceivedTimerRunning: bool

    ghost var hist: History

    ghost function LinkOf(): Link
      reads this
    {
      Link(mReceiveWindowMaxSize, mLocalReceiveWindowSize, mRemoteReceiveWindowSize, gattOperationInFlight,
           mAckToSend, standAloneAckInFlight, sendAckTimerRunning, ackReceivedTimerRunning)
    }

    ghost function Model(): EndPoint
      reads this
    {
      EndPoint(config, life, mWoBle, mSendQueue, LinkOf(), capabilitiesMsgReceived, capabilitiesConfReceived, hist)
    }

    /** An end point that is not closed has not been freed, and is not waiting for an unsubscribe. */
    ghost predicate Valid()
      reads this`life
    {
      life.state != Closed ==> life.frees == 0 && !life.unsubscribeTimer
    }

    constructor (config: Config, isCentral: bool, onConnectComplete: bool, onConnectionClosed: bool,
                 onMessageReceived: bool)
      ensures Valid()
        && Model() == New(config, Created(isCentral, onConnectComplete, onConnectionClosed, onMessageReceived))
    {
      this.config := config;
      life := Created(isCentral, onConnectComplete, onConnectionClosed, onMessageReceived);
      mWoBle, mSendQueue, mAckToSend := Init(!isCentral), [], false;
      mReceiveWindowMaxSize, mLocalReceiveWindowSize, mRemoteReceiveWindowSize := 0, 0, 0;
      gattOperationInFlight, standAloneAckInFlight := false, false;
      capabilitiesMsgReceived, capabilitiesConfReceived := false, false;
      sendAckTimerRunning, ackReceivedTimerRunning := false, false;
      hist := History([], 0, 0, 0, [], [], [], 0, 0, false, false, false, false);
    }

    // ---------- sending ----------

    method StartAckReceivedTimer(env: Env) returns (err: Error)
      modifies this`ackReceivedTimerRunning
      ensures Outcome(Model(), err) == M.StartAckReceivedTimer(old(Model()), env)
    {
      if !ackReceivedTimerRunning {
        if !env.ackTimer {
          return StartTimerFailed;
        }
        ackReceivedTimerRunning := true;
      }
      return NoError;
    }

    method StartSendAckTimer(env: Env) returns (err: Error)
      modifies this`sendAckTimerRunning, this`hist
      ensures Outcome(Model(), err) == M.StartSendAckTimer(old(Model()), env)
    {
      if !sendAckTimerRunning {
        if !env.sendAckTimer {
          return StartTimerFailed;
        }
        sendAckTimerRunning, hist := true, hist.(lapsed := false);
      }
      return NoError;
    }

    method SendCharacteristic(f: Fragment, env: Env) returns (err: Error)
      modifies this`gattOperationInFlight, this`mRemoteReceiveWindowSize, this`hist
      ensures Outcome(Model(), err) == M.SendCharacteristic(old(Model()), f, env)
    {
      gattOperationInFlight, hist := true, hist.(sends := hist.sends + 1);
      if !env.sent {
        return GattSendFailed;
      }
      mRemoteReceiveWindowSize, hist := Dec8(mRemoteReceiveWindowSize), Logged(hist, f);
      return NoError;
    }

    /** The first fragment of `m`, or the next one of the message in progress; a due ack rides on it. */
    method PrepareNextFragment(m: Option<Message>, env: Env) returns (ok: bool, sentAck: bool, f: Fragment)
      modifies this`mLocalReceiveWindowSize, this`mWoBle, this`hist
      ensures sentAck == old(sendAckTimerRunning)
      ensures var s := SendFragment(old(mWoBle), m, sentAck, env.headroom);
        && ok == s.ok && f == s.fragment
        && Model() == if ok then Acked(old(Model()), sentAck).(engine := s.engine)
                      else
                        var local := if sentAck then mReceiveWindowMaxSize else old(mLocalReceiveWindowSize);
                        old(Model()).(engine := s.engine, link := old(LinkOf()).(local := local))
    {
      sentAck := sendAckTimerRunning;
      if sentAck {
        mLocalReceiveWindowSize := mReceiveWindowMaxSize;
      }
      var s := SendFragment(mWoBle, m, sentAck, env.headroom);
      mWoBle, ok, f := s.engine, s.ok, s.fragment;
      if ok {
        hist := Acked(Model(), sentAck).hist;
      }
    }

    /** Send a prepared fragment over the air. */
    method Transmit(f: Fragment, sentAck: bool, env: Env) returns (err: Error)
      requires sentAck == sendAckTimerRunning
      modifies this`gattOperationInFlight, this`mRemoteReceiveWindowSize, this`hist, this`sendAckTimerRunning,
        this`ackReceivedTimerRunning
      ensures Outcome(Model(), err) == M.Transmit(old(Model()), f, env)
    {
      err := SendCharacteristic(f, env);
      if err != NoError {
        return;
      }
      if sentAck {
        sendAckTimerRunning := false;
      }
      err := StartAckReceivedTimer(env);
    }

    method SendPiece(m: Option<Message>, env: Env) returns (err: Error)
      modifies this
      ensures Outcome(Model(), err) == M.SendPiece(old(Model()), m, env)
    {
      var ok, sentAck, f := PrepareNextFragment(m, env);
      if !ok {
        return ProtocolAbort;
      }
      err := Transmit(f, sentAck, env);
    }

    method SendNextMessage(env: Env) returns (err: Error)
      requires |mSendQueue| > 0
      modifies this
      ensures Outcome(Model(), err) == M.SendNextMessage(old(Model()), env)
    {
      var data := mSendQueue[0];
      mSendQueue := mSendQueue[1..];
      err := SendPiece(Some(data), env);
    }

    method ContinueMessageSend(env: Env) returns (err: Error)
      modifies this
      ensures Outcome(Model(), err) == M.SendPiece(old(Model()), None, env)
    {
      err := SendPiece(None, env);
    }

    /** The ack that the waiting buffer is to hold. */
    method EncodeStandAloneAck() returns (f: Fragment)
      modifies this`mWoBle, this`hist
      ensures f == SendStandAloneAck(old(mWoBle)).fragment && Model() == AckEncoded(old(Model()))
    {
      var s := SendStandAloneAck(mWoBle);
      mWoBle, hist, f := s.engine, Acked(Model(), true).hist, s.fragment;
    }

    method DoSendStandAloneAck(env: Env) returns (err: Error)
      modifies this
      ensures Outcome(Model(), err) == M.DoSendStandAloneAck(old(Model()), env)
    {
      var f := EncodeStandAloneAck();
      err := SendCharacteristic(f, env);
      if err != NoError {
        return;
      }
      mLocalReceiveWindowSize, standAloneAckInFlight := mReceiveWindowMaxSize, true;
      err := StartAckReceivedTimer(env);
    }

    /** The whole message has gone out: go on with the next one, or finish a close that only waited for this. */
    method FinishMessage(env: Env) returns (err: Error)
      requires Valid() && mWoBle.txState == Complete && !Blocked(Model()) && !mAckToSend
      modifies this
      ensures Valid()
      ensures Outcome(Model(), err) == M.DriveSending(old(Model()), env)
    {
      mWoBle := ClearTx(mWoBle);
      err := NoError;
      if |mSendQueue| > 0 {
        err := SendNextMessage(env);
      } else if life.state == Closing && !mWoBle.expectingAck {
        FinalizeClose(life.state, CloseFlags(true, false), NoError, env.platform);
      }
    }

    /** Send what the fragmenter or the queue has next. */
    method DriveMessages(env: Env) returns (err: Error)
      requires Valid() && !Blocked(Model()) && !mAckToSend
      modifies this
      ensures Valid()
      ensures Outcome(Model(), err) == M.DriveSending(old(Model()), env)
    {
      err := NoError;
      if mWoBle.txState == Idle {
        if |mSendQueue| > 0 {
          err := SendNextMessage(env);
        }
      } else if mWoBle.txState == InProgress {
        err := ContinueMessageSend(env);
      } else if mWoBle.txState == Complete {
        err := FinishMessage(env);
      }
    }

    method DriveSending(env: Env) returns (err: Error)
      requires Valid()
      modifies this
      ensures Valid()
      ensures Outcome(Model(), err) == M.DriveSending(old(Model()), env)
    {
      if (mRemoteReceiveWindowSize <= NO_ACK_SEND_THRESHOLD && !sendAckTimerRunning && !mAckToSend)
         || mRemoteReceiveWindowSize == 0
         || gattOperationInFlight {
        return NoError;
      }
      if mAckToSend {
        err := DoSendStandAloneAck(env);
      } else {
        err := DriveMessages(env);
      }
    }

    method DriveStandAloneAck(env: Env) returns (err: Error)
      requires Valid()
      modifies this
      ensures Valid()
      ensures Outcome(Model(), err) == M.DriveStandAloneAck(old(Model()), env)
    {
      sendAckTimerRunning := false;
      if !mAckToSend {
        if !env.buffer {
          return NoMemory;
        }
        mAckToSend := true;
      }
      hist := hist.(lapsed := false);
      err := DriveSending(env);
    }

    // ---------- closing ----------

    method ReleaseBleConnection()
      modifies this`life
      ensures life == ReleaseConnection(old(life))
    {
      if life.hasConnection {
        life := life.(handBacks := life.handBacks + 1, hasConnection := false);
      }
    }

    method Free()
      modifies this`life, this`mWoBle, this`sendAckTimerRunning, this`ackReceivedTimerRunning
      ensures Model() == Departed(old(Model()), L.Free(old(life)))
      ensures life.state == old(life).state
    {
      ReleaseBleConnection();
      mWoBle := ClearRx(ClearTx(mWoBle));
      ackReceivedTimerRunning, sendAckTimerRunning := false, false;
      life := life.(connectTimer := false, receiveTimer := false, unsubscribeTimer := false,
                    onConnectComplete := false, onMessageReceived := false, onConnectionClosed := false,
                    refCount := life.refCount - 1, frees := life.frees + 1);
    }

    /** Tell the peripheral by unsubscribing, and give the connection up if that fails or is done at once. */
    method Unsubscribe(p: Platform)
      requires life.frees == 0 && !life.unsubscribeTimer
      modifies this`life, this`mWoBle, this`sendAckTimerRunning, this`ackReceivedTimerRunning,
        this`gattOperationInFlight
      ensures life.state == old(life).state
      ensures Model() == Departed(old(Model()), Unsubscribed(old(life), p))
    {
      ackReceivedTimerRunning, sendAckTimerRunning := false, false;
      if p.unsubscribeSent && !p.unsubscribeDone && life.hasConnection && p.timerStarted {
        life, gattOperationInFlight := life.(unsubscribeTimer := true), true;
      } else if !p.unsubscribeSent || p.unsubscribeDone || life.hasConnection {
        Free();
      }
    }

    /** The end of FinalizeClose. */
    method SignalClose(err: Error, p: Platform)
      requires life.state == Closed && life.frees == 0 && !life.unsubscribeTimer
      modifies this`life, this`mWoBle, this`sendAckTimerRunning, this`ackReceivedTimerRunning,
        this`gattOperationInFlight
      ensures life.state == Closed
      ensures Model() == Departed(old(Model()), L.Disconnect(old(life), err, p))
    {
      if Severed(err) {
        life := life.(hasConnection := false);
        Free();
      } else if life.central && life.didBeginSubscribe {
        Unsubscribe(p);
      } else {
        Free();
      }
    }

    method FinalizeClose(was: State, flags: CloseFlags, err: Error, p: Platform)
      requires Valid() && life.state != Closed
      modifies this
      ensures life.state == Closed
      ensures Model() ==
        Settle(old(Model()), L.FinalizeClose(old(life), was, old(mWoBle).txState == Idle, flags, err, p))
      decreases p.app, 2
    {
      ghost var ep := Model();
      life := life.(state := Closed, graceful := was == Closing && !flags.abort, cause := err);
      mSendQueue := [];
      ghost var closed := Model();
      if was != Closing && !flags.suppress {
        SettleInClosed(closed, L.CloseCallback(closed.life, was, mWoBle.txState == Idle, err, p));
        DoCloseCallback(was, err, p);
      }
      assert Model() == ep.(life := life, queue := []);
      FinalizeSettles(ep, was, flags, err, p, life);
      SignalClose(err, p);
    }

    method DoCloseCallback(was: State, err: Error, p: Platform)
      requires Valid()
      modifies this
      ensures Valid()
      ensures Model() == Settle(old(Model()), L.CloseCallback(old(life), was, old(mWoBle).txState == Idle, err, p))
      decreases p.app, 1, 2
    {
      ghost var ep := Model();
      Notify(was, err, p);
      SettleClears(ep, life);
      life := life.(onConnectComplete := false, onConnectionClosed := false);
    }

    method Notify(was: State, err: Error, p: Platform)
      requires Valid()
      modifies this
      ensures Valid()
      ensures Model() == Settle(old(Model()), L.Notify(old(life), was, old(mWoBle).txState == Idle, err, p))
      decreases p.app, 1, 1
    {
      SettleSame(Model());
      if was == Connecting {
        if life.onConnectComplete {
          FireCallback(ConnectFailed(err), p);
        }
      } else if life.onConnectionClosed {
        FireCallback(ConnectionClosed(err), p);
      }
    }

    method FireCallback(n: Notice, p: Platform)
      requires Valid()
      modifies this
      ensures Valid()
      ensures Model() == Settle(old(Model()), RunApp(Tell(old(life), n), old(mWoBle).txState == Idle, p))
      decreases p.app, 1, 0
    {
      life := Tell(life, n);
      Application(p);
    }

    /** What the application does in its callback: any sequence of calls that may close this end point again. */
    method Application(p: Platform)
      requires Valid()
      modifies this
      ensures Valid()
      ensures Model() == Settle(old(Model()), RunApp(old(life), old(mWoBle).txState == Idle, p))
      decreases p.app, 0
    {
      if p.app.Call? {
        ghost var ep := Model();
        PerformCall(p.app.call, p.(app := p.app.nested));
        PerformStaysClosed(ep.life, p.app.call, ep.engine.txState == Idle, p.(app := p.app.nested));
        SettleNext(ep, life, p.(app := p.app.next));
        Application(p.(app := p.app.next));
      }
    }

    method PerformCall(call: CloseCall, p: Platform)
      requires Valid()
      modifies this
      ensures Valid()
      ensures Model() == Settle(old(Model()), Perform(old(life), call, old(mWoBle).txState == Idle, p))
      decreases p.app, 7
    {
      match call
      case CallClose => Close(p);
      case CallAbort => Abort(p);
      case ReportError(err) => DoClose(CloseFlags(false, true), err, p);
    }

    method DoClose(flags: CloseFlags, err: Error, p: Platform)
      requires Valid()
      modifies this
      ensures Valid()
      ensures Model() == Settle(old(Model()), L.DoClose(old(life), old(mWoBle).txState == Idle, flags, err, p))
      decreases p.app, 5
    {
      DoCloseUnfold(life, mWoBle.txState == Idle, flags, err, p);
      if (life.state != Closed && life.state != Closing) || (life.state == Closing && flags.abort) {
        if mWoBle.txState == Idle || flags.abort {
          FinalizeNow(flags, err, p);
        } else {
          Linger(flags, err, p);
        }
      }
    }

    /** Stop the handshake timer and finalize. */
    method FinalizeNow(flags: CloseFlags, err: Error, p: Platform)
      requires Valid() && life.state != Closed
      modifies this
      ensures life.state == Closed
      ensures Model() == Settle(old(Model()),
          L.FinalizeClose(L.StopHandshakeTimer(old(life)), old(life).state, old(mWoBle).txState == Idle, flags, err, p))
      decreases p.app, 4
    {
      var was := life.state;
      life := L.StopHandshakeTimer(life);
      FinalizeClose(was, flags, err, p);
    }

    /** Stop the handshake timer and stay to send what the fragmenter holds. */
    method Linger(flags: CloseFlags, err: Error, p: Platform)
      requires Valid() && life.state != Closed
      modifies this
      ensures Valid()
      ensures Model() == Settle(old(Model()),
          Lingered(L.StopHandshakeTimer(old(life)), old(life).state, old(mWoBle).txState == Idle, flags, err, p))
      decreases p.app, 4
    {
      var was := life.state;
      ghost var ep := Model();
      life := L.StopHandshakeTimer(life).(state := Closing);
      ghost var lingering := life;
      if !flags.suppress {
        DoCloseCallback(was, err, p);
      }
      SettleFrom(ep, lingering, life);
    }

    method Close(p: Platform)
      requires Valid()
      modifies this
      ensures Valid()
      ensures Model() == Settle(old(Model()), Perform(old(life), CallClose, old(mWoBle).txState == Idle, p))
      decreases p.app, 6
    {
      life := life.(onConnectComplete := false, onConnectionClosed := false, onMessageReceived := false);
      DoClose(CloseFlags(true, false), NoError, p);
    }

    method Abort(p: Platform)
      requires Valid()
      modifies this
      ensures Valid()
      ensures Model() == Settle(old(Model()), Perform(old(life), CallAbort, old(mWoBle).txState == Idle, p))
      decreases p.app, 6
    {
      life := life.(onConnectComplete := false, onConnectionClosed := false, onMessageReceived := false);
      DoClose(CloseFlags(true, true), NoError, p);
    }

    // ---------- application ----------

    /** What a handler does at its end: an error aborts the connection. */
    method AbortOn(err: Error, env: Env)
      requires Valid()
      modifies this
      ensures Valid()
      ensures Model() == Settled(Outcome(old(Model()), err), env)
    {
      if err != NoError {
        DoClose(CloseFlags(false, true), err, env.platform);
      }
    }

    method QueueTx(m: Message)
      modifies this`mSendQueue
      ensures mSendQueue == old(mSendQueue) + [m]
    {
      if |mSendQueue| == 0 {
        mSendQueue := [m];
      } else {
        mSendQueue := mSendQueue + [m];
      }
    }

    method Send(m: Message, env: Env)
      requires Valid()
      modifies this
      ensures Valid()
      ensures Model() == M.Send(old(Model()), m, env)
    {
      var err;
      if !IsConnected(life) {
        err := IncorrectState;
      } else if |m| > config.capacity {
        err := OutboundTooBig;
      } else {
        QueueTx(m);
        hist := hist.(accepted := hist.accepted + [m]);
        err := DriveSending(env);
      }
      AbortOn(err, env);
    }

    // ---------- confirmations ----------

    /** An immediate ack when the window needs it and no fragment can carry it, else whatever can be sent. */
    method Proceed(fragmentWaits: bool, env: Env) returns (err: Error)
      requires Valid()
      modifies this
      ensures Valid()
      ensures Outcome(Model(), err) == M.Proceed(old(Model()), env, fragmentWaits)
    {
      if mLocalReceiveWindowSize <= IMMEDIATE_ACK_THRESHOLD && !fragmentWaits {
        err := DriveStandAloneAck(env);
      } else {
        err := DriveSending(env);
      }
    }

    method HandleFragmentConfirmationReceived(env: Env)
      requires Valid()
      modifies this
      ensures Valid()
      ensures Model() == FragmentConfirmed(old(Model()), env)
    {
      if life.unsubscribeTimer {
        return;
      }
      var err := IncorrectState;
      if IsConnected(life) {
        if standAloneAckInFlight {
          mAckToSend, standAloneAckInFlight := false, false;
        }
        err := Proceed(|mSendQueue| > 0 || mWoBle.txState == InProgress, env);
      }
      AbortOn(err, env);
    }

    method HandleHandshakeConfirmationReceived(env: Env)
      requires Valid() && |mSendQueue| > 0
      modifies this
      ensures Valid()
      ensures Model() == HandshakeConfirmed(old(Model()), env)
    {
      mSendQueue := mSendQueue[1..];
      if life.central {
        Subscribe(env);
      } else if life.state == Connected {
        var err := Proceed(|mSendQueue| > 0, env);
        AbortOn(err, env);
      } else if life.state == Aborting {
        DoClose(CloseFlags(true, true), IncompatibleVersions, env.platform);
      }
    }

    method Subscribe(env: Env)
      requires Valid()
      modifies this
      ensures Valid()
      ensures Model() == if env.subscribed
        then old(Model()).(life := old(life).(didBeginSubscribe := true), link := old(LinkOf()).(gattInFlight := true),
                           hist := old(hist).(sends := old(hist).sends + 1))
        else Fail(old(Model()), GattSubscribeFailed, env)
    {
      if env.subscribed {
        life := life.(didBeginSubscribe := true);
        gattOperationInFlight := true;
        hist := hist.(sends := hist.sends + 1);
      } else {
        DoClose(CloseFlags(false, true), GattSubscribeFailed, env.platform);
      }
    }

    /** The GATT operation in flight has finished. */
    method FinishOperation()
      modifies this`gattOperationInFlight, this`hist
      ensures Model() == Finished(old(Model()))
    {
      gattOperationInFlight := false;
      hist := hist.(confirms := hist.confirms + 1);
    }

    method HandleGattSendConfirmationReceived(env: Env)
      requires Valid() && (capabilitiesConfReceived || |mSendQueue| > 0)
      modifies this
      ensures Valid()
      ensures Model() == Confirmed(old(Model()), env)
    {
      FinishOperation();
      if !capabilitiesConfReceived {
        capabilitiesConfReceived := true;
        HandleHandshakeConfirmationReceived(env);
      } else {
        HandleFragmentConfirmationReceived(env);
      }
    }

    method DriveOrAbort(env: Env)
      requires Valid()
      modifies this
      ensures Valid()
      ensures var o := M.DriveSending(old(Model()), env);
        Model() == if o.err == NoError then o.ep else Fail(o.ep, NoError, env)
    {
      var err := DriveSending(env);
      if err != NoError {
        DoClose(CloseFlags(false, true), NoError, env.platform);
      }
    }

    method HandleSubscribeComplete(env: Env)
      requires Valid()
      modifies this
      ensures Valid()
      ensures Model() == SubscribeComplete(old(Model()), env)
    {
      FinishOperation();
      DriveOrAbort(env);
    }

    // ---------- timeouts ----------

    method HandleSendAckTimeout(env: Env)
      requires Valid()
      modifies this
      ensures Valid()
      ensures Model() == SendAckTimeout(old(Model()), env)
    {
      if sendAckTimerRunning {
        sendAckTimerRunning := false;
        if !standAloneAckInFlight {
          var err := DriveStandAloneAck(env);
          AbortOn(err, env);
        } else {
          hist := hist.(lapsed := true);
        }
      }
    }

    method HandleAckReceivedTimeout(env: Env)
      requires Valid()
      modifies this
      ensures Valid()
      ensures Model() == AckReceivedTimeout(old(Model()), env)
    {
      if ackReceivedTimerRunning {
        ackReceivedTimerRunning := false;
        DoClose(CloseFlags(false, true), FragmentAckTimedOut, env.platform);
      }
    }

    // ---------- receiving ----------

    method RestartAckReceivedTimer(env: Env) returns (err: Error)
      modifies this`ackReceivedTimerRunning
      ensures err == if !old(ackReceivedTimerRunning) then IncorrectState else if env.ackTimer then NoError
        else StartTimerFailed
      ensures ackReceivedTimerRunning == (err == NoError)
    {
      if !ackReceivedTimerRunning {
        return IncorrectState;
      }
      ackReceivedTimerRunning := false;
      err := StartAckReceivedTimer(env);
    }

    /** Pass the packet to the engine; the local window shrinks by one. */
    method TakePacket(data: Bytes, env: Env) returns (r: Received)
      requires HeaderPresent(data)
      modifies this`mWoBle, this`mLocalReceiveWindowSize, this`hist
      ensures r == BtpEngine.Receive(old(mWoBle), data, config.capacity, env.buffer)
      ensures Model() == if r.err == NoError then Taken(old(Model()), r) else old(Model()).(engine := r.engine)
    {
      r := BtpEngine.Receive(mWoBle, data, config.capacity, env.buffer);
      mWoBle := r.engine;
      if r.err == NoError {
        mLocalReceiveWindowSize := Dec8(mLocalReceiveWindowSize);
        hist := Taken(old(Model()), r).hist;
      }
    }

    /** Respond to a received ack. The handler exits when a lingering close only waited for it. */
    method HandleAck(ack: uint8, env: Env) returns (err: Error, exits: bool)
      requires Valid()
      modifies this
      ensures Valid()
      ensures exits == LastAckIn(old(Model())) && (exits ==> err == NoError)
      ensures Outcome(Model(), err) == OnAck(old(Model()), ack, env)
    {
      err, exits := NoError, false;
      if !mWoBle.expectingAck {
        ackReceivedTimerRunning := false;
        if life.state == Closing && |mSendQueue| == 0 && mWoBle.txState == Idle {
          FinalizeClose(life.state, CloseFlags(true, false), NoError, env.platform);
          return NoError, true;
        }
      } else {
        err := RestartAckReceivedTimer(env);
        if err != NoError {
          return;
        }
      }
      mRemoteReceiveWindowSize := AdjustRemoteReceiveWindow(ack, mReceiveWindowMaxSize, mWoBle.txNewest, config.offset);
      err := DriveSending(env);
    }

    /** Acknowledge what has arrived, at once or by timer. */
    method AcknowledgeReceived(env: Env) returns (err: Error)
      requires Valid()
      modifies this
      ensures Valid()
      ensures Outcome(Model(), err) == Acknowledge(old(Model()), env)
    {
      err := NoError;
      if HasUnackedData(mWoBle) {
        if mLocalReceiveWindowSize <= IMMEDIATE_ACK_THRESHOLD && !gattOperationInFlight {
          err := DriveStandAloneAck(env);
        } else {
          err := StartSendAckTimer(env);
        }
      }
    }

    method HandUpMessage()
      requires Valid()
      modifies this`mWoBle, this`hist
      ensures Valid() && Model() == HandUp(old(Model()))
    {
      if mWoBle.rxState == Complete {
        var message := mWoBle.rxBuf;
        mWoBle := ClearRx(mWoBle);
        if life.onMessageReceived && life.state != Closing {
          hist := hist.(delivered := hist.delivered + [message]);
        }
      }
    }

    /**
     The part of Receive after the ack: acknowledge, and hand up the message that is complete. The source has no test
     for an end point that was released meanwhile; what it does to one is a fault, and only that is recorded.
     */
    method FinishReceive(env: Env)
      requires Valid()
      modifies this
      ensures Valid()
      ensures Model() == Conclude(Outcome(old(Model()), NoError), env, env)
    {
      if life.frees > 0 {
        hist := RunOn(Model()).hist;
        return;
      }
      var err := AcknowledgeReceived(env);
      if err == NoError {
        HandUpMessage();
      } else {
        AbortOn(err, env);
      }
    }

    method Receive(data: Bytes, env: Env, env': Env)
      requires Valid() && HeaderPresent(data)
      modifies this
      ensures Valid()
      ensures Model() == ReceivePacket(old(Model()), data, env, env')
    {
      if life.unsubscribeTimer {
        return;
      }
      if !IsConnected(life) {
        AbortOn(IncorrectState, env);
        return;
      }
      var r := TakePacket(data, env);
      if r.err != NoError {
        AbortOn(r.err, env);
      } else {
        RespondTo(r.ack, env, env');
      }
    }

    /** The packet has been taken in: respond to its ack if it brought one, and finish. */
    method RespondTo(ack: Option<uint8>, env: Env, env': Env)
      requires Valid()
      modifies this
      ensures Valid()
      ensures var ep := old(Model());
        var o := if ack.Some? then OnAck(ep, ack.value, env) else Outcome(ep, NoError);
        Model() == if ack.Some? && LastAckIn(ep) then o.ep else Conclude(o, env, env')
    {
      var err, exits := NoError, false;
      if ack.Some? {
        err, exits := HandleAck(ack.value, env);
      }
      if err != NoError {
        AbortOn(err, env);
      } else if !exits {
        FinishReceive(env');
      }
    }

    // ---------- handshake ----------

    method GiveUp(flags: CloseFlags, err: Error, env: Env)
      requires Valid()
      modifies this
      ensures Valid()
      ensures Model() == CloseWith(old(Model()), flags, err, env)
    {
      DoClose(flags, err, env.platform);
    }

    method StartConnect(req: H.Request, env: Env)
      requires Valid()
      modifies this
      ensures Valid()
      ensures Model() == M.StartConnect(old(Model()), req, env)
    {
      if life.state != Ready {
        life := life.(connectTimer := false);
        GiveUp(CloseFlags(false, true), IncorrectState, env);
      } else {
        life := life.(state := Connecting);
        SendRequest(req, env);
      }
    }

    method SendRequest(req: H.Request, env: Env)
      requires Valid()
      modifies this
      ensures Valid()
      ensures Model() == Requests(old(Model()), req, env)
    {
      if !env.buffer {
        GiveUp(CloseFlags(false, true), NoMemory, env);
      } else if !env.handshakeTimer {
        GiveUp(CloseFlags(false, true), StartTimerFailed, env);
      } else {
        WriteRequest(env.sent);
        if env.sent {
          QueueTx(H.EncodedRequest(req));
        } else {
          GiveUp(CloseFlags(false, true), GattSendFailed, env);
        }
      }
    }

    method WriteRequest(sent: bool)
      requires Valid()
      modifies this`life, this`gattOperationInFlight, this`hist
      ensures Valid() && Model() == RequestWritten(old(Model()), sent)
    {
      gattOperationInFlight := true;
      hist := hist.(sends := hist.sends + 1);
      life := life.(connectTimer := sent);
    }

    method HandleCapabilitiesRequestReceived(data: Bytes, mtu: uint16, env: Env)
      requires Valid() && H.ValidMtu(mtu)
        && (H.DecodedRequest(data).Ok? ==> H.ValidMtu(H.DecodedRequest(data).value.mtu))
      modifies this
      ensures Valid()
      ensures Model() == CapsRequestReceived(old(Model()), data, mtu, env)
    {
      if life.state != Ready {
        GiveUp(CloseFlags(false, true), IncorrectState, env);
        return;
      }
      life, capabilitiesMsgReceived := life.(state := Connecting), true;
      var req := H.DecodedRequest(data);
      if req.Err? {
        GiveUp(CloseFlags(true, true), req.error, env);
      } else if !env.buffer {
        GiveUp(CloseFlags(true, true), NoMemory, env);
      } else {
        AnswerRequest(H.Answer(req.value, mtu, config.window), env);
      }
    }

    method AnswerRequest(resp: H.Response, env: Env)
      requires Valid() && life.state == Connecting && DEFAULT_FRAGMENT_SIZE <= resp.fragmentSize <= MAX_FRAGMENT_SIZE
      modifies this
      ensures Valid()
      ensures Model() == Answers(old(Model()), resp, env)
    {
      StashResponse(resp);
      if env.handshakeTimer {
        life := life.(receiveTimer := true);
      } else {
        GiveUp(CloseFlags(true, true), StartTimerFailed, env);
      }
    }

    method StashResponse(resp: H.Response)
      requires Valid() && life.state == Connecting && DEFAULT_FRAGMENT_SIZE <= resp.fragmentSize <= MAX_FRAGMENT_SIZE
      modifies this
      ensures Valid() && Model() == Stashed(old(Model()), resp)
    {
      mReceiveWindowMaxSize, mLocalReceiveWindowSize, mRemoteReceiveWindowSize := resp.window, resp.window, resp.window;
      if resp.version == H.VERSION_NONE {
        life := life.(state := Aborting);
      } else {
        mWoBle := mWoBle.(rxSize := resp.fragmentSize,
                          txSize := if resp.version <= 2 then resp.fragmentSize else DEFAULT_FRAGMENT_SIZE);
      }
      QueueTx(H.EncodedResponse(resp));
    }

    method HandleSubscribeReceived(env: Env)
      requires Valid()
      modifies this
      ensures Valid()
      ensures Model() == SubscribeReceived(old(Model()), env)
    {
      if !(life.state == Connecting || life.state == Aborting) || |mSendQueue| == 0 {
        GiveUp(CloseFlags(true, true), IncorrectState, env);
        return;
      }
      Indicate(env.sent);
      if !env.sent {
        GiveUp(CloseFlags(true, true), GattSendFailed, env);
        return;
      }
      var err := StartAckReceivedTimer(env);
      if err != NoError {
        GiveUp(CloseFlags(true, true), err, env);
      } else if life.state != Aborting {
        HandleReceiveConnectionComplete(env);
      }
    }

    method Indicate(sent: bool)
      modifies this`gattOperationInFlight, this`mRemoteReceiveWindowSize, this`mSendQueue, this`hist
      ensures Model() == Indicated(old(Model()), sent)
    {
      gattOperationInFlight := true;
      hist := hist.(sends := hist.sends + 1);
      if sent {
        mRemoteReceiveWindowSize := Dec8(mRemoteReceiveWindowSize);
      } else {
        mSendQueue := [];
      }
    }

    method HandleReceiveConnectionComplete(env: Env)
      requires Valid() && life.state == Connecting
      modifies this
      ensures Valid()
      ensures Model() == ReceiveConnectionComplete(old(Model()), env)
    {
      life := life.(state := Connected, receiveTimer := false);
      if env.subscribed {
        life := Tell(life, ConnectionOpened);
      } else {
        GiveUp(CloseFlags(true, true), NoConnectCallback, env);
      }
    }

    method HandleCapabilitiesResponseReceived(data: Bytes, env: Env)
      requires Valid()
      requires var r := H.DecodedResponse(data);
        r.Ok? ==> r.value.fragmentSize == 0 || r.value.fragmentSize >= DEFAULT_FRAGMENT_SIZE
      modifies this
      ensures Valid()
      ensures Model() == CapsResponseReceived(old(Model()), data, env)
    {
      if life.state != Connecting {
        GiveUp(CloseFlags(false, true), IncorrectState, env);
        return;
      }
      capabilitiesMsgReceived := true;
      var resp := H.DecodedResponse(data);
      if resp.Err? {
        GiveUp(CloseFlags(false, true), resp.error, env);
      } else {
        var terms := H.CentralTerms(resp.value);
        if terms.Err? {
          GiveUp(CloseFlags(false, true), terms.error, env);
        } else {
          TakeTerms(terms.value, env);
        }
      }
    }

    method TakeTerms(t: H.Terms, env: Env)
      requires Valid() && life.state == Connecting
      modifies this
      ensures Valid()
      ensures Model() == Opens(old(Model()), t, env)
    {
      AcceptTerms(t);
      var err := StartSendAckTimer(env);
      if err != NoError {
        GiveUp(CloseFlags(false, true), err, env);
      } else {
        HandleConnectComplete(env);
      }
    }

    method HandleConnectComplete(env: Env)
      requires Valid() && life.state == Connecting
      modifies this
      ensures Valid()
      ensures Model() == ConnectComplete(old(Model()), env)
    {
      life := life.(state := Connected, connectTimer := false);
      if life.onConnectComplete {
        life := Tell(life, ConnectionOpened);
      } else {
        GiveUp(CloseFlags(false, true), NoConnectCallback, env);
      }
    }

    method AcceptTerms(t: H.Terms)
      modifies this`mWoBle, this`mReceiveWindowMaxSize, this`mLocalReceiveWindowSize, this`mRemoteReceiveWindowSize
      ensures Model() == Agreed(old(Model()), t)
    {
      mWoBle := mWoBle.(rxSize := t.rxSize, txSize := t.txSize);
      mReceiveWindowMaxSize, mLocalReceiveWindowSize, mRemoteReceiveWindowSize := t.max, t.local, t.remote;
    }

    method HandleHandshakeTimeout(env: Env)
      requires Valid()
      modifies this
      ensures Valid()
      ensures Model() == HandshakeTimeout(old(Model()), env)
    {
      if life.central && life.connectTimer {
        life := life.(connectTimer := false);
        GiveUp(CloseFlags(false, true), ConnectTimedOut, env);
      } else if !life.central && life.receiveTimer {
        life := life.(receiveTimer := false);
        GiveUp(CloseFlags(true, true), ReceiveTimedOut, env);
      }
    }

    method HandleUnsubscribeComplete()
      requires Valid()
      modifies this
      ensures Valid() && Model() == UnsubscribeDone(old(Model()))
    {
      if life.unsubscribeTimer {
        Free();
      }
    }
  }
}
