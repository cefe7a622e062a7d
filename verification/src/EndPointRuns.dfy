/**
 Every run of one end point from its creation on, against any application, platform and peer: the packets it
 receives hold arbitrary bytes.
 */
module EndPointRuns {
  import opened Common
  import opened Fragments
  import opened BtpEngine
  import opened Numbering
  import opened Windows
  import opened Lifecycle
  import opened EndPointModel
  import opened EndPointInvariant
  import opened EndPointEvents
  import opened EndPointEdges
  import H = Handshake

  // ---------- the invariant ----------

  /** Nothing but the handshake has been sent or taken in. */
  predicate Untouched(ep: EndPoint) {
    && ep.engine == Init(!ep.life.central).(rxSize := ep.engine.rxSize, txSize := ep.engine.txSize)
    && ep.hist == History([], 0, 0, 0, [], [], [], ep.hist.sends, ep.hist.confirms, false, false, false, false)
    && ep.hist.sends == ep.hist.confirms + (if ep.link.gattInFlight then 1 else 0)
    && !ep.link.ackPending && !ep.link.ackInFlight && !ep.link.sendAckTimer
  }

  /** How far the handshake has come. */
  predicate Early(ep: EndPoint) {
    Untouched(ep) && (ep.link.ackReceivedTimer ==> ep.life.state == Aborting) &&
    match ep.life.state
    case Ready =>
      && ep.queue == [] && !ep.capsReceived && !ep.capsConfirmed && ep.link.remote == 0 && ep.hist.sends == 0
      && !ep.life.didBeginSubscribe
    case Connecting =>
      if ep.life.central then
        !ep.capsReceived && ep.link.remote == 0 && ep.life.didBeginSubscribe == ep.capsConfirmed &&
        (if ep.capsConfirmed then ep.queue == [] else ep.link.gattInFlight && |ep.queue| == 1)
      else
        && ep.capsReceived && !ep.capsConfirmed && |ep.queue| == 1 && ep.hist.sends == 0
        && ep.link.max == ep.link.local == ep.link.remote && ep.link.max >= 1
    case _ => !ep.life.central && ep.capsReceived && !ep.capsConfirmed && |ep.queue| == 1
  }

  /** While an end point is connecting, the timer for its side of the handshake runs. */
  predicate Timed(l: Life) {
    l.state == Connecting || l.state == Aborting ==> if l.central then l.connectTimer else l.receiveTimer
  }

  /** An open end point has had the peer's handshake message and has been announced, and a central has subscribed. */
  predicate Established(ep: EndPoint) {
    IsConnected(ep.life) ==>
      && ep.capsReceived && (ep.life.central ==> ep.life.didBeginSubscribe)
      && (ep.life.state == Connected ==> ep.life.told == [ConnectionOpened])
  }

  predicate EpInv(ep: EndPoint) {
    && Sound(ep.life) && ep.config.window >= 1
    && (Rank(ep.life.state) < 3 ==> Early(ep) && Timed(ep.life))
    && (IsConnected(ep.life) ==> Good(ep)) && Established(ep)
    && (ep.life.state == Closed ==> Dormant(ep))
    && (ep.life.graceful ==> AllAcked(ep))
  }

  predicate Silenced(l: Life) {
    !l.onConnectComplete && !l.onConnectionClosed
  }

  /** The application learns no more than that the connection is open. */
  predicate ToldNoEnd(told: seq<Notice>, told': seq<Notice>) {
    told' == told || (told == [] && told' == [ConnectionOpened])
  }

  /**
   What every step does: the state never moves back, no callback comes back once cleared and none fires then, and
   a closed end point sends, accepts and delivers nothing more.
   */
  predicate Advances(ep: EndPoint, ep': EndPoint) {
    && Rank(ep.life.state) <= Rank(ep'.life.state) && Quieter(ep.life, ep'.life)
    && ep'.life.central == ep.life.central && ep'.config == ep.config
    && (Silenced(ep.life) ==> ToldNoEnd(ep.life.told, ep'.life.told))
    && (!ep.life.onMessageReceived ==> ep'.hist.delivered == ep.hist.delivered)
    && (ep.life.state == Closed ==>
          ep'.hist.log == ep.hist.log && ep'.hist.accepted == ep.hist.accepted
            && ep'.hist.delivered == ep.hist.delivered)
  }

  predicate Steps(ep: EndPoint, ep': EndPoint) {
    EpInv(ep') && Advances(ep, ep')
  }

  // ---------- before the connection is open ----------

  /** `ep` is on its way from `ep0`, and no callback has been touched. */
  predicate Onward(ep0: EndPoint, ep: EndPoint) {
    && Rank(ep0.life.state) <= Rank(ep.life.state) < 4 && ep.config == ep0.config
    && ep.hist.delivered == ep0.hist.delivered
    && ep.life.central == ep0.life.central && Quieter(ep0.life, ep.life)
    && ep.life.told == ep0.life.told
  }

  /** A step of the handshake: if the connection is open after it, it has just been opened. */
  predicate Begins(ep: EndPoint, ep': EndPoint) {
    Steps(ep, ep') && (IsConnected(ep'.life) ==> OpensCentral(ep') || OpensPeripheral(ep'))
  }

  /** An end point that gives up the handshake is closed, and that is all there is to say about it. */
  lemma EarlyAborts(ep0: EndPoint, ep: EndPoint, flags: CloseFlags, err: Error, env: Env)
    requires Onward(ep0, ep) && Sound(ep.life) && flags.abort && ep.config.window >= 1
    ensures Begins(ep0, CloseWith(ep, flags, err, env))
  {
    AbortCloses(ep, flags, err, env);
  }

  lemma EarlyCalls(ep: EndPoint, call: CloseCall, env: Env)
    requires EpInv(ep) && Rank(ep.life.state) < 3
    ensures Begins(ep, AppCall(ep, call, env))
  {
    IdleCloses(ep.life, call, env.platform);
    SettleCloses(ep, Perform(ep.life, call, true, env.platform));
  }

  lemma EarlyConnects(ep: EndPoint, req: H.Request, env: Env)
    requires EpInv(ep) && Rank(ep.life.state) < 3 && ep.life.central
    ensures Begins(ep, StartConnect(ep, req, env))
  {
    if ep.life.state != Ready {
      EarlyAborts(ep, ep.(life := ep.life.(connectTimer := false)), CloseFlags(false, true), IncorrectState, env);
    } else {
      RequestSent(ep, ep.(life := ep.life.(state := Connecting)), req, env);
    }
  }

  lemma RequestSent(ep0: EndPoint, ep: EndPoint, req: H.Request, env: Env)
    requires Sound(ep.life) && ep.config.window >= 1 && ep.life.state == Connecting && ep.life.central
    requires Untouched(ep) && !ep.link.ackReceivedTimer && ep.queue == [] && ep.hist.sends == 0
    requires !ep.capsReceived && !ep.capsConfirmed && ep.link.remote == 0 && !ep.life.didBeginSubscribe
    requires Onward(ep0, ep)
    ensures Begins(ep0, Requests(ep, req, env))
  {
    var flags := CloseFlags(false, true);
    if !env.buffer || !env.handshakeTimer {
      EarlyAborts(ep0, ep, flags, if !env.buffer then NoMemory else StartTimerFailed, env);
    } else if !env.sent {
      EarlyAborts(ep0, RequestWritten(ep, false), flags, GattSendFailed, env);
    } else {
      RequestWaits(ep0, ep, RequestWritten(ep, true), req);
    }
  }

  /** The request is on its way and parked until it is confirmed. */
  lemma RequestWaits(ep0: EndPoint, ep: EndPoint, ep1: EndPoint, req: H.Request)
    requires Sound(ep.life) && ep.config.window >= 1 && ep.life.state == Connecting && ep.life.central
    requires Untouched(ep) && !ep.link.ackReceivedTimer && ep.queue == [] && ep.hist.sends == 0
    requires !ep.capsReceived && !ep.capsConfirmed && ep.link.remote == 0 && !ep.life.didBeginSubscribe
    requires Onward(ep0, ep) && ep1 == RequestWritten(ep, true)
    ensures Begins(ep0, ep1.(queue := ep1.queue + [H.EncodedRequest(req)]))
  {
  }

  lemma RequestTaken(ep: EndPoint, data: Bytes, mtu: uint16, env: Env)
    requires EpInv(ep) && ep.life.state == Ready && Enabled(ep, RequestIn(data, mtu))
    ensures Begins(ep, CapsRequestReceived(ep, data, mtu, env))
  {
    var flags := CloseFlags(true, true);
    var req := H.DecodedRequest(data);
    var ep1 := ep.(life := ep.life.(state := Connecting), capsReceived := true);
    if req.Err? {
      EarlyAborts(ep, ep1, flags, req.error, env);
    } else if !env.buffer {
      EarlyAborts(ep, ep1, flags, NoMemory, env);
    } else {
      var resp := H.Answer(req.value, mtu, ep.config.window);
      RequestAnswered(ep, ep1, resp, env);
    }
  }

  lemma RequestAnswered(ep: EndPoint, ep1: EndPoint, resp: H.Response, env: Env)
    requires DEFAULT_FRAGMENT_SIZE <= resp.fragmentSize <= MAX_FRAGMENT_SIZE && resp.window >= 1
    requires ep1.config.window >= 1 && Asked(ep1) && Onward(ep, ep1)
    ensures Begins(ep, Answers(ep1, resp, env))
  {
    if H.PeripheralTerms(resp).None? {
      StashedRefusal(ep1, resp);
    } else {
      StashedResponse(ep1, resp);
    }
    var ep2 := Stashed(ep1, resp);
    StashesOnward(ep, ep1, ep2);
    if env.handshakeTimer {
      AnswerWaits(ep, ep2);
    } else {
      EarlyAborts(ep, ep2, CloseFlags(true, true), StartTimerFailed, env);
    }
  }

  lemma StashesOnward(ep: EndPoint, ep1: EndPoint, ep2: EndPoint)
    requires Onward(ep, ep1) && Stashes(ep1, ep2) && ep1.life.state == Connecting
    ensures Onward(ep, ep2)
  {
  }

  /** A new peripheral that has just taken in the request. */
  predicate Asked(ep: EndPoint) {
    && Sound(ep.life) && ep.life.state == Connecting && !ep.life.central && Untouched(ep) && !ep.link.ackReceivedTimer
    && ep.queue == [] && ep.capsReceived && !ep.capsConfirmed && ep.hist.sends == 0
  }

  /** The response is parked. */
  predicate Stashes(ep: EndPoint, ep1: EndPoint) {
    && Early(ep1) && Sound(ep1.life) && !ep1.life.central && ep1.config == ep.config
    && (ep1.life.state == Connecting || ep1.life.state == Aborting)
    && ep1.hist == ep.hist && ep1.life == ep.life.(state := ep1.life.state)
  }

  lemma StashedRefusal(ep: EndPoint, resp: H.Response)
    requires DEFAULT_FRAGMENT_SIZE <= resp.fragmentSize <= MAX_FRAGMENT_SIZE && resp.window >= 1
    requires Asked(ep) && H.PeripheralTerms(resp).None?
    ensures Stashes(ep, Stashed(ep, resp))
  {
    assert Stashed(ep, resp).engine == ep.engine;
  }

  lemma StashedResponse(ep: EndPoint, resp: H.Response)
    requires DEFAULT_FRAGMENT_SIZE <= resp.fragmentSize <= MAX_FRAGMENT_SIZE && resp.window >= 1
    requires Asked(ep) && H.PeripheralTerms(resp).Some?
    ensures Stashes(ep, Stashed(ep, resp))
  {
    assert Stashed(ep, resp).life == ep.life;
  }

  lemma AnswerWaits(ep: EndPoint, ep2: EndPoint)
    requires Sound(ep2.life) && ep2.config.window >= 1 && Onward(ep, ep2) && !ep2.life.central
    requires Early(ep2) && (ep2.life.state == Connecting || ep2.life.state == Aborting)
    ensures Begins(ep, ep2.(life := ep2.life.(receiveTimer := true)))
  {
  }

  lemma ResponseTaken(ep: EndPoint, data: Bytes, env: Env)
    requires EpInv(ep) && ep.life.state == Connecting && Enabled(ep, ResponseIn(data))
    ensures Begins(ep, CapsResponseReceived(ep, data, env))
  {
    var flags := CloseFlags(false, true);
    var resp := H.DecodedResponse(data);
    var ep1 := ep.(capsReceived := true);
    if resp.Err? {
      EarlyAborts(ep, ep1, flags, resp.error, env);
    } else if H.CentralTerms(resp.value).Err? {
      EarlyAborts(ep, ep1, flags, H.CentralTerms(resp.value).error, env);
    } else {
      TermsTaken(ep, ep1, H.CentralTerms(resp.value).value, env);
    }
  }

  lemma TermsTaken(ep: EndPoint, ep1: EndPoint, t: H.Terms, env: Env)
    requires t.local == Dec8(t.max) && t.remote == t.max && ep1.config.window >= 1
    requires Sound(ep1.life) && ep1.life.state == Connecting && ep1.life.central && Untouched(ep1)
    requires !ep1.link.ackReceivedTimer
    requires ep1.queue == [] && ep1.capsConfirmed && ep1.capsReceived && ep1.life.didBeginSubscribe
    requires Onward(ep, ep1)
    ensures Begins(ep, Opens(ep1, t, env))
  {
    var flags := CloseFlags(false, true);
    if !env.sendAckTimer {
      EarlyAborts(ep, Agreed(ep1, t), flags, StartTimerFailed, env);
    } else {
      ConnectCompletes(ep, StartSendAckTimer(Agreed(ep1, t), env).ep, env);
    }
  }

  lemma ConnectCompletes(ep: EndPoint, ep1: EndPoint, env: Env)
    requires Onward(ep, ep1) && Sound(ep1.life) && ep1.life.state == Connecting && ep1.config.window >= 1
    requires OpensCentral(ep1.(life := Tell(ep1.life.(state := Connected, connectTimer := false), ConnectionOpened)))
    ensures Begins(ep, ConnectComplete(ep1, env))
  {
    var ep2 := ep1.(life := ep1.life.(state := Connected, connectTimer := false));
    if ep1.life.onConnectComplete {
      OpensCentralGood(ConnectComplete(ep1, env));
    } else {
      EarlyAborts(ep, ep2, CloseFlags(false, true), NoConnectCallback, env);
    }
  }

  lemma PeerSubscribes(ep: EndPoint, env: Env)
    requires EpInv(ep) && Rank(ep.life.state) < 3 && Enabled(ep, PeerSubscribed)
    ensures Begins(ep, SubscribeReceived(ep, env))
  {
    var flags := CloseFlags(true, true);
    if ep.life.state == Ready {
      EarlyAborts(ep, ep, flags, IncorrectState, env);
    } else if !env.sent {
      var ep1 := ep.(link := ep.link.(gattInFlight := true), hist := ep.hist.(sends := ep.hist.sends + 1));
      EarlyAborts(ep, ep1.(queue := []), flags, GattSendFailed, env);
    } else {
      IndicationSent(ep, env);
    }
  }

  lemma IndicationSent(ep: EndPoint, env: Env)
    requires EpInv(ep) && Rank(ep.life.state) < 3 && ep.life.state != Ready && Enabled(ep, PeerSubscribed) && env.sent
    ensures Begins(ep, SubscribeReceived(ep, env))
  {
    var flags := CloseFlags(true, true);
    var ep1 := Indicated(ep, true);
    if !ep.link.ackReceivedTimer && !env.ackTimer {
      EarlyAborts(ep, ep1, flags, StartTimerFailed, env);
    } else if ep.life.state == Connecting {
      IndicationOpens(ep, env);
    }
  }

  lemma IndicationOpens(ep: EndPoint, env: Env)
    requires EpInv(ep) && ep.life.state == Connecting && Enabled(ep, PeerSubscribed) && env.sent
    requires ep.link.ackReceivedTimer || env.ackTimer
    ensures Begins(ep, SubscribeReceived(ep, env))
  {
    var ep1 := Indicated(ep, true);
    PeripheralOpens(ep,
      ep1.(link := ep1.link.(ackReceivedTimer := true),
        life := ep1.life.(state := Connected, receiveTimer := false)), env);
  }

  lemma PeripheralOpens(ep: EndPoint, ep1: EndPoint, env: Env)
    requires Onward(ep, ep1) && ep.life.state != Closed && ep1.config.window >= 1 && Sound(ep1.life)
    requires ep1.life.told == [] && OpensPeripheral(ep1.(life := Tell(ep1.life, ConnectionOpened)))
    ensures Begins(ep, ep1.(life := Tell(ep1.life, ConnectionOpened)))
    ensures Begins(ep, CloseWith(ep1, CloseFlags(true, true), NoConnectCallback, env))
  {
    OpensPeripheralGood(ep1.(life := Tell(ep1.life, ConnectionOpened)));
    EarlyAborts(ep, ep1, CloseFlags(true, true), NoConnectCallback, env);
  }

  lemma HandshakeLanded(ep: EndPoint, env: Env)
    requires EpInv(ep) && Rank(ep.life.state) < 3 && Enabled(ep, GattConfirmed)
    ensures Begins(ep, Confirmed(ep, env))
  {
    if ep.life.central {
      RequestLanded(ep, env);
    } else {
      IndicationLanded(ep, env);
    }
  }

  lemma RequestLanded(ep: EndPoint, env: Env)
    requires EpInv(ep) && Rank(ep.life.state) < 3 && Enabled(ep, GattConfirmed) && ep.life.central
    ensures Begins(ep, Confirmed(ep, env))
  {
    if !env.subscribed {
      var ep1 := Finished(ep).(capsConfirmed := true, queue := ep.queue[1..]);
      EarlyAborts(ep, ep1, CloseFlags(false, true), GattSubscribeFailed, env);
    }
  }

  lemma IndicationLanded(ep: EndPoint, env: Env)
    requires EpInv(ep) && Rank(ep.life.state) < 3 && Enabled(ep, GattConfirmed) && !ep.life.central
    ensures Begins(ep, Confirmed(ep, env))
  {
    var ep1 := Finished(ep).(capsConfirmed := true, queue := ep.queue[1..]);
    EarlyAborts(ep, ep1, CloseFlags(true, true), IncompatibleVersions, env);
  }

  lemma EarlyAckWait(ep: EndPoint, env: Env)
    requires EpInv(ep) && Rank(ep.life.state) < 3
    ensures Begins(ep, AckReceivedTimeout(ep, env))
  {
    if ep.link.ackReceivedTimer {
      EarlyAborts(ep, ep.(link := ep.link.(ackReceivedTimer := false)), CloseFlags(false, true), FragmentAckTimedOut,
        env);
    }
  }

  lemma EarlyTimeout(ep: EndPoint, env: Env)
    requires EpInv(ep) && Rank(ep.life.state) < 3
    ensures Begins(ep, HandshakeTimeout(ep, env))
  {
    if ep.life.central && ep.life.connectTimer {
      EarlyAborts(ep, ep.(life := ep.life.(connectTimer := false)), CloseFlags(false, true), ConnectTimedOut, env);
    } else if !ep.life.central && ep.life.receiveTimer {
      EarlyAborts(ep, ep.(life := ep.life.(receiveTimer := false)), CloseFlags(true, true), ReceiveTimedOut, env);
    }
  }

  /** The subscription is in place, but nothing can be sent before the response has come. */
  lemma EarlySubscribed(ep: EndPoint, env: Env)
    requires EpInv(ep) && Rank(ep.life.state) < 3 && Enabled(ep, GattSubscribed)
    ensures Begins(ep, SubscribeComplete(ep, env))
  {
  }

  lemma EarlyKeeps(ep: EndPoint, event: Event, env: Env)
    requires EpInv(ep) && Rank(ep.life.state) < 3 && Enabled(ep, event)
    ensures Begins(ep, Apply(ep, event, env))
  {
    match event
    case AppSend(_) => EarlyAborts(ep, ep, CloseFlags(false, true), IncorrectState, env);
    case PacketIn(_, _) => EarlyAborts(ep, ep, CloseFlags(false, true), IncorrectState, env);
    case AppClose(call) => EarlyCalls(ep, call, env);
    case AppConnect(req) => EarlyConnects(ep, req, env);
    case RequestIn(data, mtu) => RequestTaken(ep, data, mtu, env);
    case ResponseIn(data) => ResponseTaken(ep, data, env);
    case PeerSubscribed => PeerSubscribes(ep, env);
    case GattConfirmed => HandshakeLanded(ep, env);
    case GattSubscribed => EarlySubscribed(ep, env);
    case GattUnsubscribed =>
    case SendAckExpired =>
    case AckWaitExpired => EarlyAckWait(ep, env);
    case HandshakeExpired => EarlyTimeout(ep, env);
  }

  // ---------- while the connection is open ----------

  /** What holds between the moves of one event. */
  predicate Underway(ep: EndPoint) {
    && Sound(ep.life) && ep.config.window >= 1 && Rank(ep.life.state) >= 3 && Established(ep)
    && (IsConnected(ep.life) ==> Core(ep))
    && (ep.life.state == Closed ==> Dormant(ep))
    && (ep.life.graceful ==> AllAcked(ep))
  }

  lemma MoveAdvances(ep: EndPoint, ep': EndPoint)
    requires IsConnected(ep.life) && Move(ep, ep')
    ensures Advances(ep, ep')
  {
  }

  lemma MoveUnderway(ep: EndPoint, ep': EndPoint)
    requires Underway(ep) && IsConnected(ep.life) && Move(ep, ep')
    ensures Underway(ep')
  {
    if Prepares(ep, ep') && Core(ep') {
    } else if Finalizes(ep, ep') {
      FinalizesAllAcked(ep, ep');
    } else if Drives(ep, ep') {
      DrivesUnderway(ep, ep');
    } else if ep' == HandUp(ep) {
      HandUpCore(ep);
    } else if Lingers(ep, ep') {
      LingersCore(ep, ep');
    }
  }

  lemma DrivesUnderway(ep: EndPoint, ep': EndPoint)
    requires Underway(ep) && IsConnected(ep.life) && Drives(ep, ep') && !Finalizes(ep, ep')
    ensures Underway(ep')
  {
    DrivesKeeps(ep, ep');
  }

  lemma {:induction false} PathSteps(path: seq<EndPoint>, ep0: EndPoint, ep: EndPoint, ep': EndPoint)
    requires Path(path, ep, ep') && Underway(ep) && Advances(ep0, ep)
    ensures Underway(ep') && Advances(ep0, ep')
    decreases |path|
  {
    if |path| > 1 {
      assert Move(path[0], path[1]);
      MoveUnderway(ep, path[1]);
      MoveAdvances(ep, path[1]);
      PathSteps(path[1..], ep0, path[1], ep');
    }
  }

  lemma OpenEventKeeps(ep: EndPoint, event: Event, env: Env)
    requires EpInv(ep) && IsConnected(ep.life) && Enabled(ep, event) && !event.PacketIn?
    ensures Steps(ep, Apply(ep, event, env))
  {
    var path := EventMoves(ep, event, env);
    PathSteps(path, ep, ep, Apply(ep, event, env));
  }

  lemma TakenUnderway(ep: EndPoint, r: Received)
    requires EpInv(ep) && IsConnected(ep.life) && Accepts(ep, r)
    ensures Underway(After(ep, r)) && Advances(ep, After(ep, r))
  {
    AfterKeeps(ep, r);
  }

  lemma OpenPacketKeeps(ep: EndPoint, data: Bytes, env: Env, env': Env)
    requires EpInv(ep) && IsConnected(ep.life) && HeaderPresent(data)
    ensures Steps(ep, ReceivePacket(ep, data, env, env'))
  {
    var ep' := ReceivePacket(ep, data, env, env');
    var r := Reply(ep, data, env);
    if r.err == NoError {
      ReplyAccepts(ep, data, env);
      TakenUnderway(ep, r);
      var path := PacketMoves(ep, data, env, env');
      PathSteps(path, ep, After(ep, r), ep');
    } else {
      RefusedMoves(ep, data, env, env');
      MoveAdvances(ep, ep');
    }
  }

  // ---------- once it is closed ----------

  lemma ClosedKeeps(ep: EndPoint, event: Event, env: Env)
    requires EpInv(ep) && ep.life.state == Closed && Enabled(ep, event)
    ensures Steps(ep, Apply(ep, event, env))
  {
    if event.PacketIn? {
      ClosedPacket(ep, event.data, env, event.env');
    } else {
      ClosedApplies(ep, event, env);
    }
  }

  // ---------- every run ----------

  lemma EventSteps(ep: EndPoint, event: Event, env: Env)
    requires EpInv(ep) && Enabled(ep, event)
    ensures Steps(ep, Apply(ep, event, env))
  {
    if Rank(ep.life.state) < 3 {
      EarlyKeeps(ep, event, env);
    } else if ep.life.state == Closed {
      ClosedKeeps(ep, event, env);
    } else if event.PacketIn? {
      OpenPacketKeeps(ep, event.data, env, event.env');
    } else {
      OpenEventKeeps(ep, event, env);
    }
  }

  datatype Occurrence = Occurrence(event: Event, env: Env)

  /** The occurrences `os` lead from `ep` to `ep'`. */
  ghost predicate Runs(ep: EndPoint, os: seq<Occurrence>, ep': EndPoint)
    decreases |os|
  {
    if |os| == 0 then ep' == ep
    else Enabled(ep, os[0].event) && Runs(Apply(ep, os[0].event, os[0].env), os[1..], ep')
  }

  lemma AdvancesOn(ep: EndPoint, mid: EndPoint, ep': EndPoint)
    requires Advances(ep, mid) && Advances(mid, ep')
    ensures Advances(ep, ep')
  {
  }

  /**
   Lifecycle over all event orders: along every run the state never moves back; once the callbacks are cleared,
   as by Close and Abort, no close callback fires and no message is delivered; and nothing goes out after Closed.
   */
  lemma {:induction false} RunSteps(ep: EndPoint, os: seq<Occurrence>, ep': EndPoint)
    requires EpInv(ep) && Runs(ep, os, ep')
    ensures EpInv(ep') && Advances(ep, ep')
    decreases |os|
  {
    if |os| > 0 {
      var mid := Apply(ep, os[0].event, os[0].env);
      EventSteps(ep, os[0].event, os[0].env);
      RunSteps(mid, os[1..], ep');
      AdvancesOn(ep, mid, ep');
    }
  }

  /** A new end point, with any configuration, role and callbacks. */
  predicate IsNew(ep: EndPoint) {
    && ep == New(ep.config, ep.life) && ep.config.window >= 1
    && ep.life == Created(ep.life.central, ep.life.onConnectComplete, ep.life.onConnectionClosed,
                          ep.life.onMessageReceived)
  }

  ghost predicate Reachable(ep: EndPoint) {
    exists ep0, os :: IsNew(ep0) && Runs(ep0, os, ep)
  }

  lemma ReachableInv(ep: EndPoint)
    requires Reachable(ep)
    ensures EpInv(ep)
  {
    var ep0, os :| IsNew(ep0) && Runs(ep0, os, ep);
    RunSteps(ep0, os, ep);
  }

  // ---------- what that means ----------

  /**
   One GATT operation at a time: until it is closed, an end point has started at most one operation more than
   have been confirmed, and its in-flight flag says which.
   */
  lemma SingleOperation(ep: EndPoint)
    requires Reachable(ep) && ep.life.state != Closed
    ensures ep.hist.sends - ep.hist.confirms == if ep.link.gattInFlight then 1 else 0
  {
    ReachableInv(ep);
  }

  /**
   Windows against any peer: the remote window and the outstanding fragments add up to the maximum, or, with the
   offset as written and a multiple of 256 among the outstanding numbers, to one more; and the local window is
   the maximum less what is unacknowledged, modulo 256.
   */
  lemma WindowSums(ep: EndPoint)
    requires Reachable(ep) && IsConnected(ep.life)
    ensures var sum := ep.link.remote + Outstanding(ep);
      && (sum == ep.link.max
        || (sum == ep.link.max + 1 && ep.config.offset == AS_WRITTEN && NextPage(ep.hist.txA) < TxN(ep)))
      && 0 <= Outstanding(ep) <= ep.link.max + (EXACT - ep.config.offset)
    ensures ep.link.local == (ep.link.max - Unacked(ep)) % 0x100
  {
    ReachableInv(ep);
    SumsHold(ep);
  }

  lemma SumsHold(ep: EndPoint)
    requires Numbers(ep)
    ensures var sum := ep.link.remote + Outstanding(ep);
      && (sum == ep.link.max
        || (sum == ep.link.max + 1 && ep.config.offset == AS_WRITTEN && NextPage(ep.hist.txA) < TxN(ep)))
      && 0 <= Outstanding(ep) <= ep.link.max + (EXACT - ep.config.offset)
    ensures ep.link.local == (ep.link.max - Unacked(ep)) % 0x100
  {
  }

  /**
   The engine's 8-bit fields stand for unbounded numbers throughout: what is sent and unacknowledged is exactly
   the interval between the oldest and newest unacknowledged numbers.
   */
  lemma NumbersHold(ep: EndPoint)
    requires Reachable(ep) && IsConnected(ep.life)
    ensures TxRep(ep.engine, ep.hist.txA, TxN(ep)) && RxRep(ep.engine, ep.hist.rxA, RxN(ep))
  {
    ReachableInv(ep);
  }

  /**
   The parked handshake message is never fragmented, and every message the application handed over is, in order,
   in the log, in the fragmenter, or in the queue behind it.
   */
  lemma ParkedPayload(ep: EndPoint)
    requires Reachable(ep) && IsConnected(ep.life)
    ensures ep.capsConfirmed || |ep.queue| > 0
    ensures var a := Assemble(ep.hist.log);
      && ep.hist.accepted == a.done + Current(ep, a) + (if ep.capsConfirmed then ep.queue else ep.queue[1..])
      && (!ep.capsConfirmed ==> ep.hist.log == [] && ep.engine.txState == Idle)
  {
    ReachableInv(ep);
  }

  /** At most one close callback, one hand-back of the BLE connection and one release of the allocation reference. */
  lemma AtMostOnce(ep: EndPoint)
    requires Reachable(ep)
    ensures Orderly(ep.life.told) && ep.life.handBacks <= 1 && ep.life.frees <= 1
      && ep.life.refCount == 1 - ep.life.frees
    ensures ep.life.state == Closed ==> ep.life.frees == 1 || ep.life.unsubscribeTimer
  {
    ReachableInv(ep);
  }

  /**
   An end point that entered Closing and finished without being aborted sent all it accepted and saw it acknowledged.
   */
  lemma GracefulCloseIsComplete(ep: EndPoint)
    requires Reachable(ep) && ep.life.graceful
    ensures Assemble(ep.hist.log).done == ep.hist.accepted && ep.hist.txA == TxN(ep)
  {
    ReachableInv(ep);
  }

  // ---------- buffers in flight ----------

  /**
   Nothing went out, and the buffers of the fragmenter and of the stand-alone ack were neither rewritten nor
   released.
   */
  predicate BuffersKept(ep: EndPoint, ep': EndPoint) {
    && ep'.hist.log == ep.hist.log
    && (IsConnected(ep'.life) ==>
          && ep'.link.gattInFlight && ep'.engine.txState == ep.engine.txState && ep'.engine.txLeft == ep.engine.txLeft
          && (ep.link.ackInFlight ==> ep'.link.ackPending && ep'.link.ackInFlight))
  }

  lemma AbortKeepsBuffers(ep: EndPoint, ep1: EndPoint, flags: CloseFlags, err: Error, env: Env)
    requires Sound(ep1.life) && flags.abort && ep1.hist.log == ep.hist.log
    ensures BuffersKept(ep, CloseWith(ep1, flags, err, env))
  {
    AbortCloses(ep1, flags, err, env);
  }

  lemma SendKeepsBuffers(ep: EndPoint, m: Message, env: Env)
    requires OpenAndGood(ep) && ep.link.gattInFlight
    ensures BuffersKept(ep, Send(ep, m, env))
  {
    AbortKeepsBuffers(ep, ep, CloseFlags(false, true), OutboundTooBig, env);
  }

  lemma StandAloneKeepsBuffers(ep: EndPoint, ep0: EndPoint, env: Env)
    requires OpenAndGood(ep0) && ep0.link.gattInFlight && ep == ep0.(link := ep0.link.(sendAckTimer := false))
    ensures BuffersKept(ep0, Settled(DriveStandAloneAck(ep, env), env))
  {
    AbortKeepsBuffers(ep0, ep, CloseFlags(false, true), NoMemory, env);
  }

  lemma CallKeepsBuffers(ep: EndPoint, call: CloseCall, env: Env)
    requires OpenAndGood(ep) && ep.link.gattInFlight
    ensures BuffersKept(ep, AppCall(ep, call, env))
  {
    PerformSound(ep.life, call, ep.engine.txState == Idle, env.platform);
  }

  /** The state `ep1` after an ack was dealt with, while the air is busy. */
  predicate AckDealtWith(ep: EndPoint, ep1: EndPoint, err: Error) {
    && ep1.hist.log == ep.hist.log && Sound(ep1.life)
    && (IsConnected(ep1.life) && err == NoError ==> BuffersKept(ep, ep1))
  }

  lemma AckKeepsBuffers(ep: EndPoint, r: Received, env: Env)
    requires OpenAndGood(ep) && ep.link.gattInFlight && Accepts(ep, r)
    ensures var o := AckHandled(ep, r, env); AckDealtWith(ep, o.ep, o.err)
  {
    TakenKeepsBuffers(ep, r);
    if r.ack.Some? {
      OnAckCases(ep, r, env);
      AirBusy(After(ep, r), env);
      if LastAckIn(After(ep, r)) {
        FinalizeKeepsBuffers(ep, r, env);
      }
    }
  }

  lemma FinalizeKeepsBuffers(ep: EndPoint, r: Received, env: Env)
    requires Sound(ep.life) && LastAckIn(After(ep, r))
    ensures AckDealtWith(ep, Finalize(TimerStopped(Taken(ep, r)), env), NoError)
  {
    TakenFinalizes(ep, r, env);
  }

  lemma TakenKeepsBuffers(ep: EndPoint, r: Received)
    requires Accepts(ep, r) && ep.link.gattInFlight && Air(ep)
    ensures BuffersKept(ep, After(ep, r)) && After(ep, r).life == ep.life && After(ep, r).link.gattInFlight
    ensures var ep1 := TimerStopped(Taken(ep, r)); ep1.life == ep.life && ep1.hist.log == ep.hist.log
  {
  }

  lemma ConcludeKeepsBuffers(ep0: EndPoint, o: Outcome, env: Env, env': Env)
    requires AckDealtWith(ep0, o.ep, o.err) && (o.err == NoError ==> IsConnected(o.ep.life))
    ensures BuffersKept(ep0, Conclude(o, env, env'))
  {
    if o.err != NoError {
      AbortKeepsBuffers(ep0, o.ep, CloseFlags(false, true), o.err, env);
    } else {
      AcknowledgeWaits(o.ep, env');
      var o' := Acknowledge(o.ep, env');
      if o'.err != NoError {
        AbortKeepsBuffers(ep0, o'.ep, CloseFlags(false, true), o'.err, env');
      }
    }
  }

  lemma PacketKeepsBuffers(ep: EndPoint, data: Bytes, env: Env, env': Env)
    requires OpenAndGood(ep) && ep.link.gattInFlight && HeaderPresent(data)
    ensures BuffersKept(ep, ReceivePacket(ep, data, env, env'))
  {
    var r := Reply(ep, data, env);
    if r.err != NoError {
      AbortKeepsBuffers(ep, ep.(engine := r.engine), CloseFlags(false, true), r.err, env);
    } else {
      ReplyAccepts(ep, data, env);
      TakenPacketKeepsBuffers(ep, data, r, env, env');
    }
  }

  lemma LastPacketKeepsBuffers(ep: EndPoint, data: Bytes, r: Received, env: Env, env': Env)
    requires OpenAndGood(ep) && HeaderPresent(data) && r == Reply(ep, data, env) && r.err == NoError && Accepts(ep, r)
    requires AckHandled(ep, r, env).err == NoError && AckHandled(ep, r, env).ep.life.state == Closed
    ensures BuffersKept(ep, ReceivePacket(ep, data, env, env'))
  {
    PacketFinalizes(ep, data, env, env');
  }

  lemma TakenPacketKeepsBuffers(ep: EndPoint, data: Bytes, r: Received, env: Env, env': Env)
    requires OpenAndGood(ep) && ep.link.gattInFlight && HeaderPresent(data)
    requires r == Reply(ep, data, env) && r.err == NoError && Accepts(ep, r)
    ensures BuffersKept(ep, ReceivePacket(ep, data, env, env'))
  {
    var o := AckHandled(ep, r, env);
    if o.err == NoError && o.ep.life.state == Closed {
      LastPacketKeepsBuffers(ep, data, r, env, env');
    } else {
      PacketConcludes(ep, data, env, env');
      AckKeepsBuffers(ep, r, env);
      if o.err == NoError { StillOpen(ep, r, env); }
      ConcludeKeepsBuffers(ep, o, env, env');
    }
  }

  /**
   While a GATT operation is in flight, no event but its confirmation touches the buffer it was given: nothing goes
   out, the fragmenter's buffer stays as it is, and a stand-alone ack in flight keeps its buffer.
   */
  lemma InFlightUntouched(ep: EndPoint, event: Event, env: Env)
    requires Reachable(ep) && IsConnected(ep.life) && ep.link.gattInFlight && Enabled(ep, event)
    requires !event.GattConfirmed? && !event.GattSubscribed?
    ensures BuffersKept(ep, Apply(ep, event, env))
  {
    ReachableInv(ep);
    EventKeepsBuffers(ep, event, env);
  }

  lemma EventKeepsBuffers(ep: EndPoint, event: Event, env: Env)
    requires OpenAndGood(ep) && ep.link.gattInFlight && Enabled(ep, event) && !event.GattConfirmed?
    requires !event.GattSubscribed?
    ensures BuffersKept(ep, Apply(ep, event, env))
  {
    match event
    case AppSend(m) => SendKeepsBuffers(ep, m, env);
    case PacketIn(data, env') => PacketKeepsBuffers(ep, data, env, env');
    case SendAckExpired => StandAloneKeepsBuffers(ep.(link := ep.link.(sendAckTimer := false)), ep, env);
    case AppClose(call) => CallKeepsBuffers(ep, call, env);
    case AckWaitExpired => AckWaitShuts(ep, env);
    case _ => OutOfPlaceShuts(ep, event, env);
  }
}
