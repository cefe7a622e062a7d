/**
 What an end point accepts from its application: exactly the messages handed to Send while the connection is open
 that fit a buffer, in order, over every run. All that is proved of accepted messages is thereby about messages sent.
 */
module Acceptance {
  import opened Common
  import opened Fragments
  import opened BtpEngine
  import opened Lifecycle
  import opened EndPointModel
  import opened EndPointInvariant
  import opened EndPointEvents
  import opened EndPointEdges
  import opened EndPointRuns
  import opened Endings
  import H = Handshake

  /** The message that `event` brings to be sent, if there is one and it can be. */
  function Offered(ep: EndPoint, event: Event): seq<Message> {
    if event.AppSend? && IsConnected(ep.life) && |event.m| <= ep.config.capacity then [event.m] else []
  }

  // ---------- no handler but Send accepts anything ----------

  predicate SameAccepted(ep: EndPoint, ep': EndPoint) {
    ep'.hist.accepted == ep.hist.accepted
  }

  lemma CloseAccepts(ep: EndPoint, flags: CloseFlags, err: Error, env: Env)
    ensures SameAccepted(ep, CloseWith(ep, flags, err, env)) && SameAccepted(ep, Finalize(ep, env))
  {
  }

  lemma DriveAccepts(ep: EndPoint, env: Env)
    ensures SameAccepted(ep, DriveSending(ep, env).ep)
  {
    DriveSpares(ep, env);
    CloseAccepts(ep.(engine := ClearTx(ep.engine)), CloseFlags(true, true), NoError, env);
  }

  lemma SettledAccepts(o: Outcome, env: Env)
    ensures SameAccepted(o.ep, Settled(o, env))
  {
    CloseAccepts(o.ep, CloseFlags(false, true), o.err, env);
  }

  lemma StandAloneAccepts(ep: EndPoint, env: Env)
    ensures SameAccepted(ep, DriveStandAloneAck(ep, env).ep)
  {
    DriveAccepts(Wanted(ep), env);
  }

  lemma ProceedAccepts(ep: EndPoint, env: Env, waits: bool)
    ensures SameAccepted(ep, Settled(Proceed(ep, env, waits), env))
  {
    DriveAccepts(ep, env);
    StandAloneAccepts(ep, env);
    SettledAccepts(Proceed(ep, env, waits), env);
  }

  lemma ConfirmAccepts(ep: EndPoint, env: Env)
    requires ep.capsConfirmed || |ep.queue| > 0
    ensures SameAccepted(ep, Confirmed(ep, env))
  {
    if ep.capsConfirmed {
      FragmentConfirmAccepts(Finished(ep), env);
    } else {
      HandshakeConfirmAccepts(Finished(ep).(capsConfirmed := true), env);
    }
  }

  lemma FragmentConfirmAccepts(ep: EndPoint, env: Env)
    ensures SameAccepted(ep, FragmentConfirmed(ep, env))
  {
    var ep1 := if ep.link.ackInFlight then ep.(link := ep.link.(ackPending := false, ackInFlight := false)) else ep;
    CloseAccepts(ep, CloseFlags(false, true), IncorrectState, env);
    ProceedAccepts(ep1, env, |ep.queue| > 0 || ep.engine.txState == InProgress);
  }

  lemma HandshakeConfirmAccepts(ep: EndPoint, env: Env)
    requires |ep.queue| > 0
    ensures SameAccepted(ep, HandshakeConfirmed(ep, env))
  {
    var ep1 := ep.(queue := ep.queue[1..]);
    if ep.life.central {
      CloseAccepts(ep1, CloseFlags(false, true), GattSubscribeFailed, env);
    } else if ep.life.state == Connected {
      ProceedAccepts(ep1, env, |ep1.queue| > 0);
    } else {
      CloseAccepts(ep1, CloseFlags(true, true), IncompatibleVersions, env);
    }
  }

  lemma SubscribedAccepts(ep: EndPoint, env: Env)
    ensures SameAccepted(ep, SubscribeComplete(ep, env))
  {
    DriveAccepts(Finished(ep), env);
    CloseAccepts(DriveSending(Finished(ep), env).ep, CloseFlags(false, true), NoError, env);
  }

  lemma HandshakeTimeoutAccepts(ep: EndPoint, env: Env)
    ensures SameAccepted(ep, HandshakeTimeout(ep, env))
  {
    CloseAccepts(ep.(life := ep.life.(connectTimer := false)), CloseFlags(false, true), ConnectTimedOut, env);
    CloseAccepts(ep.(life := ep.life.(receiveTimer := false)), CloseFlags(true, true), ReceiveTimedOut, env);
  }

  lemma AckWaitAccepts(ep: EndPoint, env: Env)
    ensures SameAccepted(ep, AckReceivedTimeout(ep, env))
  {
    CloseAccepts(ep.(link := ep.link.(ackReceivedTimer := false)), CloseFlags(false, true), FragmentAckTimedOut, env);
  }

  lemma SendAckTimeoutAccepts(ep: EndPoint, env: Env)
    ensures SameAccepted(ep, SendAckTimeout(ep, env))
  {
    var ep1 := ep.(link := ep.link.(sendAckTimer := false));
    StandAloneAccepts(ep1, env);
    SettledAccepts(DriveStandAloneAck(ep1, env), env);
  }

  lemma OpensAccepts(ep: EndPoint, data: Bytes, env: Env)
    requires Enabled(ep, ResponseIn(data))
    ensures SameAccepted(ep, CapsResponseReceived(ep, data, env))
  {
    var resp := H.DecodedResponse(data);
    var ep1 := ep.(capsReceived := true);
    if resp.Ok? && H.CentralTerms(resp.value).Ok? {
      var o := StartSendAckTimer(Agreed(ep1, H.CentralTerms(resp.value).value), env);
      assert SameAccepted(ep, o.ep) && SameAccepted(o.ep, ConnectComplete(o.ep, env));
    }
  }

  lemma ConnectAccepts(ep: EndPoint, req: H.Request, env: Env)
    ensures SameAccepted(ep, StartConnect(ep, req, env))
  {
  }

  lemma RequestAccepts(ep: EndPoint, data: Bytes, mtu: uint16, env: Env)
    requires Enabled(ep, RequestIn(data, mtu))
    ensures SameAccepted(ep, CapsRequestReceived(ep, data, mtu, env))
  {
  }

  lemma SubscribeAccepts(ep: EndPoint, env: Env)
    ensures SameAccepted(ep, SubscribeReceived(ep, env))
  {
  }

  lemma AckAccepts(ep: EndPoint, ack: uint8, env: Env)
    ensures SameAccepted(ep, OnAck(ep, ack, env).ep)
  {
    var ep1 := ep.(link := ep.link.(ackReceivedTimer := false));
    CloseAccepts(ep1, CloseFlags(true, true), NoError, env);
    DriveAccepts(OpenWindow(ep1, ack), env);
    DriveAccepts(OpenWindow(ep, ack), env);
  }

  lemma ConcludeAccepts(o: Outcome, env: Env, env': Env)
    ensures SameAccepted(o.ep, Conclude(o, env, env'))
  {
    SettledAccepts(o, env);
    StandAloneAccepts(o.ep, env');
    SettledAccepts(Acknowledge(o.ep, env'), env');
  }

  lemma PacketAccepts(ep: EndPoint, data: Bytes, env: Env, env': Env)
    requires HeaderPresent(data)
    ensures SameAccepted(ep, ReceivePacket(ep, data, env, env'))
  {
    var r := Reply(ep, data, env);
    if !IsConnected(ep.life) {
      CloseAccepts(ep, CloseFlags(false, true), IncorrectState, env);
    } else if r.err != NoError {
      CloseAccepts(ep.(engine := r.engine), CloseFlags(false, true), r.err, env);
    } else {
      if r.ack.Some? { AckAccepts(Taken(ep, r), r.ack.value, env); }
      ConcludeAccepts(AckHandled(ep, r, env), env, env');
    }
  }

  /** A message that the open end point can take is accepted, whatever it is doing and whatever becomes of it. */
  lemma SendAccepts(ep: EndPoint, m: Message, env: Env)
    ensures Send(ep, m, env).hist.accepted == ep.hist.accepted + Offered(ep, AppSend(m))
  {
    var ep1 := ep.(queue := ep.queue + [m], hist := ep.hist.(accepted := ep.hist.accepted + [m]));
    DriveAccepts(ep1, env);
    SettledAccepts(DriveSending(ep1, env), env);
    CloseAccepts(ep, CloseFlags(false, true), OutboundTooBig, env);
    CloseAccepts(ep, CloseFlags(false, true), IncorrectState, env);
    assert ep.hist.accepted + [] == ep.hist.accepted;
  }

  lemma EventAccepts(ep: EndPoint, event: Event, env: Env)
    requires Enabled(ep, event)
    ensures Apply(ep, event, env).hist.accepted == ep.hist.accepted + Offered(ep, event)
  {
    assert ep.hist.accepted + [] == ep.hist.accepted;
    match event
    case AppSend(m) => SendAccepts(ep, m, env);
    case PacketIn(data, env') => PacketAccepts(ep, data, env, env');
    case GattConfirmed => ConfirmAccepts(ep, env);
    case GattSubscribed => SubscribedAccepts(ep, env);
    case SendAckExpired => SendAckTimeoutAccepts(ep, env);
    case AckWaitExpired => AckWaitAccepts(ep, env);
    case HandshakeExpired => HandshakeTimeoutAccepts(ep, env);
    case ResponseIn(data) => OpensAccepts(ep, data, env);
    case AppConnect(req) => ConnectAccepts(ep, req, env);
    case RequestIn(data, mtu) => RequestAccepts(ep, data, mtu, env);
    case PeerSubscribed => SubscribeAccepts(ep, env);
    case AppClose(_) =>
    case GattUnsubscribed =>
  }

  // ---------- every run ----------

  /** The messages sent in a run, in order: those that came while the connection was open and fit. */
  ghost function SentIn(ep: EndPoint, os: seq<Occurrence>): seq<Message>
    decreases |os|
  {
    if |os| == 0 || !Enabled(ep, os[0].event) then []
    else Offered(ep, os[0].event) + SentIn(Apply(ep, os[0].event, os[0].env), os[1..])
  }

  /** What an end point has accepted is what its application has sent, and nothing is dropped or reordered on entry. */
  lemma {:induction false} AcceptedIsSent(ep: EndPoint, os: seq<Occurrence>, ep': EndPoint)
    requires Runs(ep, os, ep')
    ensures ep'.hist.accepted == ep.hist.accepted + SentIn(ep, os)
    decreases |os|
  {
    if |os| > 0 {
      var mid := Apply(ep, os[0].event, os[0].env);
      EventAccepts(ep, os[0].event, os[0].env);
      AcceptedIsSent(mid, os[1..], ep');
    }
  }

  /** The two ways to refuse a message, both of which end the connection and say why. */
  lemma RefusedSendEnds(ep: EndPoint, m: Message, env: Env)
    requires Reachable(ep) && ep.life.state != Closed && Offered(ep, AppSend(m)) == []
    ensures Ends(ep, Send(ep, m, env), if IsConnected(ep.life) then OutboundTooBig else IncorrectState, false)
  {
    ReachableInv(ep);
    AbortEnds(ep, CloseFlags(false, true), if IsConnected(ep.life) then OutboundTooBig else IncorrectState, env);
  }
}
