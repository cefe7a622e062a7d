/**
 Where an open end point comes from and where it goes: its state at the end of the handshake, what a finished
 close has achieved, and that a closed end point changes nothing any more.
 */
module EndPointEdges {
  import opened Common
  import opened Fragments
  import opened BtpEngine
  import opened Numbering
  import opened Lifecycle
  import opened EndPointModel
  import opened EndPointInvariant
  import opened EndPointEvents

  // ---------- opening ----------

  /** The central, once it has taken in the response: the handshake indication is still to be acknowledged. */
  predicate OpensCentral(x: EndPoint) {
    && x.life.central && x.life.state == Connected && Sound(x.life)
    && x.engine == Init(false).(rxSize := x.engine.rxSize, txSize := x.engine.txSize)
    && x.queue == [] && x.capsConfirmed && x.capsReceived
    && x.life.didBeginSubscribe && x.life.told == [ConnectionOpened]
    && x.link == Link(x.link.max, Dec8(x.link.max), x.link.max, x.link.gattInFlight, false, false, true, false)
    && x.hist == History([], 0, 0, 0, [], [], [], x.hist.sends, x.hist.confirms, false, false, false, false)
    && x.hist.sends == x.hist.confirms + (if x.link.gattInFlight then 1 else 0)
  }

  /** The peripheral, once its indication has gone out: the response is parked until it is confirmed. */
  predicate OpensPeripheral(x: EndPoint) {
    && !x.life.central && x.life.state == Connected && Sound(x.life) && x.link.max >= 1
    && x.engine == Init(true).(rxSize := x.engine.rxSize, txSize := x.engine.txSize)
    && |x.queue| == 1 && !x.capsConfirmed && x.capsReceived && x.life.told == [ConnectionOpened]
    && x.link == Link(x.link.max, x.link.max, Dec8(x.link.max), true, false, false, false, true)
    && x.hist == History([], 0, 0, 0, [], [], [], 1, 0, false, false, false, false)
  }

  lemma OpensCentralGood(x: EndPoint)
    requires OpensCentral(x)
    ensures Good(x)
  {
    InitRep(false);
  }

  lemma WindowCounts(max: uint8)
    requires max >= 1
    ensures Dec8(max) == max - 1 && max % 0x100 == max
  {
  }

  lemma OpensPeripheralNumbers(x: EndPoint)
    requires OpensPeripheral(x)
    ensures Numbers(x)
  {
    InitRep(true);
    WindowCounts(x.link.max);
    assert TxN(x) == 1 && RxN(x) == 0;
    assert RemoteSum(x);
    assert LocalSum(x);
  }

  lemma OpensPeripheralGood(x: EndPoint)
    requires OpensPeripheral(x)
    ensures Good(x)
  {
    OpensPeripheralNumbers(x);
  }

  // ---------- moving on ----------

  lemma LingersCore(x: EndPoint, x': EndPoint)
    requires Core(x) && Sound(x.life) && IsConnected(x.life) && Lingers(x, x')
    ensures Core(x')
  {
    LingersNumbers(x, x'.life);
    SameDataKeeps(x, x');
  }

  /** Everything accepted went out, and every fragment was acknowledged. */
  predicate AllAcked(x: EndPoint) {
    Assemble(x.hist.log).done == x.hist.accepted && x.hist.txA == TxN(x)
  }

  /** A lingering close that is finalized has nothing left to send and nothing unacknowledged. */
  lemma FinalizesAllAcked(x: EndPoint, x': EndPoint)
    requires Core(x) && Finalizes(x, x')
    ensures AllAcked(x')
  {
    var a := Assemble(x.hist.log);
    assert Waiting(x) == [] && Current(x, a) == [];
    assert x.hist.accepted == a.done;
  }

  // ---------- closed ----------

  /** Nothing the peer can see has changed, except that the side may have closed or accepted another message. */
  predicate Unseen(x: EndPoint, x': EndPoint) {
    && x'.config == x.config && x'.life.central == x.life.central && x'.link.max == x.link.max
    && x'.engine.rxSize == x.engine.rxSize && x'.engine.txSize == x.engine.txSize
    && x'.hist.log == x.hist.log && x'.hist.received == x.hist.received && x'.hist.txA == x.hist.txA
    && x'.hist.reassembled == x.hist.reassembled
    && (x.hist.stale ==> x'.hist.stale)
    && (IsConnected(x'.life) ==> IsConnected(x.life) && x'.hist.rxA == x.hist.rxA && x'.hist.stale == x.hist.stale)
    && Rank(x'.life.state) >= Rank(x.life.state) && Sound(x'.life)
  }

  /** The same closed end point, as far as its peer could tell. */
  predicate StaysClosed(x: EndPoint, x': EndPoint) {
    && Unseen(x, x') && x'.life.state == Closed && Dormant(x') && x'.life.graceful == x.life.graceful
    && x'.hist.accepted == x.hist.accepted && x'.hist.delivered == x.hist.delivered
    && Quieter(x.life, x'.life) && x'.life.told == x.life.told
  }

  lemma CloseIsOver(x: EndPoint, flags: CloseFlags, err: Error, env: Env)
    requires x.life.state == Closed
    ensures CloseWith(x, flags, err, env) == x
  {
  }

  lemma CallIsOver(x: EndPoint, call: CloseCall, env: Env)
    requires x.life.state == Closed
    ensures AppCall(x, call, env) == x.(life := Prelude(x.life, call))
  {
  }

  lemma ClosedConfirms(x: EndPoint, env: Env)
    requires x.life.state == Closed && Sound(x.life) && Dormant(x) && Enabled(x, GattConfirmed)
    ensures StaysClosed(x, Confirmed(x, env))
  {
    assert x.capsConfirmed;
    CloseIsOver(Finished(x), CloseFlags(false, true), IncorrectState, env);
  }

  lemma ClosedRefuses(x: EndPoint, event: Event, env: Env)
    requires x.life.state == Closed && Enabled(x, event)
    requires event.AppSend? || event.RequestIn? || event.ResponseIn? || event.PeerSubscribed?
    ensures Apply(x, event, env) == x
  {
    CloseIsOver(x, CloseFlags(false, true), IncorrectState, env);
    CloseIsOver(x, CloseFlags(true, true), IncorrectState, env);
  }

  lemma ClosedTimers(x: EndPoint, event: Event, env: Env)
    requires x.life.state == Closed && Dormant(x) && Enabled(x, event)
    requires event.AppConnect? || event.HandshakeExpired? || event.AckWaitExpired?
    ensures var x' := Apply(x, event, env);
      || x' == x
      || x' == x.(life := x.life.(connectTimer := false))
      || x' == x.(life := x.life.(receiveTimer := false))
  {
    if event.AppConnect? {
      CloseIsOver(x.(life := x.life.(connectTimer := false)), CloseFlags(false, true), IncorrectState, env);
    } else if event.HandshakeExpired? {
      ClosedHandshakeTimer(x, env);
    }
  }

  lemma ClosedHandshakeTimer(x: EndPoint, env: Env)
    requires x.life.state == Closed
    ensures var x' := HandshakeTimeout(x, env);
      || x' == x
      || x' == x.(life := x.life.(connectTimer := false))
      || x' == x.(life := x.life.(receiveTimer := false))
  {
    CloseIsOver(x.(life := x.life.(connectTimer := false)), CloseFlags(false, true), ConnectTimedOut, env);
    CloseIsOver(x.(life := x.life.(receiveTimer := false)), CloseFlags(true, true), ReceiveTimedOut, env);
  }

  /** A closed end point whose life differs only in timers, cleared callbacks or its release. */
  lemma ClosedRelife(x: EndPoint, l: Life)
    requires x.life.state == Closed && Dormant(x) && Sound(l) && l.state == Closed && l.graceful == x.life.graceful
    requires l.central == x.life.central && Quieter(x.life, l) && l.told == x.life.told
    requires l.unsubscribeTimer == x.life.unsubscribeTimer
    ensures StaysClosed(x, x.(life := l))
  {
  }

  lemma ClosedTimersStay(x: EndPoint, x': EndPoint)
    requires x.life.state == Closed && Sound(x.life) && Dormant(x)
    requires x' == x || x' == x.(life := x.life.(connectTimer := false))
      || x' == x.(life := x.life.(receiveTimer := false))
    ensures StaysClosed(x, x')
  {
    ClosedRelife(x, x'.life);
  }

  lemma ClosedTimes(x: EndPoint, event: Event, env: Env)
    requires x.life.state == Closed && Sound(x.life) && Dormant(x) && Enabled(x, event)
    requires event.AppConnect? || event.HandshakeExpired? || event.AckWaitExpired?
    ensures StaysClosed(x, Apply(x, event, env))
  {
    ClosedTimers(x, event, env);
    ClosedTimersStay(x, Apply(x, event, env));
  }

  lemma ClosedUnsubscribes(x: EndPoint)
    requires x.life.state == Closed && Sound(x.life) && Dormant(x) && x.life.unsubscribeTimer
    ensures StaysClosed(x, UnsubscribeDone(x))
  {
    UnsubscribeCompleteSound(x.life);
  }

  /** The send-ack timer of an end point that waits for its unsubscribe: the ack can never go out. */
  lemma ClosedSendAck(x: EndPoint, env: Env)
    requires x.life.state == Closed && Sound(x.life) && Dormant(x)
    ensures StaysClosed(x, SendAckTimeout(x, env))
  {
    if x.link.sendAckTimer {
      var x1 := x.(link := x.link.(sendAckTimer := false));
      var x2 := x1.(link := x1.link.(ackPending := true), hist := x1.hist.(lapsed := false));
      assert Blocked(x2);
      CloseIsOver(x1, CloseFlags(false, true), NoMemory, env);
    }
  }

  lemma ClosedCalled(x: EndPoint, call: CloseCall, env: Env)
    requires x.life.state == Closed && Sound(x.life) && Dormant(x)
    ensures StaysClosed(x, AppCall(x, call, env))
  {
    CallIsOver(x, call, env);
    ClosedRelife(x, Prelude(x.life, call));
  }

  /** Once closed, an end point changes nothing that its peer could see, and fires no callback. */
  lemma ClosedApplies(x: EndPoint, event: Event, env: Env)
    requires x.life.state == Closed && Sound(x.life) && Dormant(x) && Enabled(x, event) && !event.PacketIn?
    ensures StaysClosed(x, Apply(x, event, env))
  {
    match event
    case GattConfirmed => ClosedConfirms(x, env);
    case AppClose(call) => ClosedCalled(x, call, env);
    case GattUnsubscribed => ClosedUnsubscribes(x);
    case AppConnect(_) => ClosedTimes(x, event, env);
    case HandshakeExpired => ClosedTimes(x, event, env);
    case SendAckExpired => ClosedSendAck(x, env);
    case AckWaitExpired => ClosedTimes(x, event, env);
    case GattSubscribed =>
    case _ => ClosedRefuses(x, event, env);
  }

  lemma ClosedPacket(x: EndPoint, data: Bytes, env: Env, env': Env)
    requires x.life.state == Closed && HeaderPresent(data)
    ensures ReceivePacket(x, data, env, env') == x
  {
  }
}
