/** Runs of normal use, with nothing failing, that end in each of the shortfalls. */
module ShortfallRuns {
  import opened Common
  import opened Fragments
  import opened BtpEngine
  import opened Reassembly
  import opened Windows
  import opened Lifecycle
  import opened EndPointModel
  import opened EndPointInvariant
  import opened EndPointEvents
  import opened EndPointEdges
  import opened PairInvariant
  import opened PairRuns
  import opened AckDuty
  import opened PairProgress
  import opened Shortfalls
  import opened OrdinaryRuns

  // ---------- the stale flag ----------

  /** The ack of the handshake is due, but the subscription keeps the air busy: it is left waiting. */
  lemma AckIsLeftWaiting(a: EndPoint, env: Env)
    requires OpensCentral(a) && a.link.gattInFlight && Cooperates(env)
    ensures SendAckTimeout(a, env) == Wanted(a)
  {
  }

  /** The peripheral's indication is confirmed, and its application sends. */
  lemma PeripheralSends(b: EndPoint, m: Message, env: Env)
    requires OpensPeripheral(b) && b.link.max >= 3 && |m| <= b.config.capacity && Cooperates(env)
    ensures var b2 := Send(Confirmed(b, env), m, env);
      && b2.hist.log == [FirstFragment(b.engine.txSize, m, None, 1)] && b2.life == b.life && !b2.hist.stale
      && b2.link.gattInFlight
  {
    var b1 := Confirmed(b, env);
    assert b1 == Unparked(b);
    SendPieceSends(b1.(queue := [], hist := b1.hist.(accepted := [m])), Some(m), env);
  }

  /** A fragment without ack has been taken in while an ack waits: the timer flag is set again. */
  lemma TakenArms(a: EndPoint, env: Env)
    requires AckWaits(a) && a.link.gattInFlight && a.life.frees == 0 && HasUnackedData(a.engine) && Cooperates(env)
    ensures var a' := Conclude(Outcome(a, NoError), env, env);
      a' == HandUp(a.(link := a.link.(sendAckTimer := true), hist := if a.link.sendAckTimer then a.hist
        else a.hist.(lapsed := false)))
  {
  }

  lemma PacketArms(a: EndPoint, data: Bytes, env: Env)
    requires OpenAndGood(a) && AckWaits(a) && a.link.gattInFlight && HeaderPresent(data) && Cooperates(env)
    requires var r := Reply(a, data, env); r.err == NoError && r.ack.None? && HasUnackedData(r.engine)
    ensures ArmedBy(a, ReceivePacket(a, data, env, env))
  {
    var r := Reply(a, data, env);
    ReplyAccepts(a, data, env);
    var mid := Taken(a, r);
    TakenArms(mid, env);
    assert ReceivePacket(a, data, env, env) == Conclude(Outcome(mid, NoError), env, env);
    AfterFresh(a, r);
    ArmsFrom(a, mid, Conclude(Outcome(mid, NoError), env, env));
  }

  /** The fragment that has been taken in set the flag, and changed nothing else that matters here. */
  predicate ArmedBy(a: EndPoint, a': EndPoint) {
    && a'.life == a.life && Armed(a') && a'.hist.stale == a.hist.stale && Unacked(a') == Unacked(a) + 1
    && a'.link.gattInFlight && a'.link.remote == a.link.remote
    && a'.capsConfirmed == a.capsConfirmed && a'.engine.txState == a.engine.txState && a'.queue == a.queue
    && a'.hist.log == a.hist.log && a'.config == a.config
  }

  lemma ArmsFrom(a: EndPoint, mid: EndPoint, a': EndPoint)
    requires AckWaits(a) && a.link.gattInFlight && mid.hist.received == a.hist.received + 1
    requires mid == a.(engine := mid.engine, link := a.link.(local := mid.link.local),
                       hist := a.hist.(received := mid.hist.received, reassembled := mid.hist.reassembled))
    requires mid.engine.txState == a.engine.txState
    requires a' == HandUp(mid.(link := mid.link.(sendAckTimer := true), hist := mid.hist.(lapsed := a'.hist.lapsed)))
    ensures ArmedBy(a, a')
  {
  }

  /** An armed central that queues a message, and whose subscription is then confirmed. */
  lemma ArmedSubscribed(a: EndPoint, m: Message, env: Env)
    requires OpenAndGood(a) && Armed(a) && a.link.gattInFlight && a.capsConfirmed && a.link.remote >= 2
    requires Cooperates(env)
    requires a.life.central && a.hist.log == [] && a.engine.txState == Idle && |m| <= a.config.capacity
    ensures var a1 := Send(a, m, env);
      && Enabled(a1, GattSubscribed)
      && var a2 := SubscribeComplete(a1, env);
      && Enabled(a2, GattConfirmed)
      && Confirmed(a2, env).life.state == Closed && !Confirmed(a2, env).life.graceful
  {
    var a1 := a.(queue := a.queue + [m], hist := a.hist.(accepted := a.hist.accepted + [m]));
    EnqueueKeeps(a, m);
    assert Send(a, m, env) == a1;
    ArmedIsDoomed(a1, env);
    ArmedAckLeavesFlag(a1, env);
    var o := DriveSending(Landed(a1), env);
    assert SubscribeComplete(a1, env) == o.ep;
    StandAloneAckSends(Landed(a1), env);
  }

  lemma DoomedRun(p: Pair, m: Message, env: Env) returns (steps: seq<Step>, q: Pair)
    requires OpenAndGood(p.a) && Armed(p.a) && p.a.link.gattInFlight && p.a.capsConfirmed && p.a.link.remote >= 2
    requires p.a.life.central && p.a.hist.log == [] && p.a.engine.txState == Idle && |m| <= p.a.config.capacity
    requires Cooperates(env)
    ensures Runs(p, steps, q) && OrdinaryRun(p, steps) && q.a.life.state == Closed && !q.a.life.graceful
  {
    ArmedSubscribed(p.a, m, env);
    var p1 := Take(p, AtA(AppSend(m), env));
    var p2 := Take(p1, AtA(GattSubscribed, env));
    q := Take(p2, AtA(GattConfirmed, env));
    steps := Before(p2, AtA(GattConfirmed, env), [], q);
    steps := Before(p1, AtA(GattSubscribed, env), steps, q);
    steps := Before(p, AtA(AppSend(m), env), steps, q);
  }

  /** The next fragment for an open central carries no ack: it is taken in, and there is something to acknowledge. */
  lemma NextPlain(p: Pair, env: Env)
    requires PairInv(p) && IsConnected(p.a.life) && p.toA < |p.b.hist.log| && p.b.hist.log[p.toA].ack.None?
    requires !p.a.hist.stale && !p.b.hist.stale && Cooperates(env)
    ensures HeaderPresent(p.b.hist.log[p.toA].Wire()) && OpenAndGood(p.a)
    ensures var r := Reply(p.a, p.b.hist.log[p.toA].Wire(), env);
      r.err == NoError && r.ack.None? && HasUnackedData(r.engine)
  {
    JointSymmetric(p.a, p.b, p.toB, p.toA);
    NextReceived(p.b, p.a, p.toA, env);
    NextIsTaken(p.b, p.a, p.toA, p.toB, env);
  }

  lemma ThreeStepsKeep(p: Pair, p1: Pair, p2: Pair, s1: Step, s2: Step, s3: Step)
    requires PairInv(p) && CanStep(p, s1) && p1 == Take(p, s1) && CanStep(p1, s2) && p2 == Take(p1, s2)
    requires CanStep(p2, s3)
    ensures PairInv(Take(p2, s3))
  {
    StepKeeps(p, s1);
    StepKeeps(p1, s2);
    StepKeeps(p2, s3);
  }

  /** From the end of any handshake: the ack is left waiting, and the peripheral sends a fragment. */
  lemma ArmingRun(p: Pair, m: Message, env: Env) returns (p1: Pair, p2: Pair, p3: Pair)
    requires Starts(p) && p.a.link.gattInFlight && |m| <= p.b.config.capacity && Cooperates(env)
    ensures CanStep(p, AtA(SendAckExpired, env)) && p1 == Take(p, AtA(SendAckExpired, env))
    ensures CanStep(p1, AtB(GattConfirmed, env)) && p2 == Take(p1, AtB(GattConfirmed, env)) && p2.b.config == p.b.config
    ensures CanStep(p2, AtB(AppSend(m), env)) && p3 == Take(p2, AtB(AppSend(m), env))
    ensures p3.toA == 0 && p3.a == Wanted(p.a)
    ensures |p3.b.hist.log| == 1 && p3.b.hist.log[0].ack.None? && !p3.b.hist.stale
    ensures p3.b.life.state == Connected && p3.b.link.gattInFlight && p3.toB == 0
  {
    AckIsLeftWaiting(p.a, env);
    PeripheralSends(p.b, m, env);
    p1 := Take(p, AtA(SendAckExpired, env));
    p2 := Take(p1, AtB(GattConfirmed, env));
    p3 := Take(p2, AtB(AppSend(m), env));
  }

  /** The fragment arrives, and the flag is set again. */
  lemma ArmingArrives(p3: Pair, env: Env)
    requires PairInv(p3) && IsConnected(p3.a.life) && p3.toA < |p3.b.hist.log| && p3.b.hist.log[p3.toA].ack.None?
    requires !p3.a.hist.stale && !p3.b.hist.stale && Cooperates(env)
    requires AckWaits(p3.a) && p3.a.link.gattInFlight
    ensures CanStep(p3, ToA(env, env))
    ensures var a' := Take(p3, ToA(env, env)).a; OpenAndGood(a') && ArmedBy(p3.a, a')
  {
    NextPlain(p3, env);
    var data := p3.b.hist.log[p3.toA].Wire();
    PacketArms(p3.a, data, env);
    PacketKeepsGood(p3.a, data, env);
  }

  /**
   The stale flag is reachable: from the end of every handshake in which the subscription is still in flight, seven
   steps of normal use, with nothing failing, end with the central aborting the connection.
   */
  lemma StaleFlagRun(p: Pair, m: Message, m': Message, env: Env) returns (steps: seq<Step>, q: Pair)
    requires Starts(p) && p.a.link.gattInFlight && Cooperates(env)
    requires |m| <= p.b.config.capacity && |m'| <= p.a.config.capacity
    ensures Runs(p, steps, q) && OrdinaryRun(p, steps) && q.a.life.state == Closed && !q.a.life.graceful
  {
    var p1, p2, p3 := ArmingRun(p, m, env);
    StartKeeps(p);
    ThreeStepsKeep(p, p1, p2, AtA(SendAckExpired, env), AtB(GattConfirmed, env), AtB(AppSend(m), env));
    ArmingArrives(p3, env);
    steps, q := DoomedRun(Take(p3, ToA(env, env)), m', env);
    steps := Before(p3, ToA(env, env), steps, q);
    steps := Before(p2, AtB(AppSend(m), env), steps, q);
    steps := Before(p1, AtB(GattConfirmed, env), steps, q);
    steps := Before(p, AtA(SendAckExpired, env), steps, q);
  }

  // ---------- closing with messages queued ----------

  lemma SendThenClose(b: EndPoint, m: Message, env: Env)
    requires OpensPeripheral(b) && |m| <= b.config.capacity
    ensures var b2 := AppCall(Send(b, m, env), CallClose, env);
      b2.life.state == Closed && b2.hist.accepted == [m] && b2.hist.log == []
  {
    var b1 := b.(queue := b.queue + [m], hist := b.hist.(accepted := [m]));
    OpensPeripheralGood(b);
    EnqueueKeeps(b, m);
    assert Send(b, m, env) == b1;
    CloseDropsIff(b1, env);
    IdleCloses(b1.life, CallClose, env.platform);
    SettleCloses(b1, Perform(b1.life, CallClose, true, env.platform));
  }

  /** From the end of every handshake: the peripheral sends one message and closes, and the message is lost. */
  lemma CloseDropsRun(p: Pair, m: Message, env: Env) returns (steps: seq<Step>, q: Pair)
    requires Starts(p) && |m| <= p.b.config.capacity && Cooperates(env)
    ensures Runs(p, steps, q) && q.b.life.state == Closed && q.b.hist.accepted == [m] && q.b.hist.log == []
  {
    SendThenClose(p.b, m, env);
    var send, close := AtB(AppSend(m), env), AtB(AppClose(CallClose), env);
    assert CanStep(p, send);
    var p1 := Take(p, send);
    assert p1.b.life == p.b.life;
    q := Take(p1, close);
    steps := [send] + [close];
    assert steps[1..] == [close] && [close][1..] == [];
    assert Runs(p1, [close], q);
  }

  // ---------- a timeout that is ignored ----------

  /** The ack of the handshake goes out when the air is free. */
  lemma AckGoesOut(a: EndPoint, env: Env)
    requires OpensCentral(a) && a.link.max >= 3 && !a.link.gattInFlight && Cooperates(env)
    ensures var a1 := SendAckTimeout(a, env);
      && a1.life == a.life && a1.capsConfirmed && |a1.hist.log| == 1 && Unacked(a1) == 0 && !a1.hist.stale
      && a1.link ==
         a.link.(local := a.link.max, remote := Dec8(a.link.remote), gattInFlight := true, ackPending := true,
                 ackInFlight := true, sendAckTimer := false, ackReceivedTimer := true)
      && a1.queue == [] && a1.engine.txState == Idle && a1.config == a.config
  {
    OpensCentralGood(a);
    StandAloneAckSends(Wanted(a), env);
    assert SendAckTimeout(a, env) == DoSendStandAloneAck(Wanted(a), env).ep;
  }

  /** A fragment without ack is taken in while the window is wide: the send-ack timer is started. */
  lemma PacketStartsTimer(a: EndPoint, data: Bytes, env: Env)
    requires OpenAndGood(a) && a.link.gattInFlight && !a.link.sendAckTimer && HeaderPresent(data) && Cooperates(env)
    requires var r := Reply(a, data, env); r.err == NoError && r.ack.None? && HasUnackedData(r.engine)
    ensures var a' := ReceivePacket(a, data, env, env);
      && a'.life == a.life && Unacked(a') == Unacked(a) + 1
      && a'.link == a.link.(local := Dec8(a.link.local), sendAckTimer := true)
      && a'.capsConfirmed == a.capsConfirmed && a'.queue == a.queue && a'.engine.txState == a.engine.txState
      && a'.hist.log == a.hist.log && a'.config == a.config
  {
    ReplyAccepts(a, data, env);
    TakenTimes(Taken(a, Reply(a, data, env)), env);
  }

  lemma TakenTimes(a: EndPoint, env: Env)
    requires a.link.gattInFlight && !a.link.sendAckTimer && a.life.frees == 0 && HasUnackedData(a.engine)
    requires Cooperates(env)
    ensures Conclude(Outcome(a, NoError), env, env)
         == HandUp(a.(link := a.link.(sendAckTimer := true), hist := a.hist.(lapsed := false)))
  {
  }

  /** A stand-alone ack is in flight, the window is wide, and there is no message to send. */
  predicate AckFlies(a: EndPoint) {
    && a.link.gattInFlight && a.link.ackInFlight && a.capsConfirmed && a.link.local > IMMEDIATE_ACK_THRESHOLD
    && a.queue == [] && a.engine.txState == Idle
  }

  /** The timer expires while the ack is in flight, the ack is confirmed, and nothing will acknowledge the fragment. */
  lemma Forgets(a: EndPoint, env: Env)
    requires OpenAndGood(a) && AckFlies(a) && a.link.sendAckTimer && Unacked(a) > 0
    ensures var a1 := SendAckTimeout(a, env);
      && Enabled(a1, GattConfirmed)
      && var a2 := Confirmed(a1, env);
      IsConnected(a2.life) && Unacked(a2) > 0 && !Scheduled(a2)
  {
    var a1 := SendAckTimeout(a, env);
    FlagsKeep(a, a1);
    assert Unacked(a1) == Unacked(a);
    assert Confirmed(a1, env) == Landed(a1);
  }

  lemma ForgetsRun(p: Pair, env: Env) returns (steps: seq<Step>, q: Pair)
    requires OpenAndGood(p.a) && AckFlies(p.a) && p.a.link.sendAckTimer && Unacked(p.a) > 0 && Cooperates(env)
    ensures Runs(p, steps, q) && OrdinaryRun(p, steps) && IsConnected(q.a.life) && Unacked(q.a) > 0 && !Scheduled(q.a)
  {
    Forgets(p.a, env);
    var p1 := Take(p, AtA(SendAckExpired, env));
    q := Take(p1, AtA(GattConfirmed, env));
    steps := Before(p1, AtA(GattConfirmed, env), [], q);
    steps := Before(p, AtA(SendAckExpired, env), steps, q);
  }

  lemma LapseArrives(a: EndPoint, data: Bytes, env: Env)
    requires OpenAndGood(a) && AckFlies(a) && !a.link.sendAckTimer && a.link.local >= 3 && Unacked(a) == 0
    requires HeaderPresent(data) && Cooperates(env)
    requires var r := Reply(a, data, env); r.err == NoError && r.ack.None? && HasUnackedData(r.engine)
    ensures var a' := ReceivePacket(a, data, env, env);
      OpenAndGood(a') && AckFlies(a') && a'.link.sendAckTimer && Unacked(a') > 0
  {
    PacketStartsTimer(a, data, env);
    PacketKeepsGood(a, data, env);
  }

  lemma PacketKeepsGood(a: EndPoint, data: Bytes, env: Env)
    requires OpenAndGood(a) && HeaderPresent(data) && Reply(a, data, env).err == NoError
    ensures var a' := ReceivePacket(a, data, env, env); IsConnected(a'.life) ==> OpenAndGood(a')
  {
    var path := PacketMoves(a, data, env, env);
  }

  /** From the end of a handshake: the ack goes out, and the peripheral sends a fragment. */
  lemma LapseBegins(p: Pair, m: Message, env: Env) returns (p1: Pair, p2: Pair, p3: Pair)
    requires Starts(p) && !p.a.link.gattInFlight && |m| <= p.b.config.capacity && Cooperates(env)
    ensures CanStep(p, AtA(SendAckExpired, env)) && p1 == Take(p, AtA(SendAckExpired, env))
    ensures CanStep(p1, AtB(GattConfirmed, env)) && p2 == Take(p1, AtB(GattConfirmed, env)) && p2.b.config == p.b.config
    ensures CanStep(p2, AtB(AppSend(m), env)) && p3 == Take(p2, AtB(AppSend(m), env)) && p3.toA == 0
    ensures p3.a == SendAckTimeout(p.a, env)
    ensures |p3.b.hist.log| == 1 && p3.b.hist.log[0].ack.None? && !p3.b.hist.stale
  {
    PeripheralSends(p.b, m, env);
    p1 := Take(p, AtA(SendAckExpired, env));
    assert p1.b == p.b && p1.toA == 0;
    p2 := Take(p1, AtB(GattConfirmed, env));
    assert p2.a == p1.a && p2.toA == 0;
    p3 := Take(p2, AtB(AppSend(m), env));
  }

  /**
   The forgotten timeout is reachable: from the end of every handshake whose subscription is in place, six steps of
   normal use leave the central with a fragment that nothing will acknowledge.
   */
  lemma LapseRun(p: Pair, m: Message, env: Env) returns (steps: seq<Step>, q: Pair)
    requires Starts(p) && !p.a.link.gattInFlight && |m| <= p.b.config.capacity && Cooperates(env)
    ensures Runs(p, steps, q) && OrdinaryRun(p, steps) && IsConnected(q.a.life)
    ensures Unacked(q.a) > 0 && !Scheduled(q.a)
  {
    StartKeeps(p);
    AckGoesOut(p.a, env);
    var p1, p2, p3 := LapseBegins(p, m, env);
    ThreeStepsKeep(p, p1, p2, AtA(SendAckExpired, env), AtB(GattConfirmed, env), AtB(AppSend(m), env));
    NextPlain(p3, env);
    LapseArrives(p3.a, p3.b.hist.log[p3.toA].Wire(), env);
    steps, q := ForgetsRun(Take(p3, ToA(env, env)), env);
    steps := Before(p3, ToA(env, env), steps, q);
    steps := Before(p2, AtB(AppSend(m), env), steps, q);
    steps := Before(p1, AtB(GattConfirmed, env), steps, q);
    steps := Before(p, AtA(SendAckExpired, env), steps, q);
  }

  // ---------- an ack with nothing to acknowledge ----------

  /** An armed central with nothing to send: its ack goes out, is confirmed, and the timer that was left expires. */
  lemma AcksTwice(a: EndPoint, env: Env)
    requires OpenAndGood(a) && Armed(a) && a.link.gattInFlight && a.capsConfirmed && a.link.remote >= 2
    requires a.link.max >= 3
    requires a.life.central && a.hist.log == [] && a.queue == [] && a.engine.txState == Idle && Cooperates(env)
    ensures Enabled(a, GattSubscribed)
    ensures var a1 := SubscribeComplete(a, env);
      && Enabled(a1, GattConfirmed)
      && var a2 := Confirmed(a1, env);
         var a3 := SendAckTimeout(a2, env);
      && a2.life == a.life && a2.life.frees == 0 && a3.life == a.life && a3.hist.stale
      && |a3.hist.log| == 2 && a3.hist.log[0] == StandAloneAck(a.engine.rxNewest, a.engine.txNext)
      && a3.hist.log[1].ack.Some?
  {
    ArmedAckLeavesFlag(a, env);
    StandAloneAckSends(Landed(a), env);
    var a1 := DriveSending(Landed(a), env).ep;
    assert SubscribeComplete(a, env) == a1;
    assert a1.link.local == a1.link.max;
    var a2 := Confirmed(a1, env);
    assert a2 == Landed(a1);
    StaleAckSends(a2, env);
  }

  lemma StaleAckSends(a: EndPoint, env: Env)
    requires !a.link.gattInFlight && a.link.remote >= 1 && a.link.sendAckTimer && !a.link.ackInFlight && Cooperates(env)
    requires a.hist.rxA == RxN(a)
    ensures var a' := SendAckTimeout(a, env);
      && a'.life == a.life && a'.hist.stale
      && a'.hist.log == a.hist.log + [StandAloneAck(a.engine.rxNewest, a.engine.txNext)]
  {
    StandAloneAckSends(Wanted(a), env);
    assert SendAckTimeout(a, env) == DoSendStandAloneAck(Wanted(a), env).ep;
  }

  /** A connected side whose GATT operation is in flight takes in an ack and stays as it is otherwise. */
  lemma AckIsTaken(b: EndPoint, data: Bytes, env: Env)
    requires OpenAndGood(b) && b.life.state == Connected && b.link.gattInFlight && HeaderPresent(data)
    requires Cooperates(env)
    requires var r := Reply(b, data, env); r.err == NoError && r.ack.Some?
    ensures var b' := ReceivePacket(b, data, env, env); b'.life == b.life && b'.hist.log == b.hist.log
  {
    var r := Reply(b, data, env);
    ReplyAccepts(b, data, env);
    OnAckCases(b, r, env);
    AirBusy(After(b, r), env);
    AcknowledgeWaits(After(b, r), env);
  }

  /** A side that expects no ack refuses a fragment that brings one. */
  lemma RefusesAck(b: EndPoint, f: Fragment, env: Env)
    requires OpenAndGood(b) && !b.engine.expectingAck && f.ack.Some?
    ensures HeaderPresent(f.Wire()) && Reply(b, f.Wire(), env).err == InvalidAck
    ensures var b' := ReceivePacket(b, f.Wire(), env, env); b'.life.state == Closed && !b'.life.graceful
  {
    WireFields(f);
    FlagBits(f);
    RefusedMoves(b, f.Wire(), env, env);
  }

  /** Once every fragment that was received is acknowledged and the ack delivered, the sender expects no ack. */
  lemma AllIsAcked(p: Pair)
    requires PairInv(p) && IsConnected(p.a.life) && IsConnected(p.b.life) && !p.a.hist.stale && Unacked(p.a) == 0
    requires p.toB == |p.a.hist.log| && p.toA == |p.b.hist.log|
    ensures !p.b.engine.expectingAck
  {
    assert p.a.hist.log[..|p.a.hist.log|] == p.a.hist.log;
  }

  /** An armed central whose subscription is confirmed sends its ack. */
  lemma ArmedSends(a: EndPoint, env: Env)
    requires OpenAndGood(a) && Armed(a) && a.link.gattInFlight && a.capsConfirmed && a.link.remote >= 2
    requires a.life.central && a.hist.log == [] && !a.hist.stale && Unacked(a) > 0 && Cooperates(env)
    ensures Enabled(a, GattSubscribed)
    ensures var a1 := SubscribeComplete(a, env);
      IsConnected(a1.life) && !a1.hist.stale && Unacked(a1) == 0 && |a1.hist.log| == 1 && a1.hist.log[0].ack.Some?
  {
    ArmedAckLeavesFlag(a, env);
    StandAloneAckSends(Landed(a), env);
    assert SubscribeComplete(a, env) == DriveSending(Landed(a), env).ep;
  }

  /** It is delivered to a side whose own fragment is in flight. */
  lemma FirstAckArrives(p: Pair, env: Env) returns (q: Pair)
    requires PairInv(p) && IsConnected(p.a.life) && !p.a.hist.stale && !p.b.hist.stale && Unacked(p.a) == 0
    requires |p.a.hist.log| == 1 && p.a.hist.log[0].ack.Some? && p.toB == 0 && p.toA == |p.b.hist.log|
    requires p.b.life.state == Connected && p.b.link.gattInFlight && Cooperates(env)
    ensures CanStep(p, ToB(env, env)) && q == Take(p, ToB(env, env)) && PairInv(q)
    ensures q.a == p.a && q.toB == 1 && q.toA == p.toA && q.b.life == p.b.life && q.b.hist.log == p.b.hist.log
  {
    var data := FirstIsAccepted(p, env);
    AckIsTaken(p.b, data, env);
    q := Take(p, ToB(env, env));
    StepKeeps(p, ToB(env, env));
  }

  lemma FirstIsAccepted(p: Pair, env: Env) returns (data: Bytes)
    requires PairInv(p) && |p.a.hist.log| == 1 && p.a.hist.log[0].ack.Some? && p.toB == 0 && !p.a.hist.stale
    requires IsConnected(p.b.life) && Cooperates(env)
    ensures data == p.a.hist.log[0].Wire() && HeaderPresent(data)
    ensures var r := Reply(p.b, data, env); r.err == NoError && r.ack.Some?
  {
    NextReceived(p.a, p.b, 0, env);
    NextIsAccepted(p.a, p.b, 0, p.toA, env);
    data := p.a.hist.log[0].Wire();
  }

  /** The timer that was left behind, and the second ack, which the peer refuses. */
  lemma RefusedEnd(p: Pair, env: Env) returns (steps: seq<Step>, q: Pair)
    requires p.a.life.frees == 0 && OpenAndGood(p.b) && !p.b.engine.expectingAck && p.toB == 1 && Cooperates(env)
    requires var a := SendAckTimeout(p.a, env); a.hist.stale && |a.hist.log| == 2 && a.hist.log[1].ack.Some?
    ensures Runs(p, steps, q) && OrdinaryRun(p, steps)
    ensures q.a.hist.stale && q.b.life.state == Closed && !q.b.life.graceful
  {
    assert CanStep(p, AtA(SendAckExpired, env));
    var p1 := Take(p, AtA(SendAckExpired, env));
    RefusesAck(p1.b, p1.a.hist.log[1], env);
    q := Take(p1, ToB(env, env));
    steps := Before(p1, ToB(env, env), [], q);
    steps := Before(p, AtA(SendAckExpired, env), steps, q);
  }

  /** The confirmation of the first ack comes before that. */
  lemma RefusedTail(p: Pair, a: EndPoint, env: Env) returns (steps: seq<Step>, q: Pair)
    requires Enabled(p.a, GattConfirmed) && a == Confirmed(p.a, env)
    requires OpenAndGood(p.b) && !p.b.engine.expectingAck && p.toB == 1 && Cooperates(env) && a.life.frees == 0
    requires var a1 := SendAckTimeout(a, env); a1.hist.stale && |a1.hist.log| == 2 && a1.hist.log[1].ack.Some?
    ensures Runs(p, steps, q) && OrdinaryRun(p, steps)
    ensures q.a.hist.stale && q.b.life.state == Closed && !q.b.life.graceful
  {
    steps, q := RefusedEnd(p.(a := a), env);
    assert Take(p, AtA(GattConfirmed, env)) == p.(a := a);
    steps := Before(p, AtA(GattConfirmed, env), steps, q);
  }

  /** The armed central's two acks. */
  lemma RefusedRun(p4: Pair, env: Env) returns (steps: seq<Step>, q: Pair)
    requires PairInv(p4) && OpenAndGood(p4.a) && Armed(p4.a) && p4.a.link.gattInFlight && p4.a.capsConfirmed
    requires p4.a.link.remote >= 2 && p4.a.life.central && p4.a.hist.log == [] && p4.a.queue == []
    requires p4.a.engine.txState == Idle && Cooperates(env) && !p4.a.hist.stale && !p4.b.hist.stale && Unacked(p4.a) > 0
    requires p4.b.life.state == Connected && p4.b.link.gattInFlight && p4.toB == 0 && p4.toA == |p4.b.hist.log|
    ensures Runs(p4, steps, q) && OrdinaryRun(p4, steps)
    ensures q.a.hist.stale && q.b.life.state == Closed && !q.b.life.graceful
  {
    ArmedSends(p4.a, env);
    AcksTwice(p4.a, env);
    StepKeeps(p4, AtA(GattSubscribed, env));
    var p5 := p4.(a := SubscribeComplete(p4.a, env));
    assert Take(p4, AtA(GattSubscribed, env)) == p5;
    var p6 := FirstAckArrives(p5, env);
    AllIsAcked(p6);
    steps, q := RefusedTail(p6, Confirmed(p6.a, env), env);
    steps := Before(p5, ToB(env, env), steps, q);
    steps := Before(p4, AtA(GattSubscribed, env), steps, q);
  }

  /**
   A bogus ack is reachable, and makes the peer refuse: from the end of every handshake in which the subscription is
   still in flight, nine steps of normal use end with the central having acknowledged what nobody sent, and with the
   peripheral closing the connection over it.
   */
  lemma StaleAckRun(p: Pair, m: Message, env: Env) returns (steps: seq<Step>, q: Pair)
    requires Starts(p) && p.a.link.gattInFlight && Cooperates(env) && |m| <= p.b.config.capacity
    ensures Runs(p, steps, q) && OrdinaryRun(p, steps)
    ensures q.a.hist.stale && q.b.life.state == Closed && !q.b.life.graceful
  {
    StartKeeps(p);
    var p1, p2, p3 := ArmingRun(p, m, env);
    ThreeStepsKeep(p, p1, p2, AtA(SendAckExpired, env), AtB(GattConfirmed, env), AtB(AppSend(m), env));
    ArmingArrives(p3, env);
    StepKeeps(p3, ToA(env, env));
    steps, q := RefusedRun(Take(p3, ToA(env, env)), env);
    steps := Before(p3, ToA(env, env), steps, q);
    steps := Before(p2, AtB(AppSend(m), env), steps, q);
    steps := Before(p1, AtB(GattConfirmed, env), steps, q);
    steps := Before(p, AtA(SendAckExpired, env), steps, q);
  }

  // ---------- running on into a released end point ----------

  /** With the smallest window, a message of one fragment leaves the fragmenter complete until the ack comes. */
  lemma OneFragment(b: EndPoint, m: Message, env: Env)
    requires OpensPeripheral(b) && b.link.max == 3 && |m| <= 16 && |m| <= b.config.capacity && Cooperates(env)
    ensures var b2 := Send(Confirmed(b, env), m, env);
      && b2.hist.log == [FirstFragment(b.engine.txSize, m, None, 1)] && b2.life == b.life && !b2.hist.stale
      && b2.link == b.link.(remote := 1) && b2.capsConfirmed && b2.queue == [] && b2.engine.txState == Complete
      && !b2.hist.faulted && b2.hist.sends > b2.hist.confirms
  {
    var b1 := Confirmed(b, env);
    assert b1 == Unparked(b);
    SendPieceSends(b1.(queue := [], hist := b1.hist.(accepted := [m])), Some(m), env);
  }

  /** Its fragment is confirmed, the window is too narrow to go on, and the application closes. */
  lemma ClosesBehind(b: EndPoint, env: Env)
    requires b.life.state == Connected && Sound(b.life) && b.link.gattInFlight && b.capsConfirmed
    requires b.hist.sends > b.hist.confirms
    requires b.link.remote == 1 && b.link.local == 3 && !b.link.sendAckTimer && !b.link.ackPending
    requires !b.link.ackInFlight
    requires b.engine.txState == Complete && !b.life.central
    ensures Enabled(b, GattConfirmed) && Confirmed(b, env) == Landed(b)
    ensures Enabled(Landed(b), AppClose(CallClose))
    ensures var b' := AppCall(Landed(b), CallClose, env); b'.life.state == Closing && b' == Landed(b).(life := b'.life)
  {
    CloseUnfold(Prelude(b.life, CallClose), false, env.platform);
  }

  /** The central's window is nearly used up by one fragment, and it acknowledges at once. */
  lemma AcksAtOnce(a: EndPoint, data: Bytes, env: Env)
    requires OpensCentral(a) && a.link.max == 3 && !a.link.gattInFlight && HeaderPresent(data) && Cooperates(env)
    requires var r := Reply(a, data, env); r.err == NoError && r.ack.None? && HasUnackedData(r.engine)
    ensures var a' := ReceivePacket(a, data, env, env);
      && a'.life == a.life && !a'.hist.stale && Unacked(a') == 0
      && |a'.hist.log| == 1 && a'.hist.log[0].ack.Some?
  {
    OpensCentralGood(a);
    ReplyAccepts(a, data, env);
    var r := Reply(a, data, env);
    var mid := Taken(a, r);
    AfterFresh(a, r);
    assert Unacked(mid) == 2;
    assert !Blocked(Wanted(mid));
    StandAloneAckSends(Wanted(mid), env);
    assert Acknowledge(mid, env) == DoSendStandAloneAck(Wanted(mid), env);
  }

  /** The peripheral's four steps: confirmed, sent, confirmed again, and closed while the fragmenter is complete. */
  lemma ClosingBegins(p: Pair, m: Message, env: Env) returns (steps: seq<Step>, p4: Pair)
    requires Starts(p) && p.b.link.max == 3 && |m| <= 16 && |m| <= p.b.config.capacity && Cooperates(env)
    ensures Runs(p, steps, p4) && OrdinaryRun(p, steps) && p4.a == p.a && p4.toA == 0 && p4.toB == 0
    ensures PairInv(p4) && |p4.b.hist.log| == 1 && p4.b.hist.log[0].ack.None? && !p4.b.hist.stale && !p4.b.hist.faulted
    ensures p4.b.life.state == Closing && !p4.b.life.central && p4.b.queue == [] && p4.b.engine.txState == Complete
    ensures p4.b.link.max == 3 && !p4.b.link.gattInFlight && !p4.b.link.ackPending
  {
    OneFragment(p.b, m, env);
    var b := Send(Confirmed(p.b, env), m, env);
    ClosesBehind(b, env);
    p4 := p.(b := AppCall(Landed(b), CallClose, env));
    steps := LeadRun(p, m, b, env);
    StartRunKeeps(p, steps, p4);
  }

  lemma StartRunKeeps(p: Pair, steps: seq<Step>, q: Pair)
    requires Starts(p) && Runs(p, steps, q)
    ensures PairInv(q)
  {
    StartKeeps(p);
    RunKeeps(p, steps, q);
  }

  /** The four steps one after the other, each one of normal use. */
  predicate OrdinaryLead(p: Pair, m: Message, b: EndPoint, env: Env) {
    && Enabled(p.b, GattConfirmed)
    && Enabled(Confirmed(p.b, env), AppSend(m)) && |m| <= Confirmed(p.b, env).config.capacity
    && b == Send(Confirmed(p.b, env), m, env)
    && Enabled(b, GattConfirmed) && Confirmed(b, env) == Landed(b)
    && Enabled(Landed(b), AppClose(CallClose)) && b.engine.txState == Complete
  }

  lemma LeadRun(p: Pair, m: Message, b: EndPoint, env: Env) returns (steps: seq<Step>)
    requires OrdinaryLead(p, m, b, env) && Cooperates(env)
    ensures var p4 := p.(b := AppCall(Landed(b), CallClose, env)); Runs(p, steps, p4) && OrdinaryRun(p, steps)
  {
    steps := LeadEnds(p.(b := b), env);
    var p1 := p.(b := Confirmed(p.b, env));
    assert Take(p1, AtB(AppSend(m), env)) == p.(b := b);
    var p4 := p.(b := AppCall(Landed(b), CallClose, env));
    steps := Before(p1, AtB(AppSend(m), env), steps, p4);
    steps := Before(p, AtB(GattConfirmed, env), steps, p4);
  }

  lemma LeadEnds(p: Pair, env: Env) returns (steps: seq<Step>)
    requires Enabled(p.b, GattConfirmed) && Confirmed(p.b, env) == Landed(p.b) && p.b.engine.txState == Complete
    requires Enabled(Landed(p.b), AppClose(CallClose)) && Cooperates(env)
    ensures var q := p.(b := AppCall(Landed(p.b), CallClose, env)); Runs(p, steps, q) && OrdinaryRun(p, steps)
  {
    var p1, q := p.(b := Landed(p.b)), p.(b := AppCall(Landed(p.b), CallClose, env));
    assert Take(p1, AtB(AppClose(CallClose), env)) == q;
    steps := Before(p1, AtB(AppClose(CallClose), env), [], q);
    assert Take(p, AtB(GattConfirmed, env)) == p1;
    steps := Before(p, AtB(GattConfirmed, env), steps, q);
  }

  /** The last ack reaches the closing peripheral, which is released and used again. */
  lemma LastAckFaults(p: Pair, env: Env)
    requires PairInv(p) && IsConnected(p.a.life) && !p.a.hist.stale && !p.b.hist.stale && Unacked(p.a) == 0
    requires |p.a.hist.log| == 1 && p.a.hist.log[0].ack.Some? && p.toB == 0 && p.toA == |p.b.hist.log|
    requires p.b.life.state == Closing && !p.b.life.central && p.b.queue == [] && p.b.engine.txState == Complete
    requires p.b.link.max == 3 && !p.b.link.gattInFlight && !p.b.link.ackPending && !p.b.hist.faulted && Cooperates(env)
    ensures CanStep(p, ToB(env, env)) && Take(p, ToB(env, env)).b.hist.faulted
  {
    var data := FirstIsAccepted(p, env);
    var r := Reply(p.b, data, env);
    LastAckOpens(p, r, data, env);
    RunsOnIff(p.b, data, env, env);
    FaultsIfPeripheral(p.b, data, r, env);
  }

  /** When it has been taken in, everything the peripheral sent is acknowledged. */
  lemma LastAckTaken(p: Pair, r: Received, data: Bytes, env: Env)
    requires PairInv(p) && IsConnected(p.a.life) && !p.a.hist.stale && !p.b.hist.stale && Unacked(p.a) == 0
    requires |p.a.hist.log| == 1 && p.toB == 0 && p.toA == |p.b.hist.log| && IsConnected(p.b.life)
    requires data == p.a.hist.log[0].Wire() && HeaderPresent(data) && r == Reply(p.b, data, env) && r.err == NoError
    ensures Accepts(p.b, r) && Numbers(After(p.b, r)) && HasUnackedData(After(p.b, r).engine)
    ensures After(p.b, r).hist.txA == TxN(After(p.b, r))
  {
    LastAckJoint(p, r, data, env);
    TakenUnacked(p.a, p.b, r, 1, p.toA);
    AckedUp(p.a, After(p.b, r), p.toA);
  }

  lemma LastAckJoint(p: Pair, r: Received, data: Bytes, env: Env)
    requires PairInv(p) && IsConnected(p.b.life) && |p.a.hist.log| == 1 && p.toB == 0
    requires data == p.a.hist.log[0].Wire() && HeaderPresent(data) && r == Reply(p.b, data, env) && r.err == NoError
    ensures Accepts(p.b, r) && Numbers(After(p.b, r)) && Joint(p.a, After(p.b, r), 1, p.toA)
  {
    TakenJoint(p.a, p.b, 0, p.toA, env);
    ReplyAccepts(p.b, data, env);
  }

  lemma AckedUp(a: EndPoint, b: EndPoint, m: nat)
    requires Joint(a, b, |a.hist.log|, m) && IsConnected(a.life) && IsConnected(b.life) && !a.hist.stale
    requires Unacked(a) == 0 && m == |b.hist.log|
    ensures b.hist.txA == TxN(b)
  {
    assert a.hist.log[..|a.hist.log|] == a.hist.log;
  }

  lemma LastAckOpens(p: Pair, r: Received, data: Bytes, env: Env)
    requires PairInv(p) && IsConnected(p.a.life) && !p.a.hist.stale && !p.b.hist.stale && Unacked(p.a) == 0
    requires |p.a.hist.log| == 1 && p.toB == 0 && p.toA == |p.b.hist.log| && Cooperates(env)
    requires data == p.a.hist.log[0].Wire() && HeaderPresent(data) && r == Reply(p.b, data, env) && r.err == NoError
    requires p.b.life.state == Closing && p.b.queue == [] && p.b.engine.txState == Complete
    requires p.b.link.max == 3 && !p.b.link.gattInFlight && !p.b.link.ackPending
    ensures ClosesUnderway(p.b, r) && HasUnackedData(After(p.b, r).engine)
  {
    LastAckTaken(p, r, data, env);
    AckedAndOpen(p.b, r);
  }

  /** With everything acknowledged the window is open again. */
  lemma AckedAndOpen(b: EndPoint, r: Received)
    requires Accepts(b, r) && Numbers(After(b, r)) && After(b, r).hist.txA == TxN(After(b, r))
    requires b.life.state == Closing && b.queue == [] && b.engine.txState == Complete
    requires b.link.max == 3 && !b.link.gattInFlight && !b.link.ackPending
    ensures ClosesUnderway(b, r)
  {
    NextPageAhead(After(b, r).hist.txA);
  }

  lemma NextPageAhead(n: nat)
    ensures NextPage(n) >= n
  {
  }

  lemma FaultsIfPeripheral(b: EndPoint, data: Bytes, r: Received, env: Env)
    requires OpenAndGood(b) && HeaderPresent(data) && r == Reply(b, data, env) && r.err == NoError && !b.life.central
    requires r.ack.Some? && ClosesUnderway(b, r) && HasUnackedData(After(b, r).engine) && Cooperates(env)
    requires RanOn(ReceivePacket(b, data, env, env))
    ensures ReceivePacket(b, data, env, env).hist.faulted
  {
    ReplyAccepts(b, data, env);
    StillOwes(b, r, env);
    PacketFinalizes(b, data, env, env);
  }

  /**
   Running on is reachable: with the smallest window, from the end of every handshake whose subscription is in place,
   six steps of normal use - a message of one fragment, a close behind it, and its ack - end in a fault.
   */
  lemma FaultRun(p: Pair, m: Message, env: Env) returns (steps: seq<Step>, q: Pair)
    requires Starts(p) && p.b.link.max == 3 && !p.a.link.gattInFlight && Cooperates(env)
    requires |m| <= 16 && |m| <= p.b.config.capacity
    ensures Runs(p, steps, q) && OrdinaryRun(p, steps) && q.b.hist.faulted
  {
    var lead, p4 := ClosingBegins(p, m, env);
    NextPlain(p4, env);
    AcksAtOnce(p4.a, p4.b.hist.log[0].Wire(), env);
    StepKeeps(p4, ToA(env, env));
    var p5 := Take(p4, ToA(env, env));
    LastAckFaults(p5, env);
    q := Take(p5, ToB(env, env));
    steps := Before(p5, ToB(env, env), [], q);
    steps := Before(p4, ToA(env, env), steps, q);
    steps := Append(p, lead, p4, steps, q);
  }

  // ---------- an urgent ack that waits for the timer ----------

  /** A fragment without ack is taken in while the timer runs and the air is busy. */
  lemma PacketWhileTimed(a: EndPoint, data: Bytes, env: Env)
    requires OpenAndGood(a) && a.link.gattInFlight && a.link.sendAckTimer && HeaderPresent(data)
    requires var r := Reply(a, data, env); r.err == NoError && r.ack.None? && HasUnackedData(r.engine)
    ensures var a' := ReceivePacket(a, data, env, env);
      && a'.life == a.life && a'.link == a.link.(local := Dec8(a.link.local)) && HasUnackedData(a'.engine)
      && a'.capsConfirmed == a.capsConfirmed && a'.queue == a.queue && a'.engine.txState == a.engine.txState
      && a'.hist.log == a.hist.log
  {
    ReplyAccepts(a, data, env);
    TakenWaits(Taken(a, Reply(a, data, env)), env);
  }

  lemma TakenWaits(a: EndPoint, env: Env)
    requires a.link.gattInFlight && a.link.sendAckTimer && a.life.frees == 0 && HasUnackedData(a.engine)
    ensures Conclude(Outcome(a, NoError), env, env) == HandUp(a)
  {
  }

  /** With nothing to send, the end of the subscription frees the air and does no more. */
  lemma SubscribedRests(a: EndPoint, env: Env)
    requires a.engine.txState == Idle && a.queue == [] && !a.link.ackPending
    ensures SubscribeComplete(a, env) == Finished(a)
  {
  }

  /** The peripheral's indication is confirmed, and it sends: from the end of any handshake. */
  lemma FirstFragmentRun(p: Pair, m: Message, env: Env) returns (p1: Pair, p2: Pair)
    requires Starts(p) && |m| <= p.b.config.capacity && Cooperates(env)
    ensures CanStep(p, AtB(GattConfirmed, env)) && p1 == Take(p, AtB(GattConfirmed, env)) && p1.b.config == p.b.config
    ensures CanStep(p1, AtB(AppSend(m), env)) && p2 == Take(p1, AtB(AppSend(m), env))
    ensures p2.toA == 0 && p2.a == p.a && PairInv(p2)
    ensures |p2.b.hist.log| == 1 && p2.b.hist.log[0].ack.None? && !p2.b.hist.stale
  {
    PeripheralSends(p.b, m, env);
    p1 := Take(p, AtB(GattConfirmed, env));
    assert p1.a == p.a && p1.toA == 0;
    p2 := Take(p1, AtB(AppSend(m), env));
    StartKeeps(p);
    StepKeeps(p, AtB(GattConfirmed, env));
    StepKeeps(p1, AtB(AppSend(m), env));
  }

  /**
   The exception to prompt acknowledgement is reachable: with the smallest window, from the end of every handshake in
   which the subscription is still in flight, four steps of normal use leave the central with a free air, all of the
   peer's window and one slot of its own, and the ack that the peer needs waiting for the timer.
   */
  lemma UrgentAckRun(p: Pair, m: Message, env: Env) returns (steps: seq<Step>, q: Pair)
    requires Starts(p) && p.a.link.gattInFlight && p.a.link.max == 3 && |m| <= p.b.config.capacity && Cooperates(env)
    ensures Runs(p, steps, q) && OrdinaryRun(p, steps) && IsConnected(q.a.life) && !q.a.link.gattInFlight
    ensures HasUnackedData(q.a.engine) && q.a.link.local <= IMMEDIATE_ACK_THRESHOLD && q.a.link.remote == 3
  {
    var p1, p2 := FirstFragmentRun(p, m, env);
    NextPlain(p2, env);
    PacketWhileTimed(p2.a, p2.b.hist.log[0].Wire(), env);
    var p3 := Take(p2, ToA(env, env));
    SubscribedRests(p3.a, env);
    assert Enabled(p3.a, GattSubscribed);
    q := Take(p3, AtA(GattSubscribed, env));
    steps := Before(p3, AtA(GattSubscribed, env), [], q);
    steps := Before(p2, ToA(env, env), steps, q);
    steps := Before(p1, AtB(AppSend(m), env), steps, q);
    steps := Before(p, AtB(GattConfirmed, env), steps, q);
  }
}
