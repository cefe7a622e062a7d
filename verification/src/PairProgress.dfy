/**
 Progress of a pair: acknowledgements that are owed get sent, and no step of the protocol itself closes a
 connection, as long as no stand-alone ack goes out with the send-ack timer flag set behind it.
 */
module PairProgress {
  import opened Common
  import opened Fragments
  import opened BtpEngine
  import opened Numbering
  import opened Windows
  import opened Lifecycle
  import opened EndPointModel
  import opened EndPointInvariant
  import opened EndPointEvents
  import opened EndPointEdges
  import opened PairInvariant
  import opened PairRuns
  import opened PairTheorems
  import opened AckDuty

  // ---------- staleness and openness only move one way ----------

  lemma {:induction false} PathRecord(path: seq<EndPoint>, x: EndPoint, x': EndPoint)
    requires Path(path, x, x')
    ensures (x.hist.stale ==> x'.hist.stale) && (x.hist.strayed ==> x'.hist.strayed)
    ensures IsConnected(x'.life) ==> IsConnected(x.life)
    decreases |path|
  {
    if |path| > 1 {
      assert Move(path[0], path[1]);
      PathRecord(path[1..], path[1], x');
    }
  }

  lemma JointNarrow(x: EndPoint, y: EndPoint, n: nat, m: nat)
    requires Joint(x, y, n, m) && IsConnected(x.life) && !x.hist.stale
    ensures Narrow(x)
  {
    UnackedBound(x, y, n, m);
  }

  // ---------- events ----------

  /** What an event at `x` leaves of the duty, as seen once it is known not to be stale afterwards. */
  lemma EventPromise(x: EndPoint, y: EndPoint, n: nat, m: nat, event: Event, env: Env)
    requires Joint(x, y, n, m) && Calm(x) && Enabled(x, event) && !event.PacketIn?
    ensures var x' := Apply(x, event, env);
      IsConnected(x'.life) && !x'.hist.stale ==> IsConnected(x.life) && !x.hist.stale && DutyKept(x, x')
    ensures var x' := Apply(x, event, env);
      IsConnected(x'.life) && IsConnected(x.life) && !x.hist.stale ==> DutyKept(x, x')
    ensures IsConnected(Apply(x, event, env).life) ==> IsConnected(x.life)
  {
    if IsConnected(x.life) {
      var path := EventMoves(x, event, env);
      PathRecord(path, x, Apply(x, event, env));
      if !x.hist.stale {
        JointNarrow(x, y, n, m);
        EventDuty(x, event, env);
      }
    } else {
      ClosedApplies(x, event, env);
    }
  }

  // ---------- packets ----------

  lemma AckHandledJoint(x: EndPoint, y: EndPoint, n: nat, m: nat, env: Env)
    requires Joint(x, y, n, m) && n < |x.hist.log| && PairInvariant.Ready(y)
    requires HeaderPresent(x.hist.log[n].Wire()) && Reply(y, x.hist.log[n].Wire(), env).err == NoError
    ensures var o := AckHandled(y, Reply(y, x.hist.log[n].Wire(), env), env);
      o.err == NoError ==> Joint(o.ep, x, m, n + 1)
  {
    var r := Reply(y, x.hist.log[n].Wire(), env);
    ReplyAccepts(y, x.hist.log[n].Wire(), env);
    TakenJoint(x, y, n, m, env);
    JointSymmetric(x, After(y, r), n + 1, m);
    var path := AckMoves(y, r, env);
    PathJoint(path, After(y, r), Settled(AckHandled(y, r, env), env), x, m, n + 1);
  }

  lemma ConcludeRecord(ep: EndPoint, env: Env)
    requires OpenAndGood(ep) && ep.hist.stale
    ensures Conclude(Outcome(ep, NoError), env, env).hist.stale
  {
    var path := AcknowledgeMoves(ep, env);
    PathRecord(path, ep, Settled(Acknowledge(ep, env), env));
  }

  /** What a packet leaves of the duty at `y`. */
  predicate PacketLeaves(y: EndPoint, y': EndPoint) {
    IsConnected(y'.life) ==>
      && (!y'.hist.stale ==> Promised(y'))
      && (!y.hist.stale && !Armed(y) ==> Fresh(y') && !y'.hist.stale)
  }

  lemma StaleLeaves(y: EndPoint, r: Received, env: Env, env': Env)
    requires OpenAndGood(y) && Accepts(y, r)
    requires var o := AckHandled(y, r, env); o.err == NoError && IsConnected(o.ep.life) && o.ep.hist.stale
    ensures PacketLeaves(y, Conclude(AckHandled(y, r, env), env, env'))
  {
    var o := AckHandled(y, r, env);
    StillOpen(y, r, env);
    ConcludeRecord(o.ep, env');
    assert Conclude(o, env, env') == Conclude(Outcome(o.ep, NoError), env', env');
    if !Armed(y) { AckHandledDuty(y, r, env); }
  }

  lemma TakenPromise(x: EndPoint, y: EndPoint, n: nat, m: nat, env: Env, env': Env)
    requires Joint(x, y, n, m) && n < |x.hist.log| && PairInvariant.Ready(y) && HeaderPresent(x.hist.log[n].Wire())
    requires Reply(y, x.hist.log[n].Wire(), env).err == NoError
    ensures PacketLeaves(y, ReceivePacket(y, x.hist.log[n].Wire(), env, env'))
  {
    var data := x.hist.log[n].Wire();
    var r := Reply(y, data, env);
    var o := AckHandled(y, r, env);
    ReplyAccepts(y, data, env);
    if o.err == NoError && IsConnected(o.ep.life) && o.ep.hist.stale {
      PacketConcludes(y, data, env, env');
      StaleLeaves(y, r, env, env');
    } else {
      HonestLeaves(x, y, n, m, env, env');
    }
  }

  lemma HonestLeaves(x: EndPoint, y: EndPoint, n: nat, m: nat, env: Env, env': Env)
    requires Joint(x, y, n, m) && n < |x.hist.log| && PairInvariant.Ready(y) && HeaderPresent(x.hist.log[n].Wire())
    requires var r := Reply(y, x.hist.log[n].Wire(), env); r.err == NoError && Accepts(y, r)
    requires var o := AckHandled(y, Reply(y, x.hist.log[n].Wire(), env), env);
      o.err == NoError && IsConnected(o.ep.life) ==> !o.ep.hist.stale
    ensures PacketLeaves(y, ReceivePacket(y, x.hist.log[n].Wire(), env, env'))
  {
    var data := x.hist.log[n].Wire();
    var o := AckHandled(y, Reply(y, data, env), env);
    if o.err == NoError && IsConnected(o.ep.life) {
      TakenNarrow(x, y, n, m, env);
    }
    PacketDuty(y, data, env, env');
  }

  lemma TakenNarrow(x: EndPoint, y: EndPoint, n: nat, m: nat, env: Env)
    requires Joint(x, y, n, m) && n < |x.hist.log| && PairInvariant.Ready(y) && HeaderPresent(x.hist.log[n].Wire())
    requires var r := Reply(y, x.hist.log[n].Wire(), env); r.err == NoError && Accepts(y, r)
    requires var o := AckHandled(y, Reply(y, x.hist.log[n].Wire(), env), env);
      o.err == NoError && IsConnected(o.ep.life) && !o.ep.hist.stale
    ensures Narrow(AckHandled(y, Reply(y, x.hist.log[n].Wire(), env), env).ep)
  {
    AckHandledJoint(x, y, n, m, env);
    JointNarrow(AckHandled(y, Reply(y, x.hist.log[n].Wire(), env), env).ep, x, m, n + 1);
  }

  lemma PacketPromise(x: EndPoint, y: EndPoint, n: nat, m: nat, env: Env, env': Env)
    requires Joint(x, y, n, m) && n < |x.hist.log| && PairInvariant.Ready(y) && HeaderPresent(x.hist.log[n].Wire())
    ensures PacketLeaves(y, ReceivePacket(y, x.hist.log[n].Wire(), env, env'))
  {
    var data := x.hist.log[n].Wire();
    if Reply(y, data, env).err != NoError {
      RefusedMoves(y, data, env, env');
    } else {
      TakenPromise(x, y, n, m, env, env');
    }
  }

  // ---------- the promise holds in every reachable state ----------

  /** While both sides are open and honest, each will acknowledge what it has received. */
  predicate PromiseInv(p: Pair) {
    BothOpen(p.a, p.b) ==> Promised(p.a) && Promised(p.b)
  }

  lemma DeliveryRecord(y: EndPoint, data: Bytes, env: Env, env': Env)
    requires OpenAndGood(y) && HeaderPresent(data)
    ensures var y' := ReceivePacket(y, data, env, env');
      (y.hist.stale ==> y'.hist.stale) && (y.hist.strayed ==> y'.hist.strayed)
  {
    var y' := ReceivePacket(y, data, env, env');
    if Reply(y, data, env).err == NoError {
      var path := PacketMoves(y, data, env, env');
      PathRecord(path, After(y, Reply(y, data, env)), y');
    } else {
      RefusedMoves(y, data, env, env');
    }
  }

  lemma DeliveryPromise(x: EndPoint, y: EndPoint, n: nat, m: nat, env: Env, env': Env)
    requires Joint(x, y, n, m) && Calm(y) && n < |x.hist.log| && HeaderPresent(x.hist.log[n].Wire())
    ensures var y' := ReceivePacket(y, x.hist.log[n].Wire(), env, env');
      && (IsConnected(y'.life) && !y'.hist.stale ==> IsConnected(y.life) && !y.hist.stale && Promised(y'))
      && (IsConnected(y'.life) ==> IsConnected(y.life))
      && (IsConnected(y'.life) && !y.hist.stale && !Armed(y) ==> Fresh(y') && !y'.hist.stale)
  {
    if IsConnected(y.life) {
      PacketPromise(x, y, n, m, env, env');
      DeliveryRecord(y, x.hist.log[n].Wire(), env, env');
    } else {
      ClosedPacket(y, x.hist.log[n].Wire(), env, env');
    }
  }

  lemma EventPromiseStep(p: Pair, event: Event, env: Env)
    requires PairInv(p) && PromiseInv(p) && Enabled(p.a, event) && !event.PacketIn?
    ensures PromiseInv(p.(a := Apply(p.a, event, env)))
  {
    EventPromise(p.a, p.b, p.toB, p.toA, event, env);
  }

  lemma DeliveryPromiseStep(p: Pair, env: Env, env': Env)
    requires PairInv(p) && PromiseInv(p) && CanStep(p, ToB(env, env'))
    ensures PromiseInv(Take(p, ToB(env, env')))
  {
    DeliveryPromise(p.a, p.b, p.toB, p.toA, env, env');
  }

  lemma StepPromise(p: Pair, s: Step)
    requires PairInv(p) && PromiseInv(p) && CanStep(p, s)
    ensures PromiseInv(Take(p, s))
  {
    match s
    case AtA(event, env) => EventPromiseStep(p, event, env);
    case ToB(env, env') => DeliveryPromiseStep(p, env, env');
    case AtB(event, env) =>
      SwapInv(p);
      EventPromiseStep(Swap(p), event, env);
    case ToA(env, env') =>
      SwapInv(p);
      DeliveryPromiseStep(Swap(p), env, env');
  }

  lemma {:induction false} RunPromise(p: Pair, steps: seq<Step>, q: Pair)
    requires PairInv(p) && PromiseInv(p) && Runs(p, steps, q)
    ensures PromiseInv(q)
    decreases |steps|
  {
    if |steps| > 0 {
      StepKeeps(p, steps[0]);
      StepPromise(p, steps[0]);
      RunPromise(Take(p, steps[0]), steps[1..], q);
    }
  }

  lemma ReachablePromise(q: Pair)
    requires Reachable(q)
    ensures PromiseInv(q)
  {
    var p, steps :| Starts(p) && Runs(p, steps, q);
    StartKeeps(p);
    RunPromise(p, steps, q);
  }

  // ---------- a blocked pair gets going again ----------

  /** The platform does what it is asked. */
  predicate Cooperates(env: Env) {
    env.sent && env.ackTimer && env.sendAckTimer && env.buffer && env.headroom
  }

  /** The send-ack timer expires at `z`: a stand-alone ack for everything received goes out. */
  lemma TimeoutAcks(z: EndPoint, env: Env)
    requires OpenAndGood(z) && Narrow(z) && Promised(z) && Cooperates(env)
    requires Unacked(z) > 0 && z.link.remote > 0 && !z.link.gattInFlight && !z.hist.lapsed
    ensures var z' := SendAckTimeout(z, env);
      && IsConnected(z'.life) && Unacked(z') == 0
      && z'.hist.log == z.hist.log + [StandAloneAck((RxN(z) - 1) % 0x100, z.engine.txNext)]
  {
    assert z.link.sendAckTimer && !z.link.ackPending;
    var z1 := Wanted(z);
    assert !Blocked(z1);
    StandAloneAckSends(z1, env);
    assert SendAckTimeout(z, env) == DoSendStandAloneAck(z1, env).ep;
  }

  /**
   There is something to acknowledge, and when the send-ack timer expires one fragment goes out that acknowledges it
   all.
   */
  predicate AcksAll(z: EndPoint, env: Env) {
    var z' := SendAckTimeout(z, env);
    && Unacked(z) > 0 && Unacked(z') == 0
    && |z'.hist.log| == |z.hist.log| + 1 && z'.hist.log[|z.hist.log|].ack == Some((RxN(z) - 1) % 0x100)
  }

  /** In every reachable state, a side with something to acknowledge, a window and a free air will acknowledge it. */
  lemma ReachableAcks(q: Pair, env: Env)
    requires Reachable(q) && BothOpen(q.a, q.b) && Cooperates(env)
    requires !q.a.link.gattInFlight && !q.b.link.gattInFlight && !q.a.hist.lapsed && !q.b.hist.lapsed
    ensures Unacked(q.a) > 0 && q.a.link.remote > 0 ==> AcksAll(q.a, env)
    ensures Unacked(q.b) > 0 && q.b.link.remote > 0 ==> AcksAll(q.b, env)
  {
    ReachableInv(q);
    ReachablePromise(q);
    SwapInv(q);
    SideAcks(q.a, q.b, q.toB, q.toA, env);
    SideAcks(q.b, q.a, q.toA, q.toB, env);
  }

  lemma SideAcks(x: EndPoint, y: EndPoint, n: nat, m: nat, env: Env)
    requires Joint(x, y, n, m) && Calm(x) && BothOpen(x, y) && Promised(x) && Cooperates(env)
    requires !x.link.gattInFlight && !x.hist.lapsed
    ensures Unacked(x) > 0 && x.link.remote > 0 ==> AcksAll(x, env)
  {
    if Unacked(x) > 0 && x.link.remote > 0 {
      JointNarrow(x, y, n, m);
      TimeoutAcks(x, env);
    }
  }

  /**
   Progress: in every reachable state with empty channels, exact windows, honest acks, nothing in flight and no
   ignored timeout, if either side may not send for want of window then at one side the send-ack timer is
   running, and when it expires that side acknowledges everything it has received.
   */
  lemma Progress(q: Pair, env: Env)
    requires Reachable(q) && BothOpen(q.a, q.b) && q.a.config.offset == EXACT && Quiescent(q) && Cooperates(env)
    requires !q.a.link.gattInFlight && !q.b.link.gattInFlight && !q.a.hist.lapsed && !q.b.hist.lapsed
    requires q.a.link.remote <= NO_ACK_SEND_THRESHOLD || q.b.link.remote <= NO_ACK_SEND_THRESHOLD
    ensures AcksAll(q.a, env) || AcksAll(q.b, env)
  {
    NoWedge(q);
    ReachableAcks(q, env);
  }

  // ---------- runs in which no armed ack goes out ----------

  predicate BothConnected(p: Pair) {
    IsConnected(p.a.life) && IsConnected(p.b.life)
  }

  /** While both sides are open, neither is stale nor about to be. */
  predicate FreshInv(p: Pair) {
    BothConnected(p) ==> Fresh(p.a) && Fresh(p.b) && !p.a.hist.stale && !p.b.hist.stale
  }

  predicate Unarmed(p: Pair) {
    !Armed(p.a) && !Armed(p.b)
  }

  lemma EventFreshStep(p: Pair, event: Event, env: Env)
    requires PairInv(p) && FreshInv(p) && !Armed(p.a) && Enabled(p.a, event) && !event.PacketIn?
    ensures FreshInv(p.(a := Apply(p.a, event, env)))
  {
    EventPromise(p.a, p.b, p.toB, p.toA, event, env);
  }

  lemma DeliveryFreshStep(p: Pair, env: Env, env': Env)
    requires PairInv(p) && FreshInv(p) && !Armed(p.b) && CanStep(p, ToB(env, env'))
    ensures FreshInv(Take(p, ToB(env, env')))
  {
    DeliveryPromise(p.a, p.b, p.toB, p.toA, env, env');
  }

  lemma StepFresh(p: Pair, s: Step)
    requires PairInv(p) && FreshInv(p) && Unarmed(p) && CanStep(p, s)
    ensures FreshInv(Take(p, s))
  {
    match s
    case AtA(event, env) => EventFreshStep(p, event, env);
    case ToB(env, env') => DeliveryFreshStep(p, env, env');
    case AtB(event, env) =>
      SwapInv(p);
      EventFreshStep(Swap(p), event, env);
    case ToA(env, env') =>
      SwapInv(p);
      DeliveryFreshStep(Swap(p), env, env');
  }

  /** No state that a step is taken from has an armed ack. */
  ghost predicate UnarmedRun(p: Pair, steps: seq<Step>)
    decreases |steps|
  {
    |steps| == 0 || (Unarmed(p) && CanStep(p, steps[0]) && UnarmedRun(Take(p, steps[0]), steps[1..]))
  }

  /**
   A run in which no stand-alone ack ever waits with the timer flag set behind it keeps both sides honest: no
   ack is sent with nothing to acknowledge, and no fragment is due to carry one.
   */
  lemma {:induction false} UnarmedRunsStayFresh(p: Pair, steps: seq<Step>, q: Pair)
    requires PairInv(p) && FreshInv(p) && Runs(p, steps, q) && UnarmedRun(p, steps)
    ensures PairInv(q) && FreshInv(q)
    decreases |steps|
  {
    if |steps| > 0 {
      StepKeeps(p, steps[0]);
      StepFresh(p, steps[0]);
      UnarmedRunsStayFresh(Take(p, steps[0]), steps[1..], q);
    }
  }

  lemma StartFresh(p: Pair)
    requires Starts(p)
    ensures PairInv(p) && FreshInv(p) && Unarmed(p)
  {
    StartKeeps(p);
  }

  // ---------- a cooperating platform never loses the connection ----------

  lemma SendPieceSucceeds(ep: EndPoint, m: Option<Message>, env: Env)
    requires Cooperates(env) && (ep.link.sendAckTimer ==> HasUnackedData(ep.engine))
    requires if m.Some? then ep.engine.txState == Idle else ep.engine.txState == InProgress
    ensures SendPiece(ep, m, env).err == NoError
  {
  }

  lemma DriveSucceeds(ep: EndPoint, env: Env)
    requires Cooperates(env) && (ep.link.sendAckTimer ==> HasUnackedData(ep.engine))
    ensures DriveSending(ep, env).err == NoError
  {
    if !Blocked(ep) && !ep.link.ackPending {
      var ep1 := if ep.engine.txState == Complete then ep.(engine := ClearTx(ep.engine)) else ep;
      if ep1.engine.txState == Idle && |ep.queue| > 0 {
        SendPieceSucceeds(ep1.(queue := ep.queue[1..]), Some(ep.queue[0]), env);
      } else if ep1.engine.txState == InProgress {
        SendPieceSucceeds(ep, None, env);
      }
    }
  }

  /** Still open, or closed because a lingering close was done. */
  predicate OpenOrDone(ep: EndPoint) {
    IsConnected(ep.life) || (ep.life.state == Closed && ep.life.graceful)
  }

  lemma DriveStaysOpen(ep: EndPoint, env: Env)
    requires Core(ep) && Sound(ep.life) && IsConnected(ep.life) && Cooperates(env)
    requires ep.link.sendAckTimer ==> HasUnackedData(ep.engine)
    ensures DriveSending(ep, env).err == NoError && OpenOrDone(DriveSending(ep, env).ep)
  {
    DriveSucceeds(ep, env);
    DriveSendingDrives(ep, env);
  }

  lemma FreshMeansUnacked(ep: EndPoint)
    requires Numbers(ep) && Fresh(ep) && Narrow(ep)
    ensures ep.link.sendAckTimer ==> HasUnackedData(ep.engine)
  {
    NarrowUnacked(ep);
  }

  lemma StandAloneStaysOpen(ep: EndPoint, env: Env)
    requires Core(ep) && Sound(ep.life) && IsConnected(ep.life) && Cooperates(env)
    ensures DriveStandAloneAck(ep, env).err == NoError && OpenOrDone(DriveStandAloneAck(ep, env).ep)
  {
    WantedKeeps(ep);
    DriveStaysOpen(Wanted(ep), env);
  }

  lemma ProceedStaysOpen(ep: EndPoint, env: Env, waits: bool)
    requires Core(ep) && Sound(ep.life) && IsConnected(ep.life) && Cooperates(env)
    requires ep.link.sendAckTimer ==> HasUnackedData(ep.engine)
    ensures OpenOrDone(Settled(Proceed(ep, env, waits), env))
  {
    StandAloneStaysOpen(ep, env);
    DriveStaysOpen(ep, env);
  }

  /** The events of a connection in normal use. */
  predicate Ordinary(ep: EndPoint, event: Event) {
    match event
    case AppSend(m) => |m| <= ep.config.capacity
    case GattConfirmed => true
    case GattSubscribed => true
    case SendAckExpired => true
    case AppClose(call) => call == CallClose
    case _ => false
  }

  lemma OrdinaryStaysOpen(ep: EndPoint, event: Event, env: Env)
    requires OpenAndGood(ep) && Fresh(ep) && Narrow(ep) && Cooperates(env) && Enabled(ep, event) && Ordinary(ep, event)
    requires event.AppClose? ==> ep.engine.txState != Idle
    ensures OpenOrDone(Apply(ep, event, env))
  {
    FreshMeansUnacked(ep);
    match event
    case AppSend(m) =>
      EnqueueKeeps(ep, m);
      DriveStaysOpen(ep.(queue := ep.queue + [m], hist := ep.hist.(accepted := ep.hist.accepted + [m])), env);
    case GattConfirmed => ConfirmStaysOpen(ep, env);
    case GattSubscribed =>
      LandedKeeps(ep);
      DriveStaysOpen(Landed(ep), env);
    case SendAckExpired => TimeoutStaysOpen(ep, env);
    case AppClose(call) => CloseStaysOpen(ep, env);
  }

  lemma ConfirmStaysOpen(ep: EndPoint, env: Env)
    requires OpenAndGood(ep) && Cooperates(env) && ep.link.gattInFlight
      && (ep.link.sendAckTimer ==> HasUnackedData(ep.engine))
    ensures ep.capsConfirmed || |ep.queue| > 0
    ensures OpenOrDone(Confirmed(ep, env))
  {
    if ep.capsConfirmed {
      LandedKeeps(ep);
      ProceedStaysOpen(Landed(ep), env, |ep.queue| > 0 || ep.engine.txState == InProgress);
    } else {
      UnparkedKeeps(ep);
      ProceedStaysOpen(Unparked(ep), env, |ep.queue| > 1);
    }
  }

  lemma TimeoutStaysOpen(ep: EndPoint, env: Env)
    requires OpenAndGood(ep) && Cooperates(env)
    ensures OpenOrDone(SendAckTimeout(ep, env))
  {
    var ep1 := ep.(link := ep.link.(sendAckTimer := false));
    FlagsKeep(ep, ep1);
    StandAloneStaysOpen(ep1, env);
  }

  lemma CloseStaysOpen(ep: EndPoint, env: Env)
    requires OpenAndGood(ep) && ep.engine.txState != Idle
    ensures OpenOrDone(AppCall(ep, CallClose, env))
  {
    PerformSound(ep.life, CallClose, false, env.platform);
    CloseUnfold(Prelude(ep.life, CallClose), false, env.platform);
  }

  lemma AckHandledStaysOpen(y: EndPoint, r: Received, env: Env)
    requires OpenAndGood(y) && Accepts(y, r) && Cooperates(env) && HasUnackedData(After(y, r).engine)
    ensures var o := AckHandled(y, r, env); o.err == NoError && OpenOrDone(o.ep)
  {
    AfterKeeps(y, r);
    if r.ack.Some? {
      OnAckCases(y, r, env);
      if LastAckIn(After(y, r)) {
        TakenFinalizes(y, r, env);
      }
      DriveStaysOpen(After(y, r), env);
    }
  }

  lemma AcknowledgeStaysOpen(ep: EndPoint, env: Env)
    requires OpenAndGood(ep) && Cooperates(env)
    ensures Acknowledge(ep, env).err == NoError && Acknowledge(ep, env).ep.life == ep.life
  {
    StandAloneStaysOpen(ep, env);
    AcknowledgeStays(ep, env);
  }

  lemma ConcludeStaysOpen(ep: EndPoint, env: Env)
    requires OpenAndGood(ep) && Cooperates(env)
    ensures OpenOrDone(Conclude(Outcome(ep, NoError), env, env))
  {
    AcknowledgeStaysOpen(ep, env);
  }

  lemma NarrowUnacked(y: EndPoint)
    requires Narrow(y) && RxRep(y.engine, y.hist.rxA, RxN(y))
    ensures HasUnackedData(y.engine) <==> Unacked(y) > 0
  {
    HasUnackedDataIff(y.engine, y.hist.rxA, RxN(y));
  }

  /** The next fragment is accepted, and there is then something to acknowledge. */
  lemma NextIsTaken(x: EndPoint, y: EndPoint, n: nat, m: nat, env: Env)
    requires Joint(x, y, n, m) && n < |x.hist.log| && PairInvariant.Ready(y) && HeaderPresent(x.hist.log[n].Wire())
    requires !x.hist.stale && !y.hist.stale && env.buffer
    ensures var r := Reply(y, x.hist.log[n].Wire(), env);
      r.err == NoError && Accepts(y, r) && HasUnackedData(After(y, r).engine)
  {
    NextIsAccepted(x, y, n, m, env);
    var r := Reply(y, x.hist.log[n].Wire(), env);
    ReplyAccepts(y, x.hist.log[n].Wire(), env);
    TakenJoint(x, y, n, m, env);
    TakenUnacked(x, y, r, n + 1, m);
  }

  lemma TakenUnacked(x: EndPoint, y: EndPoint, r: Received, n: nat, m: nat)
    requires Joint(x, After(y, r), n, m) && IsConnected(y.life) && Numbers(y) && Accepts(y, r) && !y.hist.stale
    ensures HasUnackedData(After(y, r).engine)
  {
    var mid := After(y, r);
    AfterFresh(y, r);
    AfterRx(y, r);
    JointSymmetric(x, mid, n, m);
    JointNarrow(mid, x, m, n);
    NarrowUnacked(mid);
    assert Unacked(mid) == Unacked(y) + 1;
  }

  lemma PacketStaysOpen(x: EndPoint, y: EndPoint, n: nat, m: nat, env: Env, env': Env)
    requires Joint(x, y, n, m) && n < |x.hist.log| && PairInvariant.Ready(y) && HeaderPresent(x.hist.log[n].Wire())
    requires !x.hist.stale && !y.hist.stale && Cooperates(env) && Cooperates(env')
    ensures OpenOrDone(ReceivePacket(y, x.hist.log[n].Wire(), env, env'))
  {
    NextIsTaken(x, y, n, m, env);
    TakenStaysOpen(y, x.hist.log[n].Wire(), env, env');
  }

  lemma TakenStaysOpen(y: EndPoint, data: Bytes, env: Env, env': Env)
    requires OpenAndGood(y) && HeaderPresent(data) && Cooperates(env) && Cooperates(env')
    requires var r := Reply(y, data, env); r.err == NoError && Accepts(y, r) && HasUnackedData(After(y, r).engine)
    ensures OpenOrDone(ReceivePacket(y, data, env, env'))
  {
    var r := Reply(y, data, env);
    var o := AckHandled(y, r, env);
    AckHandledStaysOpen(y, r, env);
    if o.ep.life.state == Closed {
      PacketFinalizes(y, data, env, env');
    } else {
      PacketConcludes(y, data, env, env');
      StillOpen(y, r, env);
      ConcludeStaysOpen(o.ep, env');
      assert Conclude(o, env, env') == Conclude(Outcome(o.ep, NoError), env', env');
    }
  }

  /** A step in normal use, on a platform that does what it is asked. */
  predicate OrdinaryStep(p: Pair, s: Step) {
    match s
    case AtA(event, env) => Ordinary(p.a, event) && Cooperates(env) && (event.AppClose? ==> p.a.engine.txState != Idle)
    case AtB(event, env) => Ordinary(p.b, event) && Cooperates(env) && (event.AppClose? ==> p.b.engine.txState != Idle)
    case ToA(env, env') => Cooperates(env) && Cooperates(env')
    case ToB(env, env') => Cooperates(env) && Cooperates(env')
  }

  lemma OrdinaryEvent(p: Pair, event: Event, env: Env)
    requires PairInv(p) && FreshInv(p) && BothConnected(p) && Cooperates(env) && Enabled(p.a, event)
    requires Ordinary(p.a, event)
    requires event.AppClose? ==> p.a.engine.txState != Idle
    ensures OpenOrDone(Apply(p.a, event, env))
  {
    JointNarrow(p.a, p.b, p.toB, p.toA);
    OrdinaryStaysOpen(p.a, event, env);
  }

  /**
   From a fresh pair, no ordinary step on a cooperating platform closes either side, except to finish a
   lingering close.
   */
  lemma NoSpuriousClose(p: Pair, s: Step)
    requires PairInv(p) && FreshInv(p) && BothConnected(p) && CanStep(p, s) && OrdinaryStep(p, s)
    ensures OpenOrDone(Take(p, s).a) && OpenOrDone(Take(p, s).b)
  {
    SwapInv(p);
    match s
    case AtA(event, env) => OrdinaryEvent(p, event, env);
    case AtB(event, env) => OrdinaryEvent(Swap(p), event, env);
    case ToB(env, env') => PacketStaysOpen(p.a, p.b, p.toB, p.toA, env, env');
    case ToA(env, env') => PacketStaysOpen(p.b, p.a, p.toA, p.toB, env, env');
  }

  /**
   The connection is never lost: after any run from the end of a handshake in which no stand-alone ack waited with
   the timer flag set behind it, an ordinary step closes neither side, except to finish a lingering close.
   */
  lemma NeverLost(p: Pair, steps: seq<Step>, q: Pair, s: Step)
    requires Starts(p) && Runs(p, steps, q) && UnarmedRun(p, steps) && BothConnected(q)
    requires CanStep(q, s) && OrdinaryStep(q, s)
    ensures OpenOrDone(Take(q, s).a) && OpenOrDone(Take(q, s).b)
  {
    StartFresh(p);
    UnarmedRunsStayFresh(p, steps, q);
    NoSpuriousClose(q, s);
  }
}
