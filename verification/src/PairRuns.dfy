/** Runs of a pair of end points, and what holds in every state they reach. */
module PairRuns {
  import opened Common
  import opened BtpEngine
  import opened Lifecycle
  import opened EndPointModel
  import opened EndPointInvariant
  import opened EndPointEvents
  import opened EndPointEdges
  import opened PairInvariant

  /** `toA` fragments of b's log have been delivered to a, and `toB` of a's to b. */
  datatype Pair = Pair(a: EndPoint, b: EndPoint, toA: nat, toB: nat)

  datatype Step =
    | AtA(event: Event, env: Env)
    | AtB(event: Event, env: Env)
    | ToA(env: Env, env': Env)
    | ToB(env: Env, env': Env)

  /**
   A local event that the platform may report, or a fragment waiting in a channel. Packets come from the peer only.
   */
  predicate CanStep(p: Pair, s: Step) {
    match s
    case AtA(event, _) => Enabled(p.a, event) && !event.PacketIn?
    case AtB(event, _) => Enabled(p.b, event) && !event.PacketIn?
    case ToA(_, _) => p.toA < |p.b.hist.log| && HeaderPresent(p.b.hist.log[p.toA].Wire())
    case ToB(_, _) => p.toB < |p.a.hist.log| && HeaderPresent(p.a.hist.log[p.toB].Wire())
  }

  function Take(p: Pair, s: Step): Pair
    requires CanStep(p, s)
  {
    match s
    case AtA(event, env) => p.(a := Apply(p.a, event, env))
    case AtB(event, env) => p.(b := Apply(p.b, event, env))
    case ToA(env, env') => p.(a := ReceivePacket(p.a, p.b.hist.log[p.toA].Wire(), env, env'), toA := p.toA + 1)
    case ToB(env, env') => p.(b := ReceivePacket(p.b, p.a.hist.log[p.toB].Wire(), env, env'), toB := p.toB + 1)
  }

  /** `steps` lead from `p` to `q`. */
  ghost predicate Runs(p: Pair, steps: seq<Step>, q: Pair)
    decreases |steps|
  {
    if |steps| == 0 then q == p
    else CanStep(p, steps[0]) && Runs(Take(p, steps[0]), steps[1..], q)
  }

  // ---------- the invariant of runs ----------

  /** Between events an open end point is in order and holds no complete message back. */
  predicate Calm(x: EndPoint) {
    IsConnected(x.life) ==> Good(x) && x.engine.rxState != Complete
  }

  /** What holds in every state, whatever the windows. */
  predicate LinkInv(p: Pair) {
    Linked(p.a, p.b, p.toB, p.toA) && Calm(p.a) && Calm(p.b)
  }

  predicate PairInv(p: Pair) {
    LinkInv(p) && Windowed(p.a, p.b)
  }

  function Swap(p: Pair): Pair {
    Pair(p.b, p.a, p.toB, p.toA)
  }

  lemma SwapLink(p: Pair)
    requires LinkInv(p)
    ensures LinkInv(Swap(p))
  {
    LinkedSymmetric(p.a, p.b, p.toB, p.toA);
  }

  lemma SwapInv(p: Pair)
    requires PairInv(p)
    ensures PairInv(Swap(p))
  {
    JointSymmetric(p.a, p.b, p.toB, p.toA);
  }

  lemma MoveCalm(x: EndPoint, x': EndPoint)
    requires Move(x, x') && x.engine.rxState != Complete && IsConnected(x'.life)
    ensures x'.engine.rxState != Complete
  {
  }

  lemma {:induction false} PathCalm(path: seq<EndPoint>, x: EndPoint, x': EndPoint)
    requires Path(path, x, x') && x.engine.rxState != Complete
    ensures Calm(x')
    decreases |path|
  {
    if |path| > 1 {
      assert Move(path[0], path[1]);
      if |path| > 2 { assert IsConnected(path[1].life); }
      if IsConnected(path[1].life) {
        MoveCalm(x, path[1]);
        PathCalm(path[1..], path[1], x');
      }
    }
  }

  lemma PacketCalm(y: EndPoint, data: Bytes, env: Env, env': Env)
    requires OpenAndGood(y) && HeaderPresent(data)
    ensures Calm(ReceivePacket(y, data, env, env'))
  {
    var y' := ReceivePacket(y, data, env, env');
    if Reply(y, data, env).err == NoError {
      var path := PacketMoves(y, data, env, env');
      assert IsConnected(y'.life) ==> Good(y');
      PacketEnds(y, data, env, env');
    } else {
      RefusedMoves(y, data, env, env');
    }
  }

  lemma PacketEnds(y: EndPoint, data: Bytes, env: Env, env': Env)
    requires OpenAndGood(y) && HeaderPresent(data) && Reply(y, data, env).err == NoError
    ensures var y' := ReceivePacket(y, data, env, env'); IsConnected(y'.life) ==> y'.engine.rxState != Complete
  {
    var r := Reply(y, data, env);
    ReplyAccepts(y, data, env);
    var o := AckHandled(y, r, env);
    if o.err == NoError && o.ep.life.state == Closed {
      PacketFinalizes(y, data, env, env');
    } else {
      PacketConcludes(y, data, env, env');
      if o.err != NoError {
        AckHandledFails(y, r, env);
        AbortCloses(o.ep, CloseFlags(false, true), o.err, env);
      } else {
        StillOpen(y, r, env);
        ConcludeEnds(o, env, env');
      }
    }
  }

  lemma ConcludeEnds(o: Outcome, env: Env, env': Env)
    requires o.err == NoError && OpenAndGood(o.ep)
    ensures var y' := Conclude(o, env, env'); IsConnected(y'.life) ==> y'.engine.rxState != Complete
  {
    if Acknowledge(o.ep, env').err != NoError {
      AcknowledgeFails(o.ep, env');
    }
  }

  // ---------- a closed side ----------

  lemma ClosedLinked(x: EndPoint, x': EndPoint, y: EndPoint, n: nat, m: nat)
    requires Linked(x, y, n, m) && x.life.state == Closed && StaysClosed(x, x')
    ensures Linked(x', y, n, m)
  {
    UnseenBack(x, x', y, m);
    UnseenLinked(x, x', y, n, m);
  }

  // ---------- every step keeps the link ----------

  lemma EventLinks(p: Pair, event: Event, env: Env)
    requires LinkInv(p) && Enabled(p.a, event) && !event.PacketIn?
    ensures LinkInv(p.(a := Apply(p.a, event, env)))
  {
    var x, x' := p.a, Apply(p.a, event, env);
    if IsConnected(x.life) {
      var path := EventMoves(x, event, env);
      PathLinked(path, x, x', p.b, p.toB, p.toA);
      PathCalm(path, x, x');
    } else {
      ClosedApplies(x, event, env);
      ClosedLinked(x, x', p.b, p.toB, p.toA);
    }
  }

  lemma DeliveryLinks(p: Pair, env: Env, env': Env)
    requires LinkInv(p) && CanStep(p, ToB(env, env'))
    ensures LinkInv(Take(p, ToB(env, env')))
  {
    var data := p.a.hist.log[p.toB].Wire();
    if IsConnected(p.b.life) {
      DeliverLinked(p.a, p.b, p.toB, p.toA, env, env');
      PacketCalm(p.b, data, env, env');
    } else {
      ClosedPacket(p.b, data, env, env');
    }
  }

  lemma StepLinks(p: Pair, s: Step)
    requires LinkInv(p) && CanStep(p, s)
    ensures LinkInv(Take(p, s))
  {
    match s
    case AtA(event, env) => EventLinks(p, event, env);
    case ToB(env, env') => DeliveryLinks(p, env, env');
    case AtB(event, env) =>
      SwapLink(p);
      EventLinks(Swap(p), event, env);
      SwapLink(Swap(p).(a := Apply(p.b, event, env)));
    case ToA(env, env') =>
      SwapLink(p);
      DeliveryLinks(Swap(p), env, env');
      SwapLink(Take(Swap(p), ToB(env, env')));
  }

  lemma {:induction false} RunLinks(p: Pair, steps: seq<Step>, q: Pair)
    requires LinkInv(p) && Runs(p, steps, q)
    ensures LinkInv(q)
    decreases |steps|
  {
    if |steps| > 0 {
      StepLinks(p, steps[0]);
      RunLinks(Take(p, steps[0]), steps[1..], q);
    }
  }

  // ---------- every step keeps the windows ----------

  lemma EventWindows(p: Pair, event: Event, env: Env)
    requires PairInv(p) && Enabled(p.a, event) && !event.PacketIn?
    ensures Windowed(Apply(p.a, event, env), p.b)
  {
    var x, x' := p.a, Apply(p.a, event, env);
    if IsConnected(x.life) {
      var path := EventMoves(x, event, env);
      PathJoint(path, x, x', p.b, p.toB, p.toA);
    } else {
      ClosedApplies(x, event, env);
      UnseenWindowed(x, x', p.b);
    }
  }

  lemma DeliveryWindows(p: Pair, env: Env, env': Env)
    requires PairInv(p) && CanStep(p, ToB(env, env'))
    ensures Windowed(p.a, Take(p, ToB(env, env')).b)
  {
    if IsConnected(p.b.life) {
      DeliverJoint(p.a, p.b, p.toB, p.toA, env, env');
    } else {
      ClosedPacket(p.b, p.a.hist.log[p.toB].Wire(), env, env');
    }
  }

  lemma StepWindows(p: Pair, s: Step)
    requires PairInv(p) && CanStep(p, s)
    ensures Windowed(Take(p, s).a, Take(p, s).b)
  {
    match s
    case AtA(event, env) => EventWindows(p, event, env);
    case ToB(env, env') => DeliveryWindows(p, env, env');
    case AtB(event, env) =>
      SwapInv(p);
      EventWindows(Swap(p), event, env);
    case ToA(env, env') =>
      SwapInv(p);
      DeliveryWindows(Swap(p), env, env');
  }

  lemma StepKeeps(p: Pair, s: Step)
    requires PairInv(p) && CanStep(p, s)
    ensures PairInv(Take(p, s))
  {
    StepLinks(p, s);
    StepWindows(p, s);
  }

  lemma {:induction false} RunKeeps(p: Pair, steps: seq<Step>, q: Pair)
    requires PairInv(p) && Runs(p, steps, q)
    ensures PairInv(q)
    decreases |steps|
  {
    if |steps| > 0 {
      StepKeeps(p, steps[0]);
      RunKeeps(Take(p, steps[0]), steps[1..], q);
    }
  }

  // ---------- where runs start ----------

  /** The end of a handshake: any windows and buffers, but fragments no larger than the other side takes in. */
  predicate Opening(p: Pair) {
    && OpensCentral(p.a) && OpensPeripheral(p.b) && p.toA == 0 && p.toB == 0
    && p.a.engine.txSize <= p.b.engine.rxSize && p.b.engine.txSize <= p.a.engine.rxSize
  }

  /** Such an end with one window and one buffer size agreed on. */
  predicate Starts(p: Pair) {
    Opening(p) && Matched(p.a, p.b)
  }

  lemma OpeningLinks(p: Pair)
    requires Opening(p)
    ensures LinkInv(p)
  {
    OpensCentralGood(p.a);
    OpensPeripheralGood(p.b);
  }

  lemma StartKeeps(p: Pair)
    requires Starts(p)
    ensures PairInv(p)
  {
    OpeningLinks(p);
    OpensCentralGood(p.a);
    OpensPeripheralGood(p.b);
  }

  /** `q` is reached by some run from the end of a handshake. */
  ghost predicate Reached(q: Pair) {
    exists p, steps :: Opening(p) && Runs(p, steps, q)
  }

  /** `q` is reached by some run from the end of a handshake that settled on one window. */
  ghost predicate Reachable(q: Pair) {
    exists p, steps :: Starts(p) && Runs(p, steps, q)
  }

  lemma ReachedLinks(q: Pair)
    requires Reached(q)
    ensures LinkInv(q)
  {
    var p, steps :| Opening(p) && Runs(p, steps, q);
    OpeningLinks(p);
    RunLinks(p, steps, q);
  }

  lemma ReachableInv(q: Pair)
    requires Reachable(q)
    ensures PairInv(q)
  {
    var p, steps :| Starts(p) && Runs(p, steps, q);
    StartKeeps(p);
    RunKeeps(p, steps, q);
  }
}
