/** No mutual wedge in the code as written, whose window arithmetic can give one slot too many. */
module PairAsWritten {
  import opened Common
  import opened Fragments
  import opened BtpEngine
  import opened Windows
  import opened Lifecycle
  import opened EndPointModel
  import opened EndPointInvariant
  import opened EndPointEvents
  import opened EndPointEdges
  import opened PairInvariant
  import opened PairRuns
  import opened PairTheorems
  import opened AckDuty
  import opened PairProgress
  import opened AsWritten

  /** The window of `x` will be closed once every ack that `y` has sent has arrived. */
  predicate WillBlock(x: EndPoint, y: EndPoint) {
    if x.hist.txA == y.hist.rxA then x.link.remote == 0
    else Outstanding(x) == x.link.max + 1 && x.hist.txA % 0x100 == 0 && y.hist.rxA == x.hist.txA + 1
  }

  predicate NotBoth(x: EndPoint, y: EndPoint) {
    !(WillBlock(x, y) && WillBlock(y, x))
  }

  // ---------- acks on their way ----------

  lemma {:induction false} LastAckMark(log: seq<Fragment>)
    requires LastAck(log) >= 0
    ensures Mark(log) >= Mark(log[..LastAck(log)]) + 1
    decreases |log|
  {
    var k := |log| - 1;
    if log[k].ack.None? {
      LastAckMark(log[..k]);
      assert log[..k][..LastAck(log)] == log[..LastAck(log)];
    } else {
      assert log == log[..k] + [log[k]];
      MarkExtend(log[..k], log[k]);
    }
  }

  /** Two acks sent since index `k` acknowledge at least two more fragments. */
  lemma TwoAcks(log: seq<Fragment>, k: nat)
    requires AckBefore(log) >= k
    ensures k <= |log| && Mark(log) >= Mark(log[..k]) + 2
  {
    var i, j := LastAck(log), AckBefore(log);
    LastAckMark(log);
    LastAckMark(log[..i]);
    assert log[..i][..j] == log[..j];
    var earlier := log[..j];
    MarkMonotone(earlier, k);
    assert earlier[..k] == log[..k];
  }

  // ---------- sending ----------

  lemma PlainNotBoth(x: EndPoint, x': EndPoint, y: EndPoint, f: Fragment)
    requires Numbers(x) && Setting(x) && Sends(x, x', f) && f.ack.None? && x.hist.txA <= y.hist.rxA
    ensures !WillBlock(x', y)
  {
    assert TxN(x') == TxN(x) + 1;
  }

  lemma PageIsItself(n: nat)
    requires n % 0x100 == 0
    ensures NextPage(n) == n
  {
  }

  /**
   `x` acknowledges all it has received, and `y` would still be blocked: then `y` has sent two acks that `x` has not
   seen, so `x` is not blocked.
   */
  lemma AckNotBoth(x: EndPoint, x': EndPoint, y: EndPoint, f: Fragment, n: nat, m: nat)
    requires Joint(x, y, n, m) && BothOpen(x, y) && Setting(x) && Paced(y, 1)
    requires Sends(x, x', f) && f.ack.Some? && !x'.hist.stale && WillBlock(y, x')
    ensures !WillBlock(x', y)
  {
    UnackedBound(x, y, n, m);
    assert y.hist.txA <= x.hist.rxA < RxN(x) == x'.hist.rxA;
    assert Outstanding(y) == y.link.max + 1 && RxN(x) == y.hist.txA + 1;
    PageIsItself(y.hist.txA);
    assert AckBefore(y.hist.log) >= x.hist.received;
    TwoAcks(y.hist.log, x.hist.received);
  }

  lemma SentNotBoth(x: EndPoint, x': EndPoint, y: EndPoint, n: nat, m: nat)
    requires Joint(x, y, n, m) && BothOpen(x, y) && Setting(x) && Paced(y, 1) && SentOne(x, x') && !x'.hist.stale
    ensures NotBoth(x', y)
  {
    var f := x'.hist.log[|x'.hist.log| - 1];
    if f.ack.None? {
      JointSymmetric(x, y, n, m);
      UnackedBound(y, x, m, n);
      PlainNotBoth(x, x', y, f);
    } else if WillBlock(y, x') {
      AckNotBoth(x, x', y, f, n, m);
    }
  }

  lemma SameViewNotBoth(x: EndPoint, x': EndPoint, y: EndPoint)
    requires SameView(x, x') && NotBoth(x, y)
    ensures NotBoth(x', y)
  {
    assert TxN(x') == TxN(x);
  }

  lemma MoveNotBoth(x: EndPoint, x': EndPoint, y: EndPoint, n: nat, m: nat)
    requires Joint(x, y, n, m) && BothOpen(x, y) && Setting(x) && Paced(y, 1) && NotBoth(x, y)
    requires Move(x, x') && BothOpen(x', y)
    ensures NotBoth(x', y) && Setting(x')
  {
    if SentOne(x, x') {
      SentNotBoth(x, x', y, n, m);
    } else {
      MoveSameView(x, x');
      SameViewNotBoth(x, x', y);
    }
  }

  /** Only a sent fragment moves what pacing looks at. */
  lemma MoveSameView(x: EndPoint, x': EndPoint)
    requires IsConnected(x.life) && IsConnected(x'.life) && Move(x, x') && !SentOne(x, x')
    ensures SameView(x, x')
  {
  }

  lemma {:induction false} PathNotBoth(path: seq<EndPoint>, x: EndPoint, x': EndPoint, y: EndPoint, n: nat, m: nat)
    requires Path(path, x, x') && Joint(x, y, n, m) && BothOpen(x', y) && Setting(x) && Paced(y, 1)
    requires BothOpen(x, y) && NotBoth(x, y)
    ensures NotBoth(x', y)
    decreases |path|
  {
    if |path| > 1 {
      assert Move(path[0], path[1]);
      PathRecord(path[1..], path[1], x');
      MoveNotBoth(x, path[1], y, n, m);
      MoveJoint(x, path[1], y, n, m);
      PathNotBoth(path[1..], path[1], x', y, n, m);
    }
  }

  // ---------- receiving ----------

  /** An ack that leaves a window closed was the only one on its way, and the window was one slot too large before. */
  lemma LastSlot(t: nat, t': nat, n: nat, max: uint8)
    requires t < t' <= n <= t + max + 1 && 3 <= max <= 0xfe
    requires n - t' == max + (if NextPage(t') < n then 1 else 0)
    requires n == t + max + 1 ==> NextPage(t) < n
    ensures n == t + max + 1 && t' == t + 1 && t % 0x100 == 0
  {
  }

  lemma TakenBlocks(x: EndPoint, y: EndPoint, r: Received)
    requires Numbers(y) && Setting(y) && Accepts(y, r) && Outstanding(y) <= y.link.max + 1
    requires After(y, r).hist.txA <= x.hist.rxA && r.ack.Some? && WillBlock(After(y, r), x)
    ensures WillBlock(y, x)
  {
    var mid := After(y, r);
    var t, t', n, max := y.hist.txA, mid.hist.txA, TxN(y), y.link.max;
    AfterInflated(y, r);
    AfterTx(y, r);
    assert TxN(mid) == n;
    assert n - t' <= max;
    assert t' == x.hist.rxA && mid.link.remote == 0;
    LastSlot(t, t', n, max);
  }

  lemma TakenNotBoth(x: EndPoint, y: EndPoint, r: Received)
    requires Numbers(y) && Setting(y) && Accepts(y, r) && Outstanding(y) <= y.link.max + 1
    requires After(y, r).hist.txA <= x.hist.rxA && NotBoth(x, y)
    ensures NotBoth(x, After(y, r))
  {
    var mid := After(y, r);
    assert TxN(mid) == TxN(y) && mid.hist.rxA == y.hist.rxA;
    if r.ack.Some? && WillBlock(mid, x) {
      TakenBlocks(x, y, r);
    }
  }

  // ---------- every step ----------

  /** Both sides are open and honest, have never strayed, and run the code as written. */
  predicate Applies(p: Pair) {
    BothOpen(p.a, p.b) && p.a.config.offset == AS_WRITTEN && !p.a.hist.strayed && !p.b.hist.strayed
  }

  predicate PaceInv(p: Pair) {
    Applies(p) ==> Paced(p.a, 1) && Paced(p.b, 1) && NotBoth(p.a, p.b)
  }

  lemma MatchedSetting(x: EndPoint, y: EndPoint)
    requires Matched(x, y) && x.config.offset == AS_WRITTEN
    ensures Setting(x) && Setting(y)
  {
  }

  lemma EventPace(p: Pair, event: Event, env: Env)
    requires PairInv(p) && PromiseInv(p) && PaceInv(p) && Enabled(p.a, event) && !event.PacketIn?
    requires Applies(p.(a := Apply(p.a, event, env)))
    ensures PaceInv(p.(a := Apply(p.a, event, env)))
  {
    var x, x', y := p.a, Apply(p.a, event, env), p.b;
    if !IsConnected(x.life) {
      ClosedApplies(x, event, env);
    } else {
      var path := EventMoves(x, event, env);
      PathRecord(path, x, x');
      PathJoint(path, x, x', y, p.toB, p.toA);
      MatchedSetting(x', y);
      MatchedSetting(x, y);
      EventPaced(x, event, env);
      PathNotBoth(path, x, x', y, p.toB, p.toA);
    }
  }

  lemma DeliveryPace(p: Pair, env: Env, env': Env)
    requires PairInv(p) && PromiseInv(p) && PaceInv(p) && CanStep(p, ToB(env, env'))
    requires Applies(Take(p, ToB(env, env')))
    ensures PaceInv(Take(p, ToB(env, env')))
  {
    var x, y, data := p.a, p.b, p.a.hist.log[p.toB].Wire();
    if !IsConnected(y.life) {
      ClosedPacket(y, data, env, env');
    } else {
      DeliveryRecord(y, data, env, env');
      if Reply(y, data, env).err != NoError {
        RefusedMoves(y, data, env, env');
      } else {
        PacketPace(x, y, p.toB, p.toA, env, env');
      }
    }
  }

  lemma PacketPace(x: EndPoint, y: EndPoint, n: nat, m: nat, env: Env, env': Env)
    requires Joint(x, y, n, m) && n < |x.hist.log| && PairInvariant.Ready(y) && HeaderPresent(x.hist.log[n].Wire())
    requires Reply(y, x.hist.log[n].Wire(), env).err == NoError
    requires BothOpen(x, y) && x.config.offset == AS_WRITTEN && Promised(y) && !y.hist.strayed
    requires Paced(x, 1) && Paced(y, 1) && NotBoth(x, y)
    requires var y' := ReceivePacket(y, x.hist.log[n].Wire(), env, env'); BothOpen(x, y') && !y'.hist.strayed
    ensures var y' := ReceivePacket(y, x.hist.log[n].Wire(), env, env'); Paced(y', 1) && NotBoth(x, y')
  {
    var data := x.hist.log[n].Wire();
    var r := Reply(y, data, env);
    MatchedSetting(x, y);
    PacketPaced(y, data, env, env');
    ReplyAccepts(y, data, env);
    TakenJoint(x, y, n, m, env);
    AfterNotBoth(x, y, r, n, m);
    JointSymmetric(x, After(y, r), n + 1, m);
    var path := PacketMoves(y, data, env, env');
    PathNotBoth(path, After(y, r), ReceivePacket(y, data, env, env'), x, m, n + 1);
  }

  lemma AfterNotBoth(x: EndPoint, y: EndPoint, r: Received, n: nat, m: nat)
    requires Joint(x, y, n, m) && Joint(x, After(y, r), n + 1, m) && Numbers(y) && Setting(y) && Accepts(y, r)
    requires BothOpen(x, y) && NotBoth(x, y)
    ensures NotBoth(x, After(y, r)) && NotBoth(After(y, r), x) && BothOpen(After(y, r), x) && Setting(After(y, r))
  {
    UnackedBound(x, After(y, r), n + 1, m);
    TakenNotBoth(x, y, r);
  }

  lemma StepPace(p: Pair, s: Step)
    requires PairInv(p) && PromiseInv(p) && PaceInv(p) && CanStep(p, s)
    ensures PaceInv(Take(p, s))
  {
    if Applies(Take(p, s)) {
      SwapInv(p);
      StepKeeps(p, s);
      SwapInv(Take(p, s));
      match s
      case AtA(event, env) => EventPace(p, event, env);
      case ToB(env, env') => DeliveryPace(p, env, env');
      case AtB(event, env) => EventPace(Swap(p), event, env);
      case ToA(env, env') => DeliveryPace(Swap(p), env, env');
    }
  }

  lemma {:induction false} RunPace(p: Pair, steps: seq<Step>, q: Pair)
    requires PairInv(p) && PromiseInv(p) && PaceInv(p) && Runs(p, steps, q)
    ensures PaceInv(q)
    decreases |steps|
  {
    if |steps| > 0 {
      StepKeeps(p, steps[0]);
      StepPromise(p, steps[0]);
      StepPace(p, steps[0]);
      RunPace(Take(p, steps[0]), steps[1..], q);
    }
  }

  lemma StartPace(p: Pair)
    requires Starts(p)
    ensures PaceInv(p) && PromiseInv(p)
  {
    assert p.a.hist.log == [] && p.b.hist.log == [];
  }

  lemma ReachablePace(q: Pair)
    requires Reachable(q)
    ensures PaceInv(q)
  {
    var p, steps :| Starts(p) && Runs(p, steps, q);
    StartKeeps(p);
    StartPace(p);
    RunPace(p, steps, q);
  }

  /** With empty channels every ack has arrived. */
  lemma QuiescentAcks(x: EndPoint, y: EndPoint)
    requires Joint(x, y, |x.hist.log|, |y.hist.log|) && BothOpen(x, y)
    ensures x.hist.txA == y.hist.rxA && y.hist.txA == x.hist.rxA
  {
    assert x.hist.log[..|x.hist.log|] == x.hist.log && y.hist.log[..|y.hist.log|] == y.hist.log;
  }

  lemma QuiescentFree(x: EndPoint, y: EndPoint)
    requires Joint(x, y, |x.hist.log|, |y.hist.log|) && BothOpen(x, y) && NotBoth(x, y)
    ensures !(x.link.remote == 0 && y.link.remote == 0)
    ensures x.link.remote <= NO_ACK_SEND_THRESHOLD || y.link.remote <= NO_ACK_SEND_THRESHOLD ==>
      (Unacked(x) > 0 && x.link.remote > 0) || (Unacked(y) > 0 && y.link.remote > 0)
  {
    QuiescentCounts(x, y);
    QuiescentAcks(x, y);
  }

  /**
   No mutual wedge in the code as written: with honest acks and no fragment ever sent without the ack it owed, no state
   with empty channels has both remote windows closed; and when either side may not send for want of window, some side
   has both something to acknowledge and a window to send the ack in.
   */
  lemma NoWedgeAsWritten(q: Pair)
    requires Reachable(q) && Applies(q) && Quiescent(q)
    ensures !(q.a.link.remote == 0 && q.b.link.remote == 0)
    ensures q.a.link.remote <= NO_ACK_SEND_THRESHOLD || q.b.link.remote <= NO_ACK_SEND_THRESHOLD ==>
      (Unacked(q.a) > 0 && q.a.link.remote > 0) || (Unacked(q.b) > 0 && q.b.link.remote > 0)
  {
    ReachablePace(q);
    ReachableInv(q);
    QuiescentFree(q.a, q.b);
  }

  /**
   Progress in the code as written: at one side of a blocked pair the send-ack timer runs, and its expiry frees the
   peer.
   */
  lemma ProgressAsWritten(q: Pair, env: Env)
    requires Reachable(q) && Applies(q) && Quiescent(q) && Cooperates(env)
    requires !q.a.link.gattInFlight && !q.b.link.gattInFlight && !q.a.hist.lapsed && !q.b.hist.lapsed
    requires q.a.link.remote <= NO_ACK_SEND_THRESHOLD || q.b.link.remote <= NO_ACK_SEND_THRESHOLD
    ensures AcksAll(q.a, env) || AcksAll(q.b, env)
  {
    NoWedgeAsWritten(q);
    ReachableAcks(q, env);
  }
}
