/**
 What two connected end points guarantee together, in every state that any run reaches: any interleaving of
 application calls, GATT confirmations, timeouts, deliveries, closes and platform failures, through any number
 of wraps of the 8-bit sequence numbers.
 */
module PairTheorems {
  import opened Common
  import opened Fragments
  import opened BtpEngine
  import opened Numbering
  import opened Windows
  import opened Lifecycle
  import opened EndPointModel
  import opened EndPointInvariant
  import opened EndPointEvents
  import opened EndPointEdges
  import opened PairInvariant
  import opened PairRuns

  // ---------- end-to-end delivery ----------

  lemma FlowDelivers(x: EndPoint, y: EndPoint, n: nat)
    requires Flow(x, y, n)
    ensures y.hist.reassembled <= x.hist.accepted && y.hist.delivered <= x.hist.accepted
  {
    AssembleMonotone(x.hist.log, y.hist.received);
  }

  /**
   End-to-end delivery: what either side has reassembled is, byte for byte, a prefix of what the other side
   accepted in Send; and what it handed to its application is a prefix of that, all of it while the
   application listens. Nothing is assumed of acks, windows, buffer sizes or the platform; the handshake has to have
   left each side with fragments that the other takes in whole.
   */
  lemma Delivery(q: Pair)
    requires Reached(q)
    ensures q.b.hist.reassembled <= q.a.hist.accepted && q.a.hist.reassembled <= q.b.hist.accepted
    ensures q.b.hist.delivered <= q.b.hist.reassembled && q.a.hist.delivered <= q.a.hist.reassembled
    ensures q.a.life.onMessageReceived && q.a.life.state == Connected ==> q.a.hist.delivered == q.a.hist.reassembled
    ensures q.b.life.onMessageReceived && q.b.life.state == Connected ==> q.b.hist.delivered == q.b.hist.reassembled
  {
    ReachedLinks(q);
    FlowDelivers(q.a, q.b, q.toB);
    FlowDelivers(q.b, q.a, q.toA);
  }

  // ---------- no rejection ----------

  /**
   Two correct peers never reject each other: while a side has never acknowledged with nothing to acknowledge,
   every fragment it has on the air passes all the checks of its open peer.
   */
  lemma NeverRejected(q: Pair, env: Env)
    requires Reachable(q) && env.buffer
    ensures q.toB < |q.a.hist.log| && IsConnected(q.b.life) && !q.a.hist.stale ==>
      HeaderPresent(q.a.hist.log[q.toB].Wire()) && Reply(q.b, q.a.hist.log[q.toB].Wire(), env).err == NoError
    ensures q.toA < |q.b.hist.log| && IsConnected(q.a.life) && !q.b.hist.stale ==>
      HeaderPresent(q.b.hist.log[q.toA].Wire()) && Reply(q.a, q.b.hist.log[q.toA].Wire(), env).err == NoError
  {
    ReachableInv(q);
    SwapInv(q);
    if q.toB < |q.a.hist.log| && IsConnected(q.b.life) && !q.a.hist.stale {
      NextIsAccepted(q.a, q.b, q.toB, q.toA, env);
    }
    if q.toA < |q.b.hist.log| && IsConnected(q.a.life) && !q.b.hist.stale {
      NextIsAccepted(q.b, q.a, q.toA, q.toB, env);
    }
  }

  /**
   Read as unbounded numbers, the acks of a log name `Mark(log[..i + 1]) - 1`, and each is larger than the one
   before.
   */
  predicate AcksAscend(x: EndPoint) {
    var log := x.hist.log;
    forall i, j :: 0 <= i < j < |log| && log[i].ack.Some? && log[j].ack.Some? ==> Ascends(x, i, j)
  }

  predicate Ascends(x: EndPoint, i: nat, j: nat)
    requires i < j < |x.hist.log|
  {
    var log := x.hist.log;
    Mark(log[..i + 1]) < Mark(log[..j + 1]) <= RxN(x)
  }

  lemma AckNames(log: seq<Fragment>, i: nat)
    requires i < |log| && log[i].ack.Some?
    ensures Mark(log[..i]) < Mark(log[..i + 1]) && (Mark(log[..i + 1]) - 1) % 0x100 == log[i].ack.value
  {
    NextMark(log, i);
    LiftResidue(Mark(log[..i]), log[i].ack.value);
  }

  lemma SideAscends(x: EndPoint)
    requires Honest(x) && !x.hist.stale
    ensures AcksAscend(x)
  {
    var log := x.hist.log;
    forall i, j | 0 <= i < j < |log| && log[i].ack.Some? && log[j].ack.Some?
      ensures Ascends(x, i, j)
    {
      AckNames(log, j);
      MarkMonotone(log, j + 1);
      assert log[..j][..i + 1] == log[..i + 1];
      MarkMonotone(log[..j], i + 1);
    }
  }

  /** While a side is honest, its successive acks strictly increase and never name more than it has received. */
  lemma AcksStrictlyIncrease(q: Pair)
    requires Reachable(q)
    ensures !q.a.hist.stale ==> AcksAscend(q.a)
    ensures !q.b.hist.stale ==> AcksAscend(q.b)
  {
    ReachableInv(q);
    if !q.a.hist.stale { SideAscends(q.a); }
    if !q.b.hist.stale { SideAscends(q.b); }
  }

  /** An ack that goes out with something to acknowledge names the last fragment received in order. */
  lemma AckNamesNewest(x: EndPoint, x': EndPoint, y: EndPoint, f: Fragment, n: nat, m: nat)
    requires Joint(x, y, n, m) && IsConnected(x.life) && Sends(x, x', f) && f.ack.Some? && !x'.hist.stale
    ensures Mark(x'.hist.log) == RxN(x) && f.ack.value == (RxN(x) - 1) % 0x100
  {
    UnackedBound(x, y, n, m);
    SendsHonest(x, x', f);
  }

  // ---------- lingering close ----------

  lemma GracefulDelivers(x: EndPoint, y: EndPoint, n: nat, m: nat)
    requires Joint(x, y, n, m) && x.life.graceful && !y.hist.stale
    ensures y.hist.reassembled == x.hist.accepted
  {
    MarkMonotone(y.hist.log, x.hist.received);
    assert TxN(x) <= RxN(y);
    assert y.hist.received == |x.hist.log|;
    assert x.hist.log[..|x.hist.log|] == x.hist.log;
  }

  /**
   Linger: a side that entered Closing and finalized without being aborted has sent everything it ever accepted,
   every fragment of it was acknowledged, and the peer has reassembled all of it.
   */
  lemma LingerDelivers(q: Pair)
    requires Reachable(q)
    ensures q.a.life.graceful ==> AllAcked(q.a)
    ensures q.b.life.graceful ==> AllAcked(q.b)
    ensures q.a.life.graceful && !q.b.hist.stale ==> q.b.hist.reassembled == q.a.hist.accepted
    ensures q.b.life.graceful && !q.a.hist.stale ==> q.a.hist.reassembled == q.b.hist.accepted
  {
    ReachableInv(q);
    SwapInv(q);
    if q.a.life.graceful && !q.b.hist.stale {
      GracefulDelivers(q.a, q.b, q.toB, q.toA);
    }
    if q.b.life.graceful && !q.a.hist.stale {
      GracefulDelivers(q.b, q.a, q.toA, q.toB);
    }
  }

  // ---------- windows ----------

  /** The balance of one open side `x`. */
  predicate Balanced(x: EndPoint, y: EndPoint) {
    && RemoteSum(x) && 0 <= Outstanding(x) <= x.link.max + Slack(x)
    && (!x.hist.stale ==>
          && 0 <= Unacked(x) <= Outstanding(y) <= x.link.max + Slack(x)
          && (x.link.local + Unacked(x) == x.link.max <==> Unacked(x) <= x.link.max))
  }

  lemma SideBalanced(x: EndPoint, y: EndPoint, n: nat, m: nat)
    requires Joint(x, y, n, m) && IsConnected(x.life)
    ensures Balanced(x, y)
  {
    if !x.hist.stale {
      UnackedBound(x, y, n, m);
      SideLocal(x);
    }
  }

  lemma SideLocal(x: EndPoint)
    requires LocalSum(x) && 0 <= Unacked(x)
    ensures x.link.local + Unacked(x) == x.link.max <==> Unacked(x) <= x.link.max
  {
    LocalExact(x.link.max, x.link.local, Unacked(x));
  }

  lemma LocalExact(max: uint8, local: uint8, unacked: int)
    requires local == (max - unacked) % 0x100
    ensures 0 <= unacked ==> (local + unacked == max <==> unacked <= max)
  {
  }

  /**
   Windows: on an open side the remote window and the outstanding fragments add up to the maximum, or to one
   more with the offset as written; and with honest acks the local window and the unacknowledged fragments add
   up to the maximum exactly while that is not exceeded, which with the exact offset it never is.
   */
  lemma WindowsBalance(q: Pair)
    requires Reachable(q)
    ensures IsConnected(q.a.life) ==> Balanced(q.a, q.b)
    ensures IsConnected(q.b.life) ==> Balanced(q.b, q.a)
  {
    ReachableInv(q);
    SwapInv(q);
    if IsConnected(q.a.life) {
      SideBalanced(q.a, q.b, q.toB, q.toA);
    }
    if IsConnected(q.b.life) {
      SideBalanced(q.b, q.a, q.toA, q.toB);
    }
  }

  /** Both channels are empty. */
  predicate Quiescent(q: Pair) {
    q.toB == |q.a.hist.log| && q.toA == |q.b.hist.log|
  }

  lemma QuiescentCounts(x: EndPoint, y: EndPoint)
    requires Joint(x, y, |x.hist.log|, |y.hist.log|) && BothOpen(x, y)
    ensures Outstanding(x) == Unacked(y) && Outstanding(y) == Unacked(x)
  {
    assert x.hist.log[..|x.hist.log|] == x.hist.log && y.hist.log[..|y.hist.log|] == y.hist.log;
  }

  /**
   No mutual wedge: with exact windows and honest acks, no state with empty channels has both remote windows
   closed; and when either side may not send for want of window, some side has both something to acknowledge
   and a window to send the ack in.
   */
  lemma NoWedge(q: Pair)
    requires Reachable(q) && BothOpen(q.a, q.b) && q.a.config.offset == EXACT && Quiescent(q)
    ensures !(q.a.link.remote == 0 && q.b.link.remote == 0)
    ensures q.a.link.remote <= NO_ACK_SEND_THRESHOLD || q.b.link.remote <= NO_ACK_SEND_THRESHOLD ==>
      (Unacked(q.a) > 0 && q.a.link.remote > 0) || (Unacked(q.b) > 0 && q.b.link.remote > 0)
  {
    ReachableInv(q);
    QuiescentCounts(q.a, q.b);
  }
}
