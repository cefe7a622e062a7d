/**
 Two end points joined by two reliable, in-order channels. `log` of each side is everything it ever put on the
 air, and `toA`, `toB` say how much of it has been delivered; a step is an event at one side or one delivery.
 */
module PairInvariant {
  import opened Common
  import opened Fragments
  import opened BtpEngine
  import opened Numbering
  import opened Reassembly
  import opened Windows
  import opened Lifecycle
  import opened EndPointModel
  import opened EndPointInvariant
  import opened EndPointEvents
  import opened EndPointEdges

  // ---------- what the acks of a log add up to ----------

  /** The first fragment not acknowledged by the acks in `log`, read as unbounded numbers in order. */
  function Mark(log: seq<Fragment>): nat {
    if |log| == 0 then 0
    else
      var m := Mark(log[..|log| - 1]);
      var ack := log[|log| - 1].ack;
      if ack.Some? then AfterAck(m, ack.value) else m
  }

  lemma MarkExtend(log: seq<Fragment>, f: Fragment)
    ensures Mark(log + [f]) == if f.ack.Some? then AfterAck(Mark(log), f.ack.value) else Mark(log)
  {
    assert (log + [f])[..|log|] == log;
  }

  lemma {:induction false} MarkMonotone(log: seq<Fragment>, n: nat)
    requires n <= |log|
    ensures Mark(log[..n]) <= Mark(log)
    decreases |log|
  {
    if n < |log| {
      assert log[..|log| - 1][..n] == log[..n];
      MarkMonotone(log[..|log| - 1], n);
    } else {
      assert log[..n] == log;
    }
  }

  // ---------- the joint invariant, one direction at a time ----------

  /** What the log means is the beginning of what the application handed over. */
  predicate SentPrefix(x: EndPoint) {
    var a := Assemble(x.hist.log);
    a.ok && a.done <= x.hist.accepted
  }

  /** The receiver has reassembled exactly what the fragments it took in mean. */
  predicate RxAgrees(y: EndPoint, log: seq<Fragment>) {
    y.hist.received <= |log| &&
    var a := Assemble(log[..y.hist.received]);
    && y.hist.reassembled == a.done
    && (IsConnected(y.life) ==> HoldsAssembly(y.engine, a))
  }

  predicate HoldsAssembly(e: Engine, a: Assembly) {
    if e.rxState == Complete then !a.open && a.ok && |a.done| > 0 && a.done[|a.done| - 1] == e.rxBuf
    else RxMatches(e, a)
  }

  /** Everything reassembled while the application listened was handed to it, in order. */
  predicate HandedUp(y: EndPoint) {
    && y.hist.delivered <= y.hist.reassembled
    && (y.life.onMessageReceived && y.life.state == Connected ==>
          y.hist.reassembled == y.hist.delivered + (if y.engine.rxState == Complete then [y.engine.rxBuf] else []))
  }

  /** From `x` to `y`, with `n` fragments delivered. */
  predicate Flow(x: EndPoint, y: EndPoint, n: nat) {
    && y.hist.received <= n <= |x.hist.log| && (IsConnected(y.life) ==> y.hist.received == n)
    && x.engine.txSize <= y.engine.rxSize
    && SentPrefix(x) && LogShape(x)
    && RxAgrees(y, x.hist.log) && HandedUp(y)
    && y.hist.txA == Mark(x.hist.log[..y.hist.received])
  }

  /**
   The acks `y` has sent are honest: they never name more than it received, unless one was sent with nothing to ack.
   */
  predicate Honest(y: EndPoint) {
    !y.hist.stale ==>
      && Mark(y.hist.log) <= RxN(y)
      && (IsConnected(y.life) ==> y.hist.rxA == Mark(y.hist.log))
  }

  function Slack(x: EndPoint): int {
    EXACT - x.config.offset
  }

  predicate Bounded(x: EndPoint) {
    Outstanding(x) <= x.link.max + Slack(x)
  }

  /** The sides agree on the window, which is small enough for 8-bit numbers, and on what a buffer holds. */
  predicate Matched(x: EndPoint, y: EndPoint) {
    && x.link.max == y.link.max && x.config.offset == y.config.offset && x.config.capacity == y.config.capacity
    && 3 <= x.link.max && x.link.max + Slack(x) <= 0xff
  }

  predicate BothOpen(x: EndPoint, y: EndPoint) {
    IsConnected(x.life) && IsConnected(y.life) && !x.hist.stale && !y.hist.stale
  }

  /** The two sides never both use up their window, counting every ack already on its way. */
  predicate Unwedged(x: EndPoint, y: EndPoint) {
    BothOpen(x, y) && x.config.offset == EXACT ==>
      !(TxN(x) - y.hist.rxA >= x.link.max && TxN(y) - x.hist.rxA >= y.link.max)
  }

  /** One side by itself. */
  predicate Side(x: EndPoint) {
    && Rank(x.life.state) >= 3 && Sound(x.life) && (IsConnected(x.life) ==> Core(x))
    && (x.life.state == Closed ==> Dormant(x))
    && (x.life.graceful ==> AllAcked(x))
  }

  /** What needs no agreement on windows: each side in order, and the data that flows both ways. */
  predicate Linked(x: EndPoint, y: EndPoint, n: nat, m: nat) {
    && Side(x) && Side(y) && x.life.central != y.life.central
    && Flow(x, y, n) && Flow(y, x, m)
  }

  /** What does: honest acks, windows kept, and no wedge. */
  predicate Windowed(x: EndPoint, y: EndPoint) {
    Honest(x) && Honest(y) && Bounded(x) && Bounded(y) && Matched(x, y) && Unwedged(x, y)
  }

  predicate Joint(x: EndPoint, y: EndPoint, n: nat, m: nat) {
    Linked(x, y, n, m) && Windowed(x, y)
  }

  lemma LinkedSymmetric(x: EndPoint, y: EndPoint, n: nat, m: nat)
    requires Linked(x, y, n, m)
    ensures Linked(y, x, m, n)
  {
  }

  lemma JointSymmetric(x: EndPoint, y: EndPoint, n: nat, m: nat)
    requires Joint(x, y, n, m)
    ensures Joint(y, x, m, n)
  {
  }

  // ---------- consequences ----------

  /** The peer has received at least what it acknowledged, and no more than was sent; so little is unacknowledged. */
  lemma UnackedBound(x: EndPoint, y: EndPoint, n: nat, m: nat)
    requires Joint(x, y, n, m) && IsConnected(x.life) && !x.hist.stale
    ensures RxN(x) <= TxN(y) && y.hist.txA <= x.hist.rxA
    ensures Unacked(x) <= Outstanding(y) <= 0xff
  {
    MarkMonotone(x.hist.log, y.hist.received);
  }

  // ---------- one move of one side ----------

  lemma AckLands(rxA: nat, rxN: nat)
    requires rxA < rxN <= rxA + 0x100
    ensures AfterAck(rxA, (rxN - 1) % 0x100) == rxN
  {
    LiftUnique(rxA, rxN - 1);
  }

  lemma SendsHonest(x: EndPoint, x': EndPoint, f: Fragment)
    requires IsConnected(x.life) && Honest(x) && Sends(x, x', f)
    requires RxRep(x.engine, x.hist.rxA, RxN(x)) && (!x.hist.stale ==> Unacked(x) <= 0xff)
    ensures Honest(x')
  {
    MarkExtend(x.hist.log, f);
    if !x'.hist.stale && f.ack.Some? {
      AckLands(x.hist.rxA, RxN(x));
    }
  }

  lemma SendsFlow(x: EndPoint, x': EndPoint, y: EndPoint, f: Fragment, n: nat)
    requires Flow(x, y, n) && Core(x) && Good(x') && Sends(x, x', f)
    ensures Flow(x', y, n)
  {
    assert x'.hist.log[..y.hist.received] == x.hist.log[..y.hist.received];
    GoodSentPrefix(x');
  }

  lemma GoodSentPrefix(x: EndPoint)
    requires SenderData(x)
    ensures SentPrefix(x)
  {
    var a := Assemble(x.hist.log);
    assert x.hist.accepted == a.done + (Current(x, a) + Waiting(x));
  }

  lemma SendsBack(x: EndPoint, x': EndPoint, y: EndPoint, f: Fragment, m: nat)
    requires Flow(y, x, m) && Sends(x, x', f)
    ensures Flow(y, x', m)
  {
  }

  /** Without an ack a fragment goes out only while the window has room to spare; with one, it frees the peer. */
  lemma SendsUnwedged(x: EndPoint, x': EndPoint, y: EndPoint, f: Fragment, n: nat, m: nat)
    requires Joint(x, y, n, m) && IsConnected(x.life) && Sends(x, x', f)
    ensures Unwedged(x', y)
  {
    if BothOpen(x', y) && x.config.offset == EXACT {
      UnackedBound(x, y, n, m);
      UnackedBound(y, x, m, n);
    }
  }

  lemma SendsLinked(x: EndPoint, x': EndPoint, y: EndPoint, f: Fragment, n: nat, m: nat)
    requires Linked(x, y, n, m) && IsConnected(x.life) && Sends(x, x', f)
    ensures Linked(x', y, n, m)
  {
    SendsKeeps(x, x', f);
    SendsFlow(x, x', y, f, n);
    SendsBack(x, x', y, f, m);
  }

  lemma SendsWindowed(x: EndPoint, x': EndPoint, y: EndPoint, f: Fragment, n: nat, m: nat)
    requires Joint(x, y, n, m) && IsConnected(x.life) && Sends(x, x', f)
    ensures Windowed(x', y)
  {
    SendsKeeps(x, x', f);
    if !x.hist.stale { UnackedBound(x, y, n, m); }
    SendsHonest(x, x', f);
    SendsUnwedged(x, x', y, f, n, m);
  }

  lemma UnseenFlow(x: EndPoint, x': EndPoint, y: EndPoint, n: nat)
    requires Flow(x, y, n) && Unseen(x, x') && SentPrefix(x')
    ensures Flow(x', y, n)
  {
    forall k | 0 <= k < |x'.hist.log|
      ensures LogEntry(x', k)
    {
      assert LogEntry(x, k);
    }
  }

  lemma UnseenLinked(x: EndPoint, x': EndPoint, y: EndPoint, n: nat, m: nat)
    requires Linked(x, y, n, m) && Unseen(x, x') && SentPrefix(x')
    requires IsConnected(x'.life) ==> Core(x')
    requires x'.life.state == Closed ==> Dormant(x')
    requires x'.life.graceful ==> AllAcked(x')
    requires Flow(y, x', m)
    ensures Linked(x', y, n, m)
  {
    UnseenFlow(x, x', y, n);
  }

  /** What the peer cannot see does not touch the windows. */
  lemma UnseenWindowed(x: EndPoint, x': EndPoint, y: EndPoint)
    requires Windowed(x, y) && Unseen(x, x')
    ensures Windowed(x', y)
  {
    assert TxN(x') == TxN(x) && RxN(x') == RxN(x);
  }

  lemma UnseenBack(x: EndPoint, x': EndPoint, y: EndPoint, m: nat)
    requires Flow(y, x, m) && Unseen(x, x') && HandedUp(x')
    requires IsConnected(x'.life) ==> HoldsAssembly(x'.engine, Assemble(y.hist.log[..x.hist.received]))
    ensures Flow(y, x', m)
  {
  }

  lemma PreparesLinked(x: EndPoint, x': EndPoint, y: EndPoint, n: nat, m: nat)
    requires Linked(x, y, n, m) && IsConnected(x.life) && Prepares(x, x') && Core(x')
    ensures Linked(x', y, n, m)
  {
    GoodSentPrefix(x');
    UnseenBack(x, x', y, m);
    UnseenLinked(x, x', y, n, m);
  }

  lemma QuietLinked(x: EndPoint, x': EndPoint, y: EndPoint, n: nat, m: nat)
    requires Linked(x, y, n, m) && IsConnected(x.life) && Quiet(x, x') && Core(x')
    ensures Linked(x', y, n, m)
  {
    GoodSentPrefix(x');
    UnseenBack(x, x', y, m);
    UnseenLinked(x, x', y, n, m);
  }

  lemma LingersLinked(x: EndPoint, x': EndPoint, y: EndPoint, n: nat, m: nat)
    requires Linked(x, y, n, m) && IsConnected(x.life) && Lingers(x, x') && Core(x')
    ensures Linked(x', y, n, m)
  {
    UnseenBack(x, x', y, m);
    UnseenLinked(x, x', y, n, m);
  }

  lemma ShutsLinked(x: EndPoint, x': EndPoint, y: EndPoint, n: nat, m: nat)
    requires Linked(x, y, n, m) && IsConnected(x.life) && Shuts(x, x')
    ensures Linked(x', y, n, m)
  {
    UnseenBack(x, x', y, m);
    UnseenLinked(x, x', y, n, m);
  }

  lemma FinalizesUnseen(x: EndPoint, x': EndPoint)
    requires IsConnected(x.life) && Finalizes(x, x')
    ensures Unseen(x, x') && (HandedUp(x) ==> HandedUp(x')) && (SentPrefix(x) ==> SentPrefix(x'))
  {
  }

  lemma FinalizesLinked(x: EndPoint, x': EndPoint, y: EndPoint, n: nat, m: nat)
    requires Linked(x, y, n, m) && IsConnected(x.life) && Finalizes(x, x')
    ensures Linked(x', y, n, m)
  {
    FinalizesAllAcked(x, x');
    FinalizesUnseen(x, x');
    UnseenBack(x, x', y, m);
    UnseenLinked(x, x', y, n, m);
  }

  lemma HandUpLinked(x: EndPoint, y: EndPoint, n: nat, m: nat)
    requires Linked(x, y, n, m) && IsConnected(x.life)
    ensures Linked(HandUp(x), y, n, m) && HandUp(x).engine.rxState != Complete
  {
    var x' := HandUp(x);
    HandUpCore(x);
    GoodSentPrefix(x');
    HandUpHands(x, y);
    UnseenBack(x, x', y, m);
    UnseenLinked(x, x', y, n, m);
  }

  lemma HandUpHands(x: EndPoint, y: EndPoint)
    requires HandedUp(x) && RxAgrees(x, y.hist.log) && IsConnected(x.life)
    ensures var x' := HandUp(x);
      HandedUp(x') && HoldsAssembly(x'.engine, Assemble(y.hist.log[..x.hist.received]))
  {
    if x.engine.rxState == Complete {
      var a := Assemble(y.hist.log[..x.hist.received]);
      assert x.hist.reassembled == a.done;
    }
  }

  lemma DrivesLinked(x: EndPoint, x': EndPoint, y: EndPoint, n: nat, m: nat)
    requires Linked(x, y, n, m) && IsConnected(x.life) && Drives(x, x')
    ensures Linked(x', y, n, m)
  {
    if SentOne(x, x') {
      SendsLinked(x, x', y, x'.hist.log[|x'.hist.log| - 1], n, m);
    } else if Finalizes(x, x') {
      FinalizesLinked(x, x', y, n, m);
    } else {
      QuietKeeps(x, x');
      QuietLinked(x, x', y, n, m);
    }
  }

  lemma MoveLinked(x: EndPoint, x': EndPoint, y: EndPoint, n: nat, m: nat)
    requires Linked(x, y, n, m) && IsConnected(x.life) && Move(x, x')
    ensures Linked(x', y, n, m)
  {
    if Prepares(x, x') && Core(x') {
      PreparesLinked(x, x', y, n, m);
    } else if Drives(x, x') {
      DrivesLinked(x, x', y, n, m);
    } else if Finalizes(x, x') {
      FinalizesLinked(x, x', y, n, m);
    } else if x' == HandUp(x) {
      HandUpLinked(x, y, n, m);
    } else if Lingers(x, x') {
      LingersCore(x, x');
      LingersLinked(x, x', y, n, m);
    } else {
      ShutsLinked(x, x', y, n, m);
    }
  }

  lemma DrivesUnseen(x: EndPoint, x': EndPoint)
    requires IsConnected(x.life) && Sound(x.life) && Drives(x, x') && !SentOne(x, x')
    ensures Unseen(x, x')
  {
  }

  lemma PreparesUnseen(x: EndPoint, x': EndPoint)
    requires IsConnected(x.life) && Sound(x.life) && Prepares(x, x')
    ensures Unseen(x, x')
  {
  }

  lemma ClosingUnseen(x: EndPoint, x': EndPoint)
    requires IsConnected(x.life) && (Lingers(x, x') || Shuts(x, x'))
    ensures Unseen(x, x')
  {
  }

  /** Every move but a sent fragment goes unseen by the peer. */
  lemma MoveUnseen(x: EndPoint, x': EndPoint)
    requires IsConnected(x.life) && Sound(x.life) && Move(x, x') && !SentOne(x, x')
    ensures Unseen(x, x')
  {
    if Drives(x, x') {
      DrivesUnseen(x, x');
    } else if Finalizes(x, x') {
      FinalizesUnseen(x, x');
    } else if Prepares(x, x') {
      PreparesUnseen(x, x');
    } else if x' != HandUp(x) {
      ClosingUnseen(x, x');
    }
  }

  lemma MoveJoint(x: EndPoint, x': EndPoint, y: EndPoint, n: nat, m: nat)
    requires Joint(x, y, n, m) && IsConnected(x.life) && Move(x, x')
    ensures Joint(x', y, n, m)
  {
    MoveLinked(x, x', y, n, m);
    if SentOne(x, x') {
      SendsWindowed(x, x', y, x'.hist.log[|x'.hist.log| - 1], n, m);
    } else {
      MoveUnseen(x, x');
      UnseenWindowed(x, x', y);
    }
  }

  lemma {:induction false} PathLinked(path: seq<EndPoint>, x: EndPoint, x': EndPoint, y: EndPoint, n: nat, m: nat)
    requires Path(path, x, x') && Linked(x, y, n, m)
    ensures Linked(x', y, n, m)
    decreases |path|
  {
    if |path| > 1 {
      assert Move(path[0], path[1]);
      MoveLinked(x, path[1], y, n, m);
      PathLinked(path[1..], path[1], x', y, n, m);
    }
  }

  lemma {:induction false} PathJoint(path: seq<EndPoint>, x: EndPoint, x': EndPoint, y: EndPoint, n: nat, m: nat)
    requires Path(path, x, x') && Joint(x, y, n, m)
    ensures Joint(x', y, n, m)
    decreases |path|
  {
    if |path| > 1 {
      assert Move(path[0], path[1]);
      MoveJoint(x, path[1], y, n, m);
      PathJoint(path[1..], path[1], x', y, n, m);
    }
  }

  // ---------- one delivery ----------

  lemma PrefixSplits(log: seq<Fragment>, n: nat)
    requires n < |log|
    ensures log[..n + 1] == log[..n] + [log[n]]
  {
  }

  lemma NextAssembled(log: seq<Fragment>, n: nat)
    requires n < |log|
    ensures Assemble(log[..n + 1]) == AssembleOne(Assemble(log[..n]), log[n])
    ensures Assemble(log).ok ==> Assemble(log[..n + 1]).ok
  {
    PrefixSplits(log, n);
    AssembleExtend(log[..n], log[n]);
    AssembleMonotone(log, n + 1);
  }

  lemma NextMark(log: seq<Fragment>, n: nat)
    requires n < |log|
    ensures Mark(log[..n + 1]) == if log[n].ack.Some? then AfterAck(Mark(log[..n]), log[n].ack.value)
      else Mark(log[..n])
    ensures Mark(log[..n + 1]) <= Mark(log)
  {
    PrefixSplits(log, n);
    MarkExtend(log[..n], log[n]);
    MarkMonotone(log, n + 1);
  }

  /** `y` is ready for the next fragment. */
  predicate Ready(y: EndPoint) {
    IsConnected(y.life) && Good(y) && y.engine.rxState != Complete
  }

  /** The engine's answer `r` turns a reassembly of `a` into one of `a'`. */
  predicate Reassembled(a: Assembly, a': Assembly, r: Received) {
    if |a'.done| == |a.done| then RxMatches(r.engine, a') && a'.done == a.done
    else r.engine.rxState == Complete && a'.done == a.done + [r.engine.rxBuf] && !a'.open && a'.ok
  }

  /** What the reassembler makes of the next fragment of the log. */
  lemma NextReceived(x: EndPoint, y: EndPoint, n: nat, env: Env)
    requires Flow(x, y, n) && n < |x.hist.log| && Ready(y)
    ensures HeaderPresent(x.hist.log[n].Wire())
    ensures var f := x.hist.log[n];
      var r := Reply(y, f.Wire(), env);
      && (env.buffer && x.config.capacity <= y.config.capacity ==>
            (r.err == NoError <==> f.seqNum == y.engine.rxNext && (f.ack.Some? ==> IsValidAck(y.engine, f.ack.value))))
      && (r.err == NoError ==>
            (r.ack == f.ack && Reassembled(Assemble(x.hist.log[..n]), Assemble(x.hist.log[..n + 1]), r)))
  {
    NextAssembled(x.hist.log, n);
    assert LogEntry(x, n);
    ReceiveAssembles(y.engine, Assemble(x.hist.log[..n]), x.hist.log[n], y.config.capacity, env.buffer);
  }

  lemma TakenHolds(y: EndPoint, r: Received, a: Assembly, a': Assembly)
    requires IsConnected(y.life) && y.hist.reassembled == a.done && y.engine.rxState != Complete && HandedUp(y)
    requires Reassembled(a, a', r)
    ensures var y' := After(y, r); y'.hist.reassembled == a'.done && HoldsAssembly(y'.engine, a') && HandedUp(y')
  {
    var y' := After(y, r);
    assert y'.engine == r.engine && y'.life == y.life && y'.hist.delivered == y.hist.delivered;
    if r.engine.rxState == Complete && |a'.done| != |a.done| {
      assert y'.hist.reassembled == y.hist.reassembled + [r.engine.rxBuf];
    } else {
      assert y'.hist.reassembled == y.hist.reassembled;
    }
  }

  lemma TakenFlow(x: EndPoint, y: EndPoint, n: nat, env: Env)
    requires Flow(x, y, n) && n < |x.hist.log| && Ready(y)
    requires HeaderPresent(x.hist.log[n].Wire()) && Reply(y, x.hist.log[n].Wire(), env).err == NoError
    ensures Flow(x, After(y, Reply(y, x.hist.log[n].Wire(), env)), n + 1)
  {
    var r := Reply(y, x.hist.log[n].Wire(), env);
    NextReceived(x, y, n, env);
    ReplyAccepts(y, x.hist.log[n].Wire(), env);
    TakenHolds(y, r, Assemble(x.hist.log[..n]), Assemble(x.hist.log[..n + 1]));
    NextMark(x.hist.log, n);
    TakenCounts(x, y, n, r);
  }

  lemma TakenCounts(x: EndPoint, y: EndPoint, n: nat, r: Received)
    requires Flow(x, y, n) && n < |x.hist.log| && IsConnected(y.life) && Accepts(y, r) && r.ack == x.hist.log[n].ack
    requires Mark(x.hist.log[..n + 1]) ==
             if x.hist.log[n].ack.Some? then AfterAck(Mark(x.hist.log[..n]), x.hist.log[n].ack.value)
               else Mark(x.hist.log[..n])
    ensures var y' := After(y, r);
      && y'.hist.received == n + 1 && y'.hist.txA == Mark(x.hist.log[..n + 1])
      && y'.engine.rxSize == y.engine.rxSize && y'.config == y.config && y'.life == y.life
  {
  }

  lemma TakenBack(x: EndPoint, y: EndPoint, r: Received, m: nat)
    requires Flow(y, x, m) && Accepts(y, r)
    ensures Flow(After(y, r), x, m)
  {
    var y' := After(y, r);
    forall k | 0 <= k < |y'.hist.log|
      ensures LogEntry(y', k)
    {
      assert LogEntry(y, k);
    }
  }

  lemma TakenSide(y: EndPoint, r: Received)
    requires Side(y) && Ready(y) && Accepts(y, r)
    ensures Side(After(y, r))
  {
    AfterKeeps(y, r);
  }

  lemma TakenLinked(x: EndPoint, y: EndPoint, n: nat, m: nat, env: Env)
    requires Linked(x, y, n, m) && n < |x.hist.log| && Ready(y)
    requires HeaderPresent(x.hist.log[n].Wire()) && Reply(y, x.hist.log[n].Wire(), env).err == NoError
    ensures Linked(x, After(y, Reply(y, x.hist.log[n].Wire(), env)), n + 1, m)
  {
    var r := Reply(y, x.hist.log[n].Wire(), env);
    ReplyAccepts(y, x.hist.log[n].Wire(), env);
    TakenFlow(x, y, n, env);
    TakenBack(x, y, r, m);
    TakenSide(y, r);
  }

  lemma TakenWindowed(x: EndPoint, y: EndPoint, n: nat, m: nat, r: Received)
    requires Joint(x, y, n, m) && Ready(y) && Accepts(y, r)
    ensures Windowed(x, After(y, r))
  {
    AfterKeeps(y, r);
    AfterTx(y, r);
  }

  lemma TakenJoint(x: EndPoint, y: EndPoint, n: nat, m: nat, env: Env)
    requires Joint(x, y, n, m) && n < |x.hist.log| && Ready(y)
    requires HeaderPresent(x.hist.log[n].Wire()) && Reply(y, x.hist.log[n].Wire(), env).err == NoError
    ensures Joint(x, After(y, Reply(y, x.hist.log[n].Wire(), env)), n + 1, m)
  {
    ReplyAccepts(y, x.hist.log[n].Wire(), env);
    TakenLinked(x, y, n, m, env);
    TakenWindowed(x, y, n, m, Reply(y, x.hist.log[n].Wire(), env));
  }

  /** Delivering the next fragment keeps the link, whether the fragment is accepted or refused. */
  lemma DeliverLinked(x: EndPoint, y: EndPoint, n: nat, m: nat, env: Env, env': Env)
    requires Linked(x, y, n, m) && n < |x.hist.log| && Ready(y)
    ensures HeaderPresent(x.hist.log[n].Wire())
    ensures Linked(x, ReceivePacket(y, x.hist.log[n].Wire(), env, env'), n + 1, m)
  {
    NextReceived(x, y, n, env);
    var data := x.hist.log[n].Wire();
    if Reply(y, data, env).err == NoError {
      TakenLinked(x, y, n, m, env);
      PacketLinked(x, y, n + 1, m, data, env, env');
    } else {
      RefusedMoves(y, data, env, env');
      RefusedLinked(x, y, ReceivePacket(y, data, env, env'), n, m);
    }
  }

  lemma PacketLinked(x: EndPoint, y: EndPoint, n: nat, m: nat, data: Bytes, env: Env, env': Env)
    requires Sound(y.life) && Ready(y) && HeaderPresent(data) && Reply(y, data, env).err == NoError
    requires Linked(x, After(y, Reply(y, data, env)), n, m)
    ensures Linked(x, ReceivePacket(y, data, env, env'), n, m)
  {
    var mid, y' := After(y, Reply(y, data, env)), ReceivePacket(y, data, env, env');
    LinkedSymmetric(x, mid, n, m);
    var path := PacketMoves(y, data, env, env');
    PathLinked(path, mid, y', x, m, n);
    LinkedSymmetric(y', x, m, n);
  }

  lemma RefusedLinked(x: EndPoint, y: EndPoint, y': EndPoint, n: nat, m: nat)
    requires Linked(x, y, n, m) && n < |x.hist.log| && IsConnected(y.life) && Shuts(y, y')
    ensures Linked(x, y', n + 1, m)
  {
    LinkedSymmetric(x, y, n, m);
    ShutsLinked(y, y', x, m, n);
    LinkedSymmetric(y', x, m, n);
  }

  lemma DeliverJoint(x: EndPoint, y: EndPoint, n: nat, m: nat, env: Env, env': Env)
    requires Joint(x, y, n, m) && n < |x.hist.log| && Ready(y)
    ensures HeaderPresent(x.hist.log[n].Wire())
    ensures Joint(x, ReceivePacket(y, x.hist.log[n].Wire(), env, env'), n + 1, m)
  {
    DeliverLinked(x, y, n, m, env, env');
    var data := x.hist.log[n].Wire();
    var y' := ReceivePacket(y, data, env, env');
    if Reply(y, data, env).err == NoError {
      TakenJoint(x, y, n, m, env);
      PacketWindowed(x, y, n + 1, m, data, env, env');
    } else {
      RefusedMoves(y, data, env, env');
      MoveUnseen(y, y');
      JointSymmetric(x, y, n, m);
      UnseenWindowed(y, y', x);
    }
  }

  lemma PacketWindowed(x: EndPoint, y: EndPoint, n: nat, m: nat, data: Bytes, env: Env, env': Env)
    requires Sound(y.life) && Ready(y) && HeaderPresent(data) && Reply(y, data, env).err == NoError
    requires Joint(x, After(y, Reply(y, data, env)), n, m)
    ensures Windowed(x, ReceivePacket(y, data, env, env'))
  {
    var mid, y' := After(y, Reply(y, data, env)), ReceivePacket(y, data, env, env');
    JointSymmetric(x, mid, n, m);
    var path := PacketMoves(y, data, env, env');
    PathJoint(path, mid, y', x, m, n);
  }

  /**
   Two correct peers never reject each other: as long as the sender has not acknowledged with nothing to
   acknowledge, the next fragment passes the sequence, ack, flag and length checks.
   */
  lemma NextIsAccepted(x: EndPoint, y: EndPoint, n: nat, m: nat, env: Env)
    requires Joint(x, y, n, m) && n < |x.hist.log| && Ready(y) && env.buffer && !x.hist.stale
    ensures HeaderPresent(x.hist.log[n].Wire())
    ensures Reply(y, x.hist.log[n].Wire(), env).err == NoError
  {
    NextReceived(x, y, n, env);
    NextNumber(x, y, n);
    NextAck(x, y, n, m);
  }

  lemma NextNumber(x: EndPoint, y: EndPoint, n: nat)
    requires Flow(x, y, n) && x.life.central != y.life.central && n < |x.hist.log| && Ready(y)
    ensures x.hist.log[n].seqNum == y.engine.rxNext
  {
    var next := TxBase(x.life.central) + n;
    assert x.hist.log[n].seqNum == next % 0x100 by {
      assert LogEntry(x, n);
    }
    assert RxN(y) == next;
  }

  /** An ack on its way names a fragment its receiver has sent and not yet seen acknowledged. */
  lemma NextAck(x: EndPoint, y: EndPoint, n: nat, m: nat)
    requires Joint(x, y, n, m) && n < |x.hist.log| && Ready(y) && !x.hist.stale
    ensures var f := x.hist.log[n];
      f.ack.Some? ==> IsValidAck(y.engine, f.ack.value) && y.hist.txA <= Lift(y.hist.txA, f.ack.value) < RxN(x)
  {
    var f := x.hist.log[n];
    NextMark(x.hist.log, n);
    if f.ack.Some? {
      var acked := Lift(y.hist.txA, f.ack.value);
      assert AfterAck(y.hist.txA, f.ack.value) == acked + 1;
      assert RxN(x) <= TxN(y);
      ValidAckLift(y.engine, y.hist.txA, TxN(y), f.ack.value);
    }
  }
}
