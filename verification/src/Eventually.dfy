/**
 Everything arrives in the end: with exact windows, from every state in normal use, some run of normal use without
 further sends ends with all that either side accepted reassembled by the other.
 */
module Eventually {
  import opened Common
  import opened Fragments
  import opened BtpEngine
  import opened Windows
  import opened Lifecycle
  import opened EndPointModel
  import opened EndPointInvariant
  import opened EndPointEvents
  import opened PairInvariant
  import opened PairRuns
  import opened PairTheorems
  import opened AckDuty
  import opened PairProgress
  import opened NeverIdle
  import opened OrdinaryRuns
  import opened Effects

  // ---------- states in normal use ----------

  /** Both sides in normal use, over exact windows. */
  predicate Going(p: Pair) {
    && PairInv(p) && PromiseInv(p) && BothDriven(p) && p.a.config.offset == EXACT
    && Lively(p.a) && Lively(p.b)
  }

  function Left(p: Pair): nat {
    Remaining(p.a) + Remaining(p.b)
  }

  function Load(p: Pair): int {
    Weight(p.a) + Weight(p.b) - 3 * p.toA - 3 * p.toB
  }

  lemma LoadIsNat(p: Pair)
    requires Going(p)
    ensures Load(p) >= 0
  {
  }

  /** Less data is left, or as much and the load is lighter. */
  predicate Ahead(p: Pair, q: Pair) {
    Left(q) < Left(p) || (Left(q) == Left(p) && Load(q) < Load(p))
  }

  predicate SameAccepted(p: Pair, q: Pair) {
    q.a.hist.accepted == p.a.hist.accepted && q.b.hist.accepted == p.b.hist.accepted
  }

  lemma SwapGoing(p: Pair)
    requires Going(p)
    ensures Going(Swap(p)) && Left(Swap(p)) == Left(p) && Load(Swap(p)) == Load(p)
  {
    SwapInv(p);
  }

  /** What a step leaves of one side. */
  predicate Settles(x: EndPoint, x': EndPoint) {
    x'.life == x.life && Tidy(x') && !x'.hist.lapsed
  }

  lemma StepGoes(p: Pair, s: Step)
    requires Going(p) && CanStep(p, s) && Settles(p.a, Take(p, s).a) && Settles(p.b, Take(p, s).b)
    ensures Going(Take(p, s))
  {
    var q := Take(p, s);
    StepKeeps(p, s);
    StepPromise(p, s);
    StepDriven(p, s);
    StepFresh(p, s);
    StaysLively(p, q);
  }

  lemma StaysLively(p: Pair, q: Pair)
    requires Going(p) && PairInv(q) && FreshInv(q) && Settles(p.a, q.a) && Settles(p.b, q.b)
    requires q.a == p.a || q.b == p.b
    ensures Lively(q.a) && Lively(q.b) && q.a.config.offset == EXACT
  {
    SwapInv(q);
    JointNarrow(q.a, q.b, q.toB, q.toA);
    JointNarrow(q.b, q.a, q.toA, q.toB);
  }

  // ---------- one step at the first side ----------

  lemma ConfirmStep(p: Pair, env: Env) returns (s: Step, q: Pair)
    requires Going(p) && p.a.link.gattInFlight && Cooperates(env)
    ensures CanStep(p, s) && OrdinaryStep(p, s) && q == Take(p, s)
    ensures Going(q) && Ahead(p, q) && SameAccepted(p, q)
    ensures q.a == Apply(p.a, Confirmation(p.a), env) && q.b == p.b && q.toA == p.toA && q.toB == p.toB
  {
    ConfirmEffect(p.a, env);
    s := AtA(Confirmation(p.a), env);
    q := Take(p, s);
    StepGoes(p, s);
  }

  /** The next fragment for a side whose air is free is taken in, and there is room in its window for it. */
  lemma NextTakesIn(p: Pair, env: Env)
    requires Going(p) && !p.a.link.gattInFlight && p.toA < |p.b.hist.log| && Cooperates(env)
    ensures HeaderPresent(p.b.hist.log[p.toA].Wire())
    ensures var r := Reply(p.a, p.b.hist.log[p.toA].Wire(), env); r.err == NoError && TakesIn(p.a, r)
  {
    SwapInv(p);
    NextReceived(p.b, p.a, p.toA, env);
    NextIsTaken(p.b, p.a, p.toA, p.toB, env);
    TakenJoint(p.b, p.a, p.toA, p.toB, env);
    var r := Reply(p.a, p.b.hist.log[p.toA].Wire(), env);
    AfterFresh(p.a, r);
    RoomFor(p.b, After(p.a, r), p.toA + 1, p.toB);
    assert Unacked(After(p.a, r)) == Unacked(p.a) + 1;
  }

  lemma RoomFor(x: EndPoint, y: EndPoint, n: nat, m: nat)
    requires Joint(x, y, n, m) && IsConnected(y.life) && !y.hist.stale && x.config.offset == EXACT
    ensures Unacked(y) <= y.link.max
  {
    JointSymmetric(x, y, n, m);
    UnackedBound(y, x, m, n);
  }

  lemma AckHandledNarrow(p: Pair, env: Env)
    requires Going(p) && !p.a.link.gattInFlight && p.toA < |p.b.hist.log| && Cooperates(env)
    requires HeaderPresent(p.b.hist.log[p.toA].Wire())
    requires var r := Reply(p.a, p.b.hist.log[p.toA].Wire(), env); r.err == NoError && TakesIn(p.a, r)
    ensures Narrow(AckHandled(p.a, Reply(p.a, p.b.hist.log[p.toA].Wire(), env), env).ep)
  {
    var r := Reply(p.a, p.b.hist.log[p.toA].Wire(), env);
    AckEffect(p.a, r, env);
    AckHandledDuty(p.a, r, env);
    SwapInv(p);
    AckHandledJoint(p.b, p.a, p.toA, p.toB, env);
    JointNarrow(AckHandled(p.a, r, env).ep, p.b, p.toB, p.toA + 1);
  }

  lemma DeliverStep(p: Pair, env: Env) returns (s: Step, q: Pair)
    requires Going(p) && !p.a.link.gattInFlight && p.toA < |p.b.hist.log| && Cooperates(env)
    ensures CanStep(p, s) && OrdinaryStep(p, s) && q == Take(p, s) && s == ToA(env, env)
    ensures Going(q) && Ahead(p, q) && SameAccepted(p, q)
  {
    NextTakesIn(p, env);
    AckHandledNarrow(p, env);
    DeliverEffect(p.a, p.b.hist.log[p.toA].Wire(), env);
    s := ToA(env, env);
    q := Take(p, s);
    StepGoes(p, s);
  }

  // ---------- the mirror image ----------

  function Mirror(s: Step): Step {
    match s
    case AtA(event, env) => AtB(event, env)
    case AtB(event, env) => AtA(event, env)
    case ToA(env, env') => ToB(env, env')
    case ToB(env, env') => ToA(env, env')
  }

  lemma StepMirrors(p: Pair, s: Step)
    requires CanStep(p, s)
    ensures CanStep(Swap(p), Mirror(s)) && Take(Swap(p), Mirror(s)) == Swap(Take(p, s))
    ensures OrdinaryStep(p, s) ==> OrdinaryStep(Swap(p), Mirror(s))
  {
  }

  lemma {:induction false} RunMirrors(p: Pair, steps: seq<Step>, q: Pair) returns (mirrored: seq<Step>)
    requires Runs(p, steps, q) && OrdinaryRun(p, steps)
    ensures Runs(Swap(p), mirrored, Swap(q)) && OrdinaryRun(Swap(p), mirrored)
    decreases |steps|
  {
    if |steps| == 0 {
      mirrored := [];
    } else {
      mirrored := RunMirrors(Take(p, steps[0]), steps[1..], q);
      StepMirrors(p, steps[0]);
      mirrored := Before(Swap(p), Mirror(steps[0]), mirrored, Swap(q));
    }
  }

  // ---------- acknowledging by timeout ----------

  /** All that has been received is acknowledged by a fragment that goes out alone. */
  predicate AcksUp(z: EndPoint, z': EndPoint) {
    && Settles(z, z') && Unacked(z') == 0 && z'.hist.accepted == z.hist.accepted && Remaining(z') == Remaining(z)
    && |z'.hist.log| == |z.hist.log| + 1 && z'.hist.log[..|z.hist.log|] == z.hist.log
    && z'.hist.log[|z.hist.log|].ack.Some?
    && z'.link == z.link.(local := z.link.max, remote := Dec8(z.link.remote), gattInFlight := true, ackPending := true,
                          ackInFlight := true, sendAckTimer := false, ackReceivedTimer := true)
    && z'.queue == z.queue && z'.engine.txState == z.engine.txState && z'.capsConfirmed == z.capsConfirmed
  }

  lemma TimeoutSends(z: EndPoint, env: Env)
    requires Lively(z) && Promised(z) && Unacked(z) > 0 && z.link.remote > 0 && !z.link.gattInFlight && Cooperates(env)
    ensures SendAckTimeout(z, env) == DoSendStandAloneAck(Wanted(z), env).ep
    ensures z.link.sendAckTimer && DoSendStandAloneAck(Wanted(z), env).err == NoError && z.life.frees == 0
  {
    assert z.link.sendAckTimer && !z.link.ackPending;
    assert !Blocked(Wanted(z));
  }

  lemma TimeoutEffect(z: EndPoint, env: Env)
    requires Lively(z) && Promised(z) && Unacked(z) > 0 && z.link.remote > 0 && !z.link.gattInFlight && Cooperates(env)
    ensures AcksUp(z, SendAckTimeout(z, env)) && z.life.frees == 0
  {
    var z1 := Wanted(z);
    TimeoutSends(z, env);
    StandAloneAckSends(z1, env);
    WantedKeeps(z);
    assert Waiting(z1) == Waiting(z);
    SendsRemaining(z1, SendAckTimeout(z, env), StandAloneAck(z1.engine.rxNewest, z1.engine.txNext));
  }

  lemma TimeoutStep(p: Pair, env: Env) returns (s: Step, q: Pair)
    requires Going(p) && Unacked(p.a) > 0 && p.a.link.remote > 0 && !p.a.link.gattInFlight && Cooperates(env)
    ensures CanStep(p, s) && OrdinaryStep(p, s) && q == Take(p, s)
    ensures Going(q) && AcksUp(p.a, q.a) && q.b == p.b && q.toA == p.toA && q.toB == p.toB
  {
    TimeoutEffect(p.a, env);
    s := AtA(SendAckExpired, env);
    q := Take(p, s);
    StepGoes(p, s);
  }

  // ---------- a blocked side gets an ack for all it sent ----------

  /**
   The first side has data to send and a free air, the last fragment on its way to it is an ack for everything it has
   sent, and nothing else is on its way.
   */
  predicate Relieved(p: Pair) {
    && Going(p) && HasWork(p.a) && !p.a.link.gattInFlight
    && p.toB == |p.a.hist.log| && p.toA + 1 == |p.b.hist.log| && p.b.hist.log[p.toA].ack.Some? && Unacked(p.b) == 0
  }

  /** When that ack has been taken in, nothing is outstanding and the window is open. */
  lemma ReliefOpens(p: Pair, env: Env)
    requires Relieved(p) && Cooperates(env)
    ensures HeaderPresent(p.b.hist.log[p.toA].Wire())
    ensures var r := Reply(p.a, p.b.hist.log[p.toA].Wire(), env);
      && r.err == NoError && TakesIn(p.a, r) && r.ack.Some?
      && After(p.a, r).link.remote == p.a.link.max
  {
    OpensFor(p, env);
  }

  lemma OpensFor(p: Pair, env: Env)
    requires Going(p) && !p.a.link.gattInFlight && Cooperates(env)
    requires p.toB == |p.a.hist.log| && p.toA + 1 == |p.b.hist.log| && p.b.hist.log[p.toA].ack.Some?
    requires Unacked(p.b) == 0
    ensures HeaderPresent(p.b.hist.log[p.toA].Wire())
    ensures var r := Reply(p.a, p.b.hist.log[p.toA].Wire(), env);
      && r.err == NoError && TakesIn(p.a, r) && r.ack.Some?
      && After(p.a, r).link.remote == p.a.link.max
  {
    NextTakesIn(p, env);
    SwapInv(p);
    NextReceived(p.b, p.a, p.toA, env);
    TakenJoint(p.b, p.a, p.toA, p.toB, env);
    var mid := After(p.a, Reply(p.a, p.b.hist.log[p.toA].Wire(), env));
    AllIsOpen(p.b, mid, p.toA + 1, p.toB);
  }

  lemma AllIsOpen(x: EndPoint, y: EndPoint, n: nat, m: nat)
    requires Joint(x, y, n, m) && IsConnected(x.life) && IsConnected(y.life) && !x.hist.stale && Unacked(x) == 0
    requires n == |x.hist.log| && m == |y.hist.log| && x.config.offset == EXACT
    ensures y.link.remote == y.link.max
  {
    assert x.hist.log[..n] == x.hist.log;
  }

  /** Relief gets data out: at once, or when the ack that had to go first is confirmed. */
  lemma Relieve(p: Pair, env: Env) returns (steps: seq<Step>, q: Pair)
    requires Relieved(p) && Cooperates(env)
    ensures Runs(p, steps, q) && OrdinaryRun(p, steps)
    ensures Going(q) && Left(q) < Left(p) && SameAccepted(p, q)
  {
    ReliefOpens(p, env);
    AckHandledNarrow(p, env);
    ReliefSends(p.a, p.b.hist.log[p.toA].Wire(), env);
    var s, q1 := DeliverStep(p, env);
    if Left(q1) < Left(p) {
      q := q1;
      steps := Before(p, s, [], q);
    } else {
      ConfirmSends(q1.a, env);
      var s', q2 := ConfirmStep(q1, env);
      q := q2;
      steps := Before(q1, s', [], q);
      steps := Before(p, s, steps, q);
    }
  }

  // ---------- when everything has come to rest ----------

  predicate Quiet(p: Pair) {
    && Going(p) && !p.a.link.gattInFlight && !p.b.link.gattInFlight
    && p.toB == |p.a.hist.log| && p.toA == |p.b.hist.log|
  }

  /** A side with work is short of window, and what it has sent is for the other side to acknowledge. */
  lemma QuietCounts(p: Pair)
    requires Quiet(p) && HasWork(p.a)
    ensures p.a.link.remote <= 1 && Unacked(p.b) >= 2 && !(p.a.link.remote == 0 && p.b.link.remote == 0)
    ensures p.b.link.remote == 0 ==> Unacked(p.a) > 0
  {
    QuiescentCounts(p.a, p.b);
  }

  /** The other side has a window: its timer acknowledges what holds the first side up. */
  lemma AckedByTimeout(p: Pair, env: Env) returns (steps: seq<Step>, q: Pair)
    requires Quiet(p) && HasWork(p.a) && p.b.link.remote > 0 && Cooperates(env)
    ensures Runs(p, steps, q) && OrdinaryRun(p, steps)
    ensures Going(q) && Left(q) < Left(p) && SameAccepted(p, q)
  {
    QuietCounts(p);
    SwapGoing(p);
    var s, q1 := TimeoutStep(Swap(p), env);
    StepMirrors(Swap(p), s);
    SwapGoing(q1);
    var p1 := Swap(q1);
    steps, q := Relieve(p1, env);
    steps := Before(p, Mirror(s), steps, q);
  }

  /** The first side's own ack is confirmed, and the other side's ack for everything arrives. */
  lemma ConfirmThenRelieve(p: Pair, env: Env) returns (steps: seq<Step>, q: Pair)
    requires Going(p) && Cooperates(env)
    requires HasWork(p.a) && p.a.link.ackInFlight && p.a.link.remote == 0 && p.toB == |p.a.hist.log|
    requires p.toA + 1 == |p.b.hist.log| && p.b.hist.log[p.toA].ack.Some? && Unacked(p.b) == 0
    ensures Runs(p, steps, q) && OrdinaryRun(p, steps)
    ensures Going(q) && Left(q) < Left(p) && SameAccepted(p, q)
  {
    ConfirmRests(p.a, env);
    var s, p1 := ConfirmStep(p, env);
    if Left(p1) < Left(p) {
      q := p1;
      steps := Before(p, s, [], q);
    } else {
      steps, q := Relieve(p1, env);
      steps := Before(p, s, steps, q);
    }
  }

  /** The ack for everything that the second side has sent reaches it, and opens its window. */
  lemma OpeningStep(p: Pair, env: Env) returns (s: Step, q: Pair)
    requires Going(p) && !p.b.link.gattInFlight && Cooperates(env)
    requires p.toA == |p.b.hist.log| && p.toB + 1 == |p.a.hist.log| && p.a.hist.log[p.toB].ack.Some?
    requires Unacked(p.a) == 0
    ensures CanStep(p, s) && OrdinaryStep(p, s) && q == Take(p, s)
    ensures Going(q) && Ahead(p, q) && SameAccepted(p, q) && q.a == p.a && q.toA == p.toA && q.toB == |q.a.hist.log|
    ensures Remaining(q.b) < Remaining(p.b) || AckedAll(p.b, q.b) || StillOwing(p.b, q.b)
  {
    var p' := Swap(p);
    SwapGoing(p);
    var s', q' := DeliverStep(p', env);
    StepMirrors(p', s');
    SwapGoing(q');
    s, q := Mirror(s'), Swap(q');
    OpeningDelivery(p', env);
  }

  lemma OpeningDelivery(p: Pair, env: Env)
    requires Going(p) && !p.a.link.gattInFlight && Cooperates(env)
    requires p.toB == |p.a.hist.log| && p.toA + 1 == |p.b.hist.log| && p.b.hist.log[p.toA].ack.Some?
    requires Unacked(p.b) == 0
    ensures HeaderPresent(p.b.hist.log[p.toA].Wire())
    ensures var a' := ReceivePacket(p.a, p.b.hist.log[p.toA].Wire(), env, env);
      Remaining(a') < Remaining(p.a) || AckedAll(p.a, a') || StillOwing(p.a, a')
  {
    OpensFor(p, env);
    AckHandledNarrow(p, env);
    OpeningEffect(p.a, p.b.hist.log[p.toA].Wire(), env);
  }

  /** Both windows were used up, but for one slot of the first side's: it acknowledges first. */
  lemma AckedInTurn(p: Pair, env: Env) returns (steps: seq<Step>, q: Pair)
    requires Quiet(p) && HasWork(p.a) && p.b.link.remote == 0 && Cooperates(env)
    ensures Runs(p, steps, q) && OrdinaryRun(p, steps)
    ensures Going(q) && Left(q) < Left(p) && SameAccepted(p, q)
  {
    QuietCounts(p);
    var s, p1 := TimeoutStep(p, env);
    TimeoutShuts(p.a, p1.a);
    steps, q := AckedBack(p1, env);
    steps := Before(p, s, steps, q);
  }

  lemma TimeoutShuts(z: EndPoint, z': EndPoint)
    requires AcksUp(z, z') && HasWork(z) && z.link.remote == 1
    ensures HasWork(z') && z'.link.ackInFlight && z'.link.remote == 0
  {
  }

  lemma AckedBack(p: Pair, env: Env) returns (steps: seq<Step>, q: Pair)
    requires Going(p) && Cooperates(env) && HasWork(p.a) && p.a.link.ackInFlight && p.a.link.remote == 0
    requires !p.b.link.gattInFlight && p.toA == |p.b.hist.log|
    requires p.toB + 1 == |p.a.hist.log| && p.a.hist.log[p.toB].ack.Some? && Unacked(p.a) == 0
    ensures Runs(p, steps, q) && OrdinaryRun(p, steps)
    ensures Going(q) && Left(q) < Left(p) && SameAccepted(p, q)
  {
    var s, p1 := OpeningStep(p, env);
    if Left(p1) < Left(p) {
      q := p1;
      steps := [];
    } else if AckedAll(p.b, p1.b) {
      steps, q := ConfirmThenRelieve(p1, env);
    } else {
      steps, q := OwedByTimeout(p1, env);
    }
    steps := Before(p, s, steps, q);
  }

  lemma OwedByTimeout(p: Pair, env: Env) returns (steps: seq<Step>, q: Pair)
    requires Going(p) && Cooperates(env) && HasWork(p.a) && p.a.link.ackInFlight && p.a.link.remote == 0
    requires !p.b.link.gattInFlight && p.b.link.remote > 0 && Unacked(p.b) > 0
    requires p.toA == |p.b.hist.log| && p.toB == |p.a.hist.log|
    ensures Runs(p, steps, q) && OrdinaryRun(p, steps)
    ensures Going(q) && Left(q) < Left(p) && SameAccepted(p, q)
  {
    SwapGoing(p);
    var s, q1 := TimeoutStep(Swap(p), env);
    StepMirrors(Swap(p), s);
    SwapGoing(q1);
    steps, q := ConfirmThenRelieve(Swap(q1), env);
    steps := Before(p, Mirror(s), steps, q);
  }

  /** From rest with data left, some run gets data out. */
  lemma Resumes(p: Pair, env: Env) returns (steps: seq<Step>, q: Pair)
    requires Quiet(p) && HasWork(p.a) && Cooperates(env)
    ensures Runs(p, steps, q) && OrdinaryRun(p, steps)
    ensures Going(q) && Left(q) < Left(p) && SameAccepted(p, q)
  {
    if p.b.link.remote > 0 {
      steps, q := AckedByTimeout(p, env);
    } else {
      steps, q := AckedInTurn(p, env);
    }
  }

  lemma ResumesMirrored(p: Pair, env: Env) returns (steps: seq<Step>, q: Pair)
    requires Quiet(p) && HasWork(p.b) && Cooperates(env)
    ensures Runs(p, steps, q) && OrdinaryRun(p, steps)
    ensures Going(q) && Left(q) < Left(p) && SameAccepted(p, q)
  {
    SwapGoing(p);
    var mirrored, q' := Resumes(Swap(p), env);
    steps := RunMirrors(Swap(p), mirrored, q');
    SwapGoing(q');
    q := Swap(q');
  }

  // ---------- to the end ----------

  /** A step on from a state that has not come to rest. */
  lemma StepsOn(p: Pair, env: Env) returns (s: Step, q: Pair)
    requires Going(p) && !Quiet(p) && Cooperates(env)
    ensures CanStep(p, s) && OrdinaryStep(p, s) && q == Take(p, s)
    ensures Going(q) && Ahead(p, q) && SameAccepted(p, q)
  {
    if p.a.link.gattInFlight {
      s, q := ConfirmStep(p, env);
    } else if p.toA < |p.b.hist.log| {
      s, q := DeliverStep(p, env);
    } else {
      SwapGoing(p);
      var s', q';
      if p.b.link.gattInFlight {
        s', q' := ConfirmStep(Swap(p), env);
      } else {
        s', q' := DeliverStep(Swap(p), env);
      }
      StepMirrors(Swap(p), s');
      SwapGoing(q');
      s, q := Mirror(s'), Swap(q');
    }
  }

  lemma WorkLeft(ep: EndPoint)
    requires OpenAndGood(ep) && !ep.link.gattInFlight && Remaining(ep) > 0
    ensures HasWork(ep)
  {
    assert ep.capsConfirmed;
  }

  lemma {:induction false} ComesToRest(p: Pair, env: Env) returns (steps: seq<Step>, q: Pair)
    requires Going(p) && Cooperates(env)
    ensures Runs(p, steps, q) && OrdinaryRun(p, steps) && Quiet(q) && Left(q) == 0 && SameAccepted(p, q)
    decreases Left(p), Load(p)
  {
    LoadIsNat(p);
    if !Quiet(p) {
      var s, p1 := StepsOn(p, env);
      LoadIsNat(p1);
      steps, q := ComesToRest(p1, env);
      steps := Before(p, s, steps, q);
    } else if Left(p) == 0 {
      steps, q := [], p;
    } else {
      var first, p1 := ResumesEither(p, env);
      LoadIsNat(p1);
      steps, q := ComesToRest(p1, env);
      steps := Append(p, first, p1, steps, q);
    }
  }

  lemma ResumesEither(p: Pair, env: Env) returns (steps: seq<Step>, q: Pair)
    requires Quiet(p) && Left(p) > 0 && Cooperates(env)
    ensures Runs(p, steps, q) && OrdinaryRun(p, steps)
    ensures Going(q) && Left(q) < Left(p) && SameAccepted(p, q)
  {
    if Remaining(p.a) > 0 {
      WorkLeft(p.a);
      steps, q := Resumes(p, env);
    } else {
      WorkLeft(p.b);
      steps, q := ResumesMirrored(p, env);
    }
  }

  /** With nothing left to send and nothing on its way, all that was accepted has been reassembled. */
  lemma RestIsDelivery(x: EndPoint, y: EndPoint, m: nat)
    requires Joint(x, y, |x.hist.log|, m) && Core(x) && IsConnected(y.life) && !x.link.gattInFlight && Remaining(x) == 0
    ensures y.hist.reassembled == x.hist.accepted
  {
    var a := Assemble(x.hist.log);
    assert Waiting(x) == [] && Current(x, a) == [];
    assert x.hist.log[..|x.hist.log|] == x.hist.log;
    assert x.hist.accepted == a.done;
  }

  /**
   Everything arrives: from every reachable state in which both sides are connected and in normal use - honest, fresh,
   nothing forgotten, and no stand-alone ack left waiting by a timeout - some run of normal use, without any failure and
   without further sends, ends with all that either side ever accepted reassembled by the other.
   */
  lemma EverythingArrives(p: Pair, env: Env) returns (steps: seq<Step>, q: Pair)
    requires Reachable(p) && p.a.config.offset == EXACT && Cooperates(env)
    requires p.a.life.state == Connected && p.b.life.state == Connected
    requires Fresh(p.a) && Fresh(p.b) && Tidy(p.a) && Tidy(p.b)
    requires !p.a.hist.stale && !p.b.hist.stale && !p.a.hist.lapsed && !p.b.hist.lapsed
    ensures Runs(p, steps, q) && OrdinaryRun(p, steps)
    ensures q.b.hist.reassembled == p.a.hist.accepted && q.a.hist.reassembled == p.b.hist.accepted
  {
    StartsGoing(p);
    steps, q := ComesToRest(p, env);
    RestIsDelivery(q.a, q.b, q.toA);
    SwapInv(q);
    RestIsDelivery(q.b, q.a, q.toB);
  }

  lemma StartsGoing(p: Pair)
    requires Reachable(p) && p.a.config.offset == EXACT
    requires p.a.life.state == Connected && p.b.life.state == Connected
    requires Fresh(p.a) && Fresh(p.b) && Tidy(p.a) && Tidy(p.b)
    requires !p.a.hist.stale && !p.b.hist.stale && !p.a.hist.lapsed && !p.b.hist.lapsed
    ensures Going(p)
  {
    ReachableInv(p);
    ReachablePromise(p);
    ReachableIsReached(p);
    SendingNeverIdles(p);
    SwapInv(p);
    JointNarrow(p.a, p.b, p.toB, p.toA);
    JointNarrow(p.b, p.a, p.toA, p.toB);
  }

  lemma ReachableIsReached(p: Pair)
    requires Reachable(p)
    ensures Reached(p)
  {
    var p0, steps :| Starts(p0) && Runs(p0, steps, p);
    assert Opening(p0) && Runs(p0, steps, p);
  }
}
