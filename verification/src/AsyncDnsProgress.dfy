/** Name resolution comes to an end: as long as the workers run, every request is looked up and answered. */
module AsyncDnsProgress {
  import opened Common
  import opened DnsQueue
  import opened AsyncDns

  /** How many steps a worker's request still takes, at most. */
  function Weight(p: Phase): nat {
    match p
    case Waiting => 0
    case Taken(_) => 5
    case LookingUp(_) => 4
    case Answered(_, _) => 3
    case Posting(_) => 2
    case Exited => 0
  }

  function Load(workers: seq<Phase>): nat {
    if |workers| == 0 then 0 else Load(workers[..|workers| - 1]) + Weight(workers[|workers| - 1])
  }

  lemma {:induction false} LoadUpdate(workers: seq<Phase>, w: nat, p: Phase)
    requires w < |workers|
    ensures Load(workers[w := p]) + Weight(workers[w]) == Load(workers) + Weight(p)
    decreases |workers|
  {
    var n := |workers| - 1;
    var ws := workers[w := p];
    if w < n {
      LoadUpdate(workers[..n], w, p);
      assert ws[..n] == workers[..n][w := p];
    } else {
      assert ws[..n] == workers[..n];
    }
  }

  lemma {:induction false} LoadedWorker(workers: seq<Phase>) returns (w: nat)
    requires Load(workers) > 0
    ensures w < |workers| && Weight(workers[w]) > 0
    decreases |workers|
  {
    w := |workers| - 1;
    if Weight(workers[w]) == 0 {
      w := LoadedWorker(workers[..w]);
    }
  }

  lemma {:induction false} NoLoad(workers: seq<Phase>, s: nat)
    requires Load(workers) == 0
    ensures Held(workers, s) == 0
    decreases |workers|
  {
    if |workers| > 0 { NoLoad(workers[..|workers| - 1], s); }
  }

  /** What is left to do for all requests. */
  function Left(d: Dns): nat {
    6 * |d.queue| + Load(d.workers) + |d.posted|
  }

  /** The threads go on by themselves, and what is posted to the application's thread arrives. */
  predicate Ordinary(step: Step) {
    match step
    case Dequeue(_) => true
    case CheckState(_) => true
    case LookUp(_, _) => true
    case Publish(_) => true
    case Notify(_, scheduled) => scheduled
    case Complete(_) => true
    case _ => false
  }

  ghost predicate OrdinarySteps(steps: seq<Step>) {
    forall i :: 0 <= i < |steps| ==> Ordinary(steps[i])
  }

  /** The workers run, and one has not exited. */
  predicate Working(d: Dns) {
    d.running && exists w :: 0 <= w < |d.workers| && !d.workers[w].Exited?
  }

  /** The next step of a busy worker. */
  function NextStep(d: Dns, w: nat, lookup: Lookup): Step
    requires w < |d.workers|
  {
    match d.workers[w]
    case Waiting => Dequeue(w)
    case Taken(_) => CheckState(w)
    case LookingUp(_) => LookUp(w, lookup)
    case Answered(_, _) => Publish(w)
    case Posting(_) => Notify(w, true)
    case Exited => Exit(w)
  }

  lemma WorkerSteps(d: Dns, w: nat, lookup: Lookup)
    requires WorkersHold(d) && w < |d.workers| && Weight(d.workers[w]) > 0
    ensures var step := NextStep(d, w, lookup);
      CanStep(d, step) && Ordinary(step) && Left(Take(d, step)) < Left(d)
  {
    var step := NextStep(d, w, lookup);
    LoadUpdate(d.workers, w, Take(d, step).workers[w]);
  }

  lemma WorkerTakes(d: Dns, w: nat)
    requires d.running && w < |d.workers| && d.workers[w].Waiting? && |d.queue| > 0
    ensures CanStep(d, Dequeue(w)) && Left(Take(d, Dequeue(w))) < Left(d)
  {
    LoadUpdate(d.workers, w, Taken(d.queue[0]));
  }

  lemma StaysWorking(d: Dns, step: Step)
    requires Working(d) && CanStep(d, step) && Ordinary(step)
    ensures Working(Take(d, step)) && Take(d, step).lost == d.lost
  {
    var w :| 0 <= w < |d.workers| && !d.workers[w].Exited?;
    assert !Take(d, step).workers[w].Exited?;
  }

  /** As long as something is left to do, some thread can do it. */
  lemma StepsOn(d: Dns, lookup: Lookup) returns (step: Step)
    requires Inv(d) && Working(d) && Left(d) > 0
    ensures CanStep(d, step) && Ordinary(step) && Left(Take(d, step)) < Left(d)
  {
    if |d.posted| > 0 {
      step := Step.Complete(0);
      assert d.posted[0] < |d.slots|;
    } else if Load(d.workers) > 0 {
      var w := LoadedWorker(d.workers);
      step := NextStep(d, w, lookup);
      WorkerSteps(d, w, lookup);
    } else {
      var w :| 0 <= w < |d.workers| && !d.workers[w].Exited?;
      Idle(d.workers, w);
      step := Dequeue(w);
      WorkerTakes(d, w);
    }
  }

  lemma Idle(workers: seq<Phase>, w: nat)
    requires Load(workers) == 0 && w < |workers| && !workers[w].Exited?
    ensures workers[w].Waiting?
  {
    LoadUpdate(workers, w, Waiting);
  }

  lemma {:induction false} ComesToRest(d: Dns, lookup: Lookup) returns (steps: seq<Step>, d': Dns)
    requires Inv(d) && Working(d)
    ensures Runs(d, steps, d') && OrdinarySteps(steps) && Left(d') == 0 && d'.lost == d.lost
    decreases Left(d)
  {
    if Left(d) == 0 {
      steps, d' := [], d;
    } else {
      var step := StepsOn(d, lookup);
      StepKeeps(d, step);
      StaysWorking(d, step);
      var rest;
      rest, d' := ComesToRest(Take(d, step), lookup);
      steps := [step] + rest;
      assert steps[1..] == rest;
    }
  }

  /**
   Every request ends: from every reachable state in which the workers run, whatever the lookups find, the threads can
   go on by themselves until no request is left in use but those whose posting had failed; and by then each of the
   others has been answered, if its application wanted that.
   */
  lemma EveryRequestEnds(d: Dns, lookup: Lookup) returns (steps: seq<Step>, d': Dns)
    requires Reachable(d) && Working(d)
    ensures Runs(d, steps, d') && OrdinarySteps(steps)
    ensures forall s :: 0 <= s < |d'.slots| && d'.slots[s].inUse ==> s in d.lost
    ensures forall s, u :: 0 <= s < |d'.slots| && 1 <= u <= d'.slots[s].released && Wanted(d'.slots[s], u) ==>
      CalledIn(d'.slots[s], u)
  {
    ReachableInv(d);
    steps, d' := ComesToRest(d, lookup);
    RunKeeps(d, steps, d');
    forall s | 0 <= s < |d'.slots| && d'.slots[s].inUse
      ensures s in d.lost
    {
      NoLoad(d'.workers, s);
      assert Places(d', s) == if InUse(d', s) then 1 else 0;
    }
    forall s | 0 <= s < |d'.slots|
      ensures SlotSound(d'.slots[s])
    {
    }
  }
}
