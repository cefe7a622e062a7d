/** Runs of normal use on a platform that does what it is asked. */
module OrdinaryRuns {
  import opened PairRuns
  import opened PairProgress

  /** Every step of the run is one of normal use, on a platform that does what it is asked. */
  ghost predicate OrdinaryRun(p: Pair, steps: seq<Step>)
    decreases |steps|
  {
    |steps| == 0 ||
    (CanStep(p, steps[0]) && OrdinaryStep(p, steps[0]) && OrdinaryRun(Take(p, steps[0]), steps[1..]))
  }

  lemma Before(p: Pair, s: Step, steps: seq<Step>, q: Pair) returns (all: seq<Step>)
    requires CanStep(p, s) && OrdinaryStep(p, s) && Runs(Take(p, s), steps, q) && OrdinaryRun(Take(p, s), steps)
    ensures Runs(p, all, q) && OrdinaryRun(p, all)
  {
    all := [s] + steps;
    assert all[1..] == steps;
  }

  /** One run after another. */
  lemma {:induction false} Append(p: Pair, first: seq<Step>, mid: Pair, second: seq<Step>, q: Pair)
    returns (all: seq<Step>)
    requires Runs(p, first, mid) && OrdinaryRun(p, first) && Runs(mid, second, q) && OrdinaryRun(mid, second)
    ensures Runs(p, all, q) && OrdinaryRun(p, all)
    decreases |first|
  {
    if |first| == 0 {
      all := second;
    } else {
      all := Append(Take(p, first[0]), first[1..], mid, second, q);
      all := Before(p, first[0], all, q);
    }
  }
}
