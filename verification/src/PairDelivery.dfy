/** Delivery between two connected end points, in terms of what their applications sent. */
module PairDelivery {
  import opened Fragments
  import opened Lifecycle
  import opened EndPointModel
  import opened PairRuns
  import opened PairTheorems
  import Acceptance

  /** The message that a step brings one side's application to send: the first side's, or the second's. */
  function Offer(p: Pair, s: Step, second: bool): seq<Message> {
    match s
    case AtA(event, _) => if second then [] else Acceptance.Offered(p.a, event)
    case AtB(event, _) => if second then Acceptance.Offered(p.b, event) else []
    case ToA(_, _) => []
    case ToB(_, _) => []
  }

  /** The messages that one side's application sent in a run, in order. */
  ghost function SentIn(p: Pair, steps: seq<Step>, second: bool): seq<Message>
    decreases |steps|
  {
    if |steps| == 0 || !CanStep(p, steps[0]) then []
    else Offer(p, steps[0], second) + SentIn(Take(p, steps[0]), steps[1..], second)
  }

  function Accepted(p: Pair, second: bool): seq<Message> {
    if second then p.b.hist.accepted else p.a.hist.accepted
  }

  lemma StepAccepts(p: Pair, s: Step, second: bool)
    requires CanStep(p, s)
    ensures Accepted(Take(p, s), second) == Accepted(p, second) + Offer(p, s, second)
  {
    assert Accepted(p, second) + [] == Accepted(p, second);
    match s
    case AtA(event, env) => Acceptance.EventAccepts(p.a, event, env);
    case AtB(event, env) => Acceptance.EventAccepts(p.b, event, env);
    case ToA(env, env') => Acceptance.PacketAccepts(p.a, p.b.hist.log[p.toA].Wire(), env, env');
    case ToB(env, env') => Acceptance.PacketAccepts(p.b, p.a.hist.log[p.toB].Wire(), env, env');
  }

  lemma {:induction false} RunAccepts(p: Pair, steps: seq<Step>, q: Pair, second: bool)
    requires Runs(p, steps, q)
    ensures Accepted(q, second) == Accepted(p, second) + SentIn(p, steps, second)
    decreases |steps|
  {
    if |steps| > 0 {
      StepAccepts(p, steps[0], second);
      RunAccepts(Take(p, steps[0]), steps[1..], q, second);
    }
  }

  /**
   From the end of any handshake, over every run: what either side has reassembled, and what it has handed to its
   application, is a prefix of the messages the other side's application has sent in that run.
   */
  lemma SentIsDelivered(p: Pair, steps: seq<Step>, q: Pair)
    requires Opening(p) && Runs(p, steps, q)
    ensures q.b.hist.reassembled <= SentIn(p, steps, false) && q.b.hist.delivered <= SentIn(p, steps, false)
    ensures q.a.hist.reassembled <= SentIn(p, steps, true) && q.a.hist.delivered <= SentIn(p, steps, true)
  {
    assert Reached(q);
    RunAccepts(p, steps, q, false);
    RunAccepts(p, steps, q, true);
    Delivery(q);
    assert Accepted(p, false) == [] && Accepted(p, true) == [];
  }
}
