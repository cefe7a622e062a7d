/**
 Asynchronous name resolution: the application's thread submits and cancels requests and runs their callbacks, and
 any number of workers take requests from a shared queue. Each step is what one thread does between two points at
 which another may intervene; what happens under the mutex is one step. Resolver objects come from a pool of slots
 and are used again after they are released.
 */
module AsyncDns {
  import opened Common
  import opened DnsQueue

  /** What a lookup may come back with. */
  datatype Lookup = Found(addrs: seq<Address>) | NoData | Failed(code: nat)

  /** The result code reported for a lookup; zero is success. */
  function CodeOf(l: Lookup): nat {
    if l.Failed? then l.code else 0
  }

  /** The addresses reported for a lookup by a caller with room for `max`. */
  function AddrsOf(l: Lookup, max: nat): seq<Address> {
    if l.Found? then l.addrs[..Min(|l.addrs|, max)] else []
  }

  /** A callback that ran: for which use of the slot, and what it was told. */
  datatype Call = Call(use: nat, code: nat, addrs: seq<Address>, max: nat, lookup: Lookup)

  /** What the application asked for in one use: room for `max` addresses, and whether it is to be called back. */
  datatype Request = Request(max: nat, onComplete: bool)

  /**
   A resolver object. `uses` counts its submissions, `released` its releases, and `asked` lists what each use asked
   for; `canceled` holds the uses that were canceled, and `found` what the lookups found. `writes` lists the use in
   which each write to an application's address array was made, and `calls` the callbacks that ran.
   */
  datatype Slot = Slot(
    inUse: bool, state: ResolverState, onComplete: bool, max: nat, addrs: seq<Address>, code: nat,
    lookup: Option<Lookup>, uses: nat, released: nat, asked: seq<Request>, canceled: set<nat>,
    found: map<nat, Lookup>, writes: seq<nat>, calls: seq<Call>)

  /** What a worker is doing: it took a request, looks it up, has the answer, or is about to post it. */
  datatype Phase = Waiting | Taken(s: nat) | LookingUp(s: nat) | Answered(s: nat, lookup: Lookup) | Posting(s: nat)
    | Exited

  datatype Dns = Dns(
    slots: seq<Slot>, queue: seq<nat>, workers: seq<Phase>, posted: seq<nat>, lost: seq<nat>, running: bool,
    submitted: seq<nat>, dequeued: seq<nat>)

  datatype Step =
    | Submit(s: nat, max: nat, onComplete: bool)
    | Cancel(s: nat)
    | Shutdown
    | Dequeue(w: nat)
    | Exit(w: nat)
    | CheckState(w: nat)
    | LookUp(w: nat, lookup: Lookup)
    | Publish(w: nat)
    | Notify(w: nat, scheduled: bool)
    | Complete(i: nat)

  predicate CanStep(d: Dns, step: Step) {
    match step
    case Submit(s, max, _) => s < |d.slots| && !d.slots[s].inUse && d.running && max > 0
    case Cancel(s) => s < |d.slots| && d.slots[s].inUse
    case Shutdown => true
    case Dequeue(w) => w < |d.workers| && d.workers[w].Waiting? && d.running && |d.queue| > 0
    case Exit(w) => w < |d.workers| && d.workers[w].Waiting? && !d.running
    case CheckState(w) => w < |d.workers| && d.workers[w].Taken? && d.workers[w].s < |d.slots|
    case LookUp(w, _) => w < |d.workers| && d.workers[w].LookingUp? && d.workers[w].s < |d.slots|
    case Publish(w) => w < |d.workers| && d.workers[w].Answered? && d.workers[w].s < |d.slots|
    case Notify(w, _) => w < |d.workers| && d.workers[w].Posting?
    case Complete(i) => i < |d.posted| && d.posted[i] < |d.slots|
  }

  /** PrepareDNSResolver. */
  function Prepared(x: Slot, max: nat, onComplete: bool): Slot {
    x.(inUse := true, state := Active, onComplete := onComplete, max := max, addrs := [], code := 0, lookup := None,
       uses := x.uses + 1, asked := x.asked + [Request(max, onComplete)])
  }

  /** Cancel. */
  function Withdrawn(x: Slot): Slot {
    x.(onComplete := false, state := Canceled, canceled := x.canceled + {x.uses})
  }

  function LookedUp(x: Slot, l: Lookup): Slot {
    x.(lookup := Some(l), found := x.found[x.uses := l])
  }

  /** The end of Resolve, under the mutex: a request that was canceled is left alone. */
  function Published(x: Slot, l: Lookup): Slot {
    if x.state == Canceled then x
    else x.(state := ResolverState.Complete, code := CodeOf(l), addrs := AddrsOf(l, x.max),
            writes := if l.Found? then x.writes + [x.uses] else x.writes)
  }

  /** HandleAsyncResolveComplete: run the callback unless the request was canceled, and release the object. */
  function Released(x: Slot): Slot {
    x.(inUse := false, state := Unused, released := x.released + 1,
       calls := if x.onComplete && x.state != Canceled
                then x.calls + [Call(x.uses, x.code, x.addrs, x.max, if x.lookup.Some? then x.lookup.value else NoData)]
                else x.calls)
  }

  function Take(d: Dns, step: Step): Dns
    requires CanStep(d, step)
  {
    match step
    case Submit(s, max, onComplete) =>
      d.(slots := d.slots[s := Prepared(d.slots[s], max, onComplete)], queue := d.queue + [s],
        submitted := d.submitted + [s])
    case Cancel(s) => d.(slots := d.slots[s := Withdrawn(d.slots[s])])
    case Shutdown => d.(running := false)
    case Dequeue(w) =>
      d.(workers := d.workers[w := Taken(d.queue[0])], queue := d.queue[1..], dequeued := d.dequeued + [d.queue[0]])
    case Exit(w) => d.(workers := d.workers[w := Exited])
    case CheckState(w) =>
      var s := d.workers[w].s;
      d.(workers := d.workers[w := if d.slots[s].state == Canceled then Posting(s) else LookingUp(s)])
    case LookUp(w, lookup) =>
      var s := d.workers[w].s;
      d.(workers := d.workers[w := Answered(s, lookup)], slots := d.slots[s := LookedUp(d.slots[s], lookup)])
    case Publish(w) =>
      var s := d.workers[w].s;
      d.(workers := d.workers[w := Posting(s)], slots := d.slots[s := Published(d.slots[s], d.workers[w].lookup)])
    case Notify(w, scheduled) =>
      var s := d.workers[w].s;
      var d1 := d.(workers := d.workers[w := Waiting]);
      if scheduled then d1.(posted := d.posted + [s]) else d1.(lost := d.lost + [s])
    case Complete(i) =>
      var s := d.posted[i];
      d.(posted := d.posted[..i] + d.posted[i + 1..], slots := d.slots[s := Released(d.slots[s])])
  }

  // ---------- where a request is ----------

  predicate At(p: Phase, s: nat) {
    !p.Waiting? && !p.Exited? && p.s == s
  }

  function Holds(p: Phase, s: nat): nat {
    if At(p, s) then 1 else 0
  }

  /** How many workers hold slot `s`. */
  function Held(workers: seq<Phase>, s: nat): nat {
    if |workers| == 0 then 0 else Held(workers[..|workers| - 1], s) + Holds(workers[|workers| - 1], s)
  }

  lemma {:induction false} HeldUpdate(workers: seq<Phase>, w: nat, p: Phase, s: nat)
    requires w < |workers|
    ensures Held(workers[w := p], s) + Holds(workers[w], s) == Held(workers, s) + Holds(p, s)
    decreases |workers|
  {
    var n := |workers| - 1;
    var ws := workers[w := p];
    if w < n {
      HeldUpdate(workers[..n], w, p, s);
      assert ws[..n] == workers[..n][w := p];
    } else {
      assert ws[..n] == workers[..n];
    }
  }

  /**
   How often slot `s` is mentioned: in the queue, at a worker, posted to the application's thread, or lost on the
   way.
   */
  function Places(d: Dns, s: nat): nat {
    multiset(d.queue)[s] + Held(d.workers, s) + multiset(d.posted)[s] + multiset(d.lost)[s]
  }

  predicate InUse(d: Dns, s: nat) {
    s < |d.slots| && d.slots[s].inUse
  }

  /** A slot in use is in exactly one place, and a free one in none. */
  ghost predicate Placed(d: Dns) {
    forall s: nat :: Places(d, s) == if InUse(d, s) then 1 else 0
  }

  predicate Open(x: Slot) {
    x.state == Active || x.state == Canceled
  }

  predicate Over(x: Slot) {
    x.state == ResolverState.Complete || x.state == Canceled
  }

  /** What is known of a request from where its worker is. */
  predicate PhaseHolds(x: Slot, p: Phase) {
    && (p.Answered? ==> x.lookup == Some(p.lookup)) && (p.Taken? || p.LookingUp? ==> x.lookup.None?)
    && (if p.Posting? then Over(x) else Open(x))
  }

  predicate WorkersHold(d: Dns) {
    forall w :: 0 <= w < |d.workers| && !d.workers[w].Waiting? && !d.workers[w].Exited? ==>
      d.workers[w].s < |d.slots| && PhaseHolds(d.slots[d.workers[w].s], d.workers[w])
  }

  predicate QueueHolds(d: Dns) {
    forall i :: 0 <= i < |d.queue| ==> d.queue[i] < |d.slots| && Unstarted(d.slots[d.queue[i]])
  }

  predicate PostedHolds(d: Dns) {
    forall i :: 0 <= i < |d.posted| ==> d.posted[i] < |d.slots| && Over(d.slots[d.posted[i]])
  }

  /** The callback was told what the lookup found. */
  predicate Truthful(c: Call) {
    c.code == CodeOf(c.lookup) && c.addrs == AddrsOf(c.lookup, c.max)
  }

  /** The application wanted to be called back for use `use`, and did not cancel it. */
  predicate Wanted(x: Slot, use: nat) {
    1 <= use <= |x.asked| && x.asked[use - 1].onComplete && use !in x.canceled
  }

  predicate CalledIn(x: Slot, use: nat) {
    exists i :: 0 <= i < |x.calls| && x.calls[i].use == use
  }

  /** The callback was for a use that is over and wanted it, and told what that use's lookup found. */
  predicate Answers(x: Slot, c: Call) {
    && Truthful(c) && 1 <= c.use <= x.released && Wanted(x, c.use)
    && c.max == x.asked[c.use - 1].max && c.use in x.found && c.lookup == x.found[c.use]
  }

  /** The fields of the use that is going on agree with what was asked, canceled and found for it. */
  predicate UseSound(x: Slot) {
    x.inUse ==>
      && 1 <= x.uses == |x.asked|
      && x.max == x.asked[x.uses - 1].max && (x.onComplete <==> Wanted(x, x.uses))
      && (x.state == Canceled <==> x.uses in x.canceled)
      && x.lookup == (if x.uses in x.found then Some(x.found[x.uses]) else None)
      && (x.state == ResolverState.Complete ==>
            x.lookup.Some? && x.code == CodeOf(x.lookup.value) && x.addrs == AddrsOf(x.lookup.value, x.max))
  }

  ghost predicate SlotSound(x: Slot) {
    && x.uses == x.released + (if x.inUse then 1 else 0) && |x.asked| == x.uses
    && (forall u :: u in x.canceled || u in x.found ==> 1 <= u <= x.uses)
    && UseSound(x)
    && (forall i :: 0 <= i < |x.calls| ==> Answers(x, x.calls[i]))
    && (forall i, j :: 0 <= i < j < |x.calls| ==> x.calls[i].use < x.calls[j].use)
    && (forall u :: 1 <= u <= x.released && Wanted(x, u) ==> CalledIn(x, u))
  }

  ghost predicate Inv(d: Dns) {
    && Placed(d) && WorkersHold(d) && QueueHolds(d) && PostedHolds(d)
    && (forall s :: 0 <= s < |d.slots| ==> SlotSound(d.slots[s]))
    && d.submitted == d.dequeued + d.queue
  }

  // ---------- only one thread at a time has a request ----------

  lemma {:induction false} HeldPositive(workers: seq<Phase>, w: nat, s: nat)
    requires w < |workers| && At(workers[w], s)
    ensures Held(workers, s) >= 1
    decreases |workers|
  {
    var n := |workers| - 1;
    if w < n { HeldPositive(workers[..n], w, s); }
  }

  /** A worker's request is in no other place. */
  lemma WorkerAlone(d: Dns, w: nat, s: nat)
    requires Placed(d) && w < |d.workers| && At(d.workers[w], s)
    ensures InUse(d, s) && s !in d.queue && s !in d.posted && s !in d.lost
    ensures forall v :: 0 <= v < |d.workers| && v != w ==> !At(d.workers[v], s)
  {
    assert Places(d, s) == if InUse(d, s) then 1 else 0;
    HeldPositive(d.workers, w, s);
    HeldUpdate(d.workers, w, Waiting, s);
    forall v | 0 <= v < |d.workers| && v != w
      ensures !At(d.workers[v], s)
    {
      if At(d.workers[v], s) { HeldPositive(d.workers[w := Waiting], v, s); }
    }
  }

  lemma NotHeld(d: Dns, s: nat)
    requires Held(d.workers, s) == 0
    ensures forall v :: 0 <= v < |d.workers| ==> !At(d.workers[v], s)
  {
    forall v | 0 <= v < |d.workers|
      ensures !At(d.workers[v], s)
    {
      if At(d.workers[v], s) { HeldPositive(d.workers, v, s); }
    }
  }

  lemma PostedSplit(d: Dns, i: nat, s: nat)
    requires i < |d.posted|
    ensures multiset(d.posted[..i] + d.posted[i + 1..])[s]
      == multiset(d.posted)[s] - (if s == d.posted[i] then 1 else 0)
  {
    assert d.posted == d.posted[..i] + [d.posted[i]] + d.posted[i + 1..];
  }

  lemma PostedAlone(d: Dns, i: nat)
    requires Placed(d) && i < |d.posted|
    ensures var s := d.posted[i];
      && InUse(d, s) && s !in d.queue && s !in d.lost && s !in d.posted[..i] + d.posted[i + 1..]
      && (forall v :: 0 <= v < |d.workers| ==> !At(d.workers[v], s))
  {
    var s := d.posted[i];
    assert Places(d, s) == if InUse(d, s) then 1 else 0;
    assert s in multiset(d.posted);
    PostedSplit(d, i, s);
    NotHeld(d, s);
  }

  lemma FreeNowhere(d: Dns, s: nat)
    requires Placed(d) && !InUse(d, s)
    ensures s !in d.queue && s !in d.posted && s !in d.lost && forall v :: 0 <= v < |d.workers| ==> !At(d.workers[v], s)
  {
    assert Places(d, s) == 0;
    NotHeld(d, s);
  }

  // ---------- every step keeps the places ----------

  lemma WorkerMoves(d: Dns, step: Step, w: nat, s: nat)
    requires CanStep(d, step) && Placed(d)
      && (step.Notify? || step.Exit? || step.CheckState? || step.LookUp? || step.Publish?) && w == step.w
    ensures Places(Take(d, step), s) == Places(d, s)
  {
    HeldUpdate(d.workers, w, Take(d, step).workers[w], s);
  }

  lemma DequeueMoves(d: Dns, w: nat, s: nat)
    requires CanStep(d, Dequeue(w))
    ensures Places(Take(d, Dequeue(w)), s) == Places(d, s)
  {
    assert d.queue == [d.queue[0]] + d.queue[1..];
    HeldUpdate(d.workers, w, Taken(d.queue[0]), s);
  }

  lemma StepMoves(d: Dns, step: Step, s: nat)
    requires CanStep(d, step) && Placed(d)
    ensures Places(Take(d, step), s) == if InUse(Take(d, step), s) then 1 else 0
  {
    assert Places(d, s) == if InUse(d, s) then 1 else 0;
    match step
    case Submit(_, _, _) =>
    case Cancel(_) =>
    case Shutdown =>
    case Dequeue(w) => DequeueMoves(d, w, s);
    case Complete(i) =>
      PostedAlone(d, i);
      PostedSplit(d, i, s);
    case _ => WorkerMoves(d, step, step.w, s);
  }

  lemma StepPlaced(d: Dns, step: Step)
    requires CanStep(d, step) && Placed(d)
    ensures Placed(Take(d, step))
  {
    forall s: nat
      ensures Places(Take(d, step), s) == if InUse(Take(d, step), s) then 1 else 0
    {
      StepMoves(d, step, s);
    }
  }

  // ---------- every step keeps the rest ----------

  lemma StepSlots(d: Dns, step: Step)
    requires CanStep(d, step) && Inv(d)
    ensures var d' := Take(d, step); forall s :: 0 <= s < |d'.slots| ==> SlotSound(d'.slots[s])
  {
    var d' := Take(d, step);
    match step
    case Submit(s, max, onComplete) => PrepareSound(d.slots[s], max, onComplete);
    case Cancel(s) => CancelSound(d.slots[s]);
    case Publish(w) =>
      assert PhaseHolds(d.slots[d.workers[w].s], d.workers[w]);
      WorkerAlone(d, w, d.workers[w].s);
      PublishSound(d.slots[d.workers[w].s], d.workers[w].lookup);
    case LookUp(w, lookup) =>
      assert PhaseHolds(d.slots[d.workers[w].s], d.workers[w]);
      WorkerAlone(d, w, d.workers[w].s);
      LookUpSound(d.slots[d.workers[w].s], lookup);
    case Complete(i) =>
      PostedAlone(d, i);
      ReleaseSound(d.slots[d.posted[i]]);
    case _ =>
  }

  /** What is past for a slot does not change with the use that is going on. */
  lemma PastKept(x: Slot, x': Slot)
    requires SlotSound(x) && x'.calls == x.calls && x'.released == x.released && x.asked <= x'.asked
    requires forall u :: 1 <= u <= x.released ==> (u in x'.canceled <==> u in x.canceled)
    requires forall u :: 1 <= u <= x.released && u in x.found ==> u in x'.found && x'.found[u] == x.found[u]
    ensures forall i :: 0 <= i < |x'.calls| ==> Answers(x', x'.calls[i])
    ensures forall u :: 1 <= u <= x'.released && Wanted(x', u) ==> CalledIn(x', u)
  {
    forall u | 1 <= u <= x'.released && Wanted(x', u)
      ensures CalledIn(x', u)
    {
      assert Wanted(x, u);
      var i :| 0 <= i < |x.calls| && x.calls[i].use == u;
      assert x'.calls[i].use == u;
    }
    forall i | 0 <= i < |x'.calls|
      ensures Answers(x', x'.calls[i])
    {
      assert Answers(x, x.calls[i]);
    }
  }

  lemma PrepareSound(x: Slot, max: nat, onComplete: bool)
    requires SlotSound(x) && !x.inUse
    ensures SlotSound(Prepared(x, max, onComplete))
  {
    PastKept(x, Prepared(x, max, onComplete));
  }

  lemma CancelSound(x: Slot)
    requires SlotSound(x) && x.inUse
    ensures SlotSound(Withdrawn(x))
  {
    PastKept(x, Withdrawn(x));
  }

  lemma LookUpSound(x: Slot, l: Lookup)
    requires SlotSound(x) && x.inUse && Open(x)
    ensures SlotSound(LookedUp(x, l))
  {
    PastKept(x, LookedUp(x, l));
  }

  lemma PublishSound(x: Slot, l: Lookup)
    requires SlotSound(x) && x.inUse && Open(x) && x.lookup == Some(l)
    ensures SlotSound(Published(x, l))
  {
    PastKept(x, Published(x, l));
  }

  /** The use that is over was answered if it wanted to be, and the earlier ones as before. */
  lemma ReleaseAnswers(x: Slot)
    requires SlotSound(x) && x.inUse && Over(x)
    ensures var x' := Released(x); forall i :: 0 <= i < |x'.calls| ==> Answers(x', x'.calls[i])
  {
    var x' := Released(x);
    forall i | 0 <= i < |x'.calls|
      ensures Answers(x', x'.calls[i])
    {
      if i < |x.calls| { assert Answers(x, x.calls[i]); }
    }
  }

  lemma ReleaseCovers(x: Slot, u: nat)
    requires SlotSound(x) && x.inUse && Over(x) && 1 <= u <= x.uses && Wanted(Released(x), u)
    ensures CalledIn(Released(x), u)
  {
    var x' := Released(x);
    assert Wanted(x, u);
    if u == x.uses {
      assert x'.calls[|x.calls|].use == u;
    } else {
      var i :| 0 <= i < |x.calls| && x.calls[i].use == u;
      assert x'.calls[i].use == u;
    }
  }

  lemma ReleaseSound(x: Slot)
    requires SlotSound(x) && x.inUse && Over(x)
    ensures SlotSound(Released(x))
  {
    var x' := Released(x);
    ReleaseAnswers(x);
    forall u | 1 <= u <= x'.released && Wanted(x', u)
      ensures CalledIn(x', u)
    {
      ReleaseCovers(x, u);
    }
  }

  lemma StepQueue(d: Dns, step: Step)
    requires CanStep(d, step) && Inv(d)
    ensures QueueHolds(Take(d, step))
  {
    match step
    case Submit(s, max, onComplete) =>
      FreeNowhere(d, s);
      SlotQueued(d, s, Prepared(d.slots[s], max, onComplete));
    case Cancel(s) => SlotQueued(d, s, Withdrawn(d.slots[s]));
    case Complete(i) =>
      PostedAlone(d, i);
      SlotQueued(d, d.posted[i], Released(d.slots[d.posted[i]]));
    case LookUp(w, lookup) =>
      WorkerAlone(d, w, d.workers[w].s);
      SlotQueued(d, d.workers[w].s, LookedUp(d.slots[d.workers[w].s], lookup));
    case Publish(w) =>
      WorkerAlone(d, w, d.workers[w].s);
      SlotQueued(d, d.workers[w].s, Published(d.slots[d.workers[w].s], d.workers[w].lookup));
    case _ =>
  }

  predicate Unstarted(x: Slot) {
    Open(x) && x.lookup.None?
  }

  lemma SlotQueued(d: Dns, s: nat, x: Slot)
    requires QueueHolds(d) && s < |d.slots| && (s in d.queue && Unstarted(d.slots[s]) ==> Unstarted(x))
    ensures QueueHolds(d.(slots := d.slots[s := x]))
  {
  }

  lemma SlotPosted(d: Dns, s: nat, x: Slot)
    requires PostedHolds(d) && s < |d.slots| && (s !in d.posted || Over(x))
    ensures PostedHolds(d.(slots := d.slots[s := x]))
  {
  }

  lemma CompletePosted(d: Dns, i: nat)
    requires CanStep(d, Step.Complete(i)) && Inv(d)
    ensures PostedHolds(Take(d, Step.Complete(i)))
  {
    PostedAlone(d, i);
    var d1 := d.(posted := d.posted[..i] + d.posted[i + 1..]);
    assert PostedHolds(d1);
    SlotPosted(d1, d.posted[i], Released(d.slots[d.posted[i]]));
  }

  lemma StepPosted(d: Dns, step: Step)
    requires CanStep(d, step) && Inv(d)
    ensures PostedHolds(Take(d, step))
  {
    match step
    case Submit(s, max, onComplete) =>
      FreeNowhere(d, s);
      SlotPosted(d, s, Prepared(d.slots[s], max, onComplete));
    case Complete(i) => CompletePosted(d, i);
    case LookUp(w, lookup) =>
      WorkerAlone(d, w, d.workers[w].s);
      SlotPosted(d, d.workers[w].s, LookedUp(d.slots[d.workers[w].s], lookup));
    case Publish(w) =>
      WorkerAlone(d, w, d.workers[w].s);
      SlotPosted(d, d.workers[w].s, Published(d.slots[d.workers[w].s], d.workers[w].lookup));
    case Cancel(s) => SlotPosted(d, s, Withdrawn(d.slots[s]));
    case Notify(w, _) => assert PhaseHolds(d.slots[d.workers[w].s], d.workers[w]);
    case _ =>
  }

  /** Changing slot `s`, which no worker holds or whose workers can live with the change. */
  lemma SlotWorkers(d: Dns, s: nat, x: Slot)
    requires WorkersHold(d) && s < |d.slots|
    requires forall v :: 0 <= v < |d.workers| && At(d.workers[v], s) ==> PhaseHolds(x, d.workers[v])
    ensures WorkersHold(d.(slots := d.slots[s := x]))
  {
  }

  /** Worker `w` alone holds slot `s`, changes it to `x` and moves on to phase `p`. */
  lemma WorkerMovesOn(d: Dns, w: nat, s: nat, x: Slot, p: Phase)
    requires WorkersHold(d) && Placed(d) && s < |d.slots| && w < |d.workers| && At(d.workers[w], s)
    requires At(p, s) && PhaseHolds(x, p)
    ensures WorkersHold(d.(workers := d.workers[w := p], slots := d.slots[s := x]))
  {
    WorkerAlone(d, w, s);
    var d1 := d.(workers := d.workers[w := Waiting]);
    SlotWorkers(d1, s, x);
  }

  lemma StepWorkers(d: Dns, step: Step)
    requires CanStep(d, step) && Inv(d)
    ensures WorkersHold(Take(d, step))
  {
    match step
    case Submit(s, max, onComplete) =>
      FreeNowhere(d, s);
      SlotWorkers(d, s, Prepared(d.slots[s], max, onComplete));
    case Complete(i) =>
      PostedAlone(d, i);
      SlotWorkers(d, d.posted[i], Released(d.slots[d.posted[i]]));
    case Cancel(s) => SlotWorkers(d, s, Withdrawn(d.slots[s]));
    case LookUp(w, lookup) =>
      var s := d.workers[w].s;
      WorkerMovesOn(d, w, s, LookedUp(d.slots[s], lookup), Answered(s, lookup));
    case Publish(w) =>
      var s := d.workers[w].s;
      WorkerMovesOn(d, w, s, Published(d.slots[s], d.workers[w].lookup), Posting(s));
    case _ =>
  }

  lemma StepKeeps(d: Dns, step: Step)
    requires CanStep(d, step) && Inv(d)
    ensures Inv(Take(d, step))
  {
    StepPlaced(d, step);
    StepSlots(d, step);
    StepWorkers(d, step);
    StepQueue(d, step);
    StepPosted(d, step);
  }

  // ---------- every run ----------

  ghost predicate Runs(d: Dns, steps: seq<Step>, d': Dns)
    decreases |steps|
  {
    if |steps| == 0 then d' == d
    else CanStep(d, steps[0]) && Runs(Take(d, steps[0]), steps[1..], d')
  }

  /** No request has been submitted yet. */
  predicate Fresh(d: Dns) {
    && d.queue == [] && d.posted == [] && d.lost == [] && d.submitted == [] && d.dequeued == []
    && (forall s :: 0 <= s < |d.slots| ==>
          var x := d.slots[s];
          && !x.inUse && x.uses == 0 && x.released == 0 && x.calls == []
          && x.asked == [] && x.canceled == {} && x.found == map[])
    && (forall w :: 0 <= w < |d.workers| ==> d.workers[w].Waiting?)
  }

  lemma {:induction false} NobodyHolds(workers: seq<Phase>, s: nat)
    requires forall w :: 0 <= w < |workers| ==> workers[w].Waiting?
    ensures Held(workers, s) == 0
    decreases |workers|
  {
    if |workers| > 0 { NobodyHolds(workers[..|workers| - 1], s); }
  }

  lemma FreshInv(d: Dns)
    requires Fresh(d)
    ensures Inv(d)
  {
    forall s: nat
      ensures Places(d, s) == 0
    {
      NobodyHolds(d.workers, s);
    }
  }

  lemma {:induction false} RunKeeps(d: Dns, steps: seq<Step>, d': Dns)
    requires Inv(d) && Runs(d, steps, d')
    ensures Inv(d')
    decreases |steps|
  {
    if |steps| > 0 {
      StepKeeps(d, steps[0]);
      RunKeeps(Take(d, steps[0]), steps[1..], d');
    }
  }

  ghost predicate Reachable(d: Dns) {
    exists d0, steps :: Fresh(d0) && Runs(d0, steps, d)
  }

  lemma ReachableInv(d: Dns)
    requires Reachable(d)
    ensures Inv(d)
  {
    var d0, steps :| Fresh(d0) && Runs(d0, steps, d);
    FreshInv(d0);
    RunKeeps(d0, steps, d);
  }

  // ---------- what that means ----------

  /**
   With any number of workers, a request is always in exactly one place: queued, held by one worker, posted to the
   application's thread, or lost because it could not be posted; a released object is in none, so no thread touches it.
   */
  lemma OnePlace(d: Dns, s: nat)
    requires Reachable(d) && s < |d.slots|
    ensures Places(d, s) == if d.slots[s].inUse then 1 else 0
    ensures d.slots[s].released == d.slots[s].uses - (if d.slots[s].inUse then 1 else 0)
    ensures forall w, v :: 0 <= w < v < |d.workers| ==> !(At(d.workers[w], s) && At(d.workers[v], s))
    ensures forall w :: 0 <= w < |d.workers| && At(d.workers[w], s) ==>
      d.slots[s].inUse && s !in d.queue && s !in d.posted && s !in d.lost
  {
    ReachableInv(d);
    assert Places(d, s) == if InUse(d, s) then 1 else 0;
    forall w | 0 <= w < |d.workers| && At(d.workers[w], s)
      ensures d.slots[s].inUse && s !in d.queue && s !in d.posted && s !in d.lost
      ensures forall v :: 0 <= v < |d.workers| && v != w ==> !At(d.workers[v], s)
    {
      WorkerAlone(d, w, s);
    }
  }

  /** First in, first out: the requests taken from the queue are, in order, the first of those submitted. */
  lemma Fifo(d: Dns)
    requires Reachable(d)
    ensures d.submitted == d.dequeued + d.queue
  {
    ReachableInv(d);
  }

  /**
   Each use of a resolver runs at most one callback, after it was taken up, and tells it exactly what its lookup
   found.
   */
  lemma CallsAreTruthful(d: Dns, s: nat)
    requires Reachable(d) && s < |d.slots|
    ensures forall i :: 0 <= i < |d.slots[s].calls| ==>
      Truthful(d.slots[s].calls[i]) && d.slots[s].calls[i].use <= d.slots[s].released
    ensures forall i, j :: 0 <= i < j < |d.slots[s].calls| ==> d.slots[s].calls[i].use != d.slots[s].calls[j].use
  {
    ReachableInv(d);
    assert SlotSound(d.slots[s]);
  }

  /**
   Once a use is over its callback has run exactly if the application asked for it and did not cancel; and it was told
   the code of that use's own lookup, and as many of its addresses as there was room for.
   */
  lemma CalledBackIff(d: Dns, s: nat, use: nat)
    requires Reachable(d) && s < |d.slots| && 1 <= use <= d.slots[s].released
    ensures CalledIn(d.slots[s], use) <==> Wanted(d.slots[s], use)
    ensures forall i :: 0 <= i < |d.slots[s].calls| && d.slots[s].calls[i].use == use ==>
      var c := d.slots[s].calls[i];
      && use in d.slots[s].found
      && c.code == CodeOf(d.slots[s].found[use])
      && c.addrs == AddrsOf(d.slots[s].found[use], d.slots[s].asked[use - 1].max)
  {
    ReachableInv(d);
    assert SlotSound(d.slots[s]);
    forall i | 0 <= i < |d.slots[s].calls|
      ensures Answers(d.slots[s], d.slots[s].calls[i])
    {
    }
  }

  // ---------- cancellation ----------

  /** Use `use` of the slot is canceled or over, without a callback, after `writes` writes to its address array. */
  predicate Quelled(x: Slot, use: nat, writes: nat) {
    && (x.uses == use && x.inUse ==> x.state == Canceled)
    && use <= x.uses && !CalledIn(x, use) && multiset(x.writes)[use] == writes
  }

  lemma SlotStaysQuelled(d: Dns, step: Step, s: nat, use: nat, writes: nat)
    requires Inv(d) && CanStep(d, step) && s < |d.slots| && Quelled(d.slots[s], use, writes)
    ensures Quelled(Take(d, step).slots[s], use, writes)
  {
    var x, x' := d.slots[s], Take(d, step).slots[s];
    if step.Complete? && d.posted[step.i] == s {
      PostedAlone(d, step.i);
      ReleaseQuelled(x, use, writes);
    } else if step.Publish? && d.workers[step.w].s == s {
      WorkerAlone(d, step.w, s);
      assert multiset(x.writes + [x.uses])[use] == multiset(x.writes)[use] + (if x.uses == use then 1 else 0);
    }
  }

  lemma ReleaseQuelled(x: Slot, use: nat, writes: nat)
    requires Quelled(x, use, writes) && x.inUse
    ensures Quelled(Released(x), use, writes)
  {
    var x' := Released(x);
    forall i | 0 <= i < |x'.calls|
      ensures x'.calls[i].use != use
    {
      if i < |x.calls| { assert x'.calls[i] == x.calls[i]; }
    }
  }

  lemma {:induction false} RunStaysQuelled(d: Dns, steps: seq<Step>, d': Dns, s: nat, use: nat, writes: nat)
    requires Inv(d) && Runs(d, steps, d') && s < |d.slots| && Quelled(d.slots[s], use, writes)
    ensures s < |d'.slots| && Quelled(d'.slots[s], use, writes)
    decreases |steps|
  {
    if |steps| > 0 {
      StepKeeps(d, steps[0]);
      SlotStaysQuelled(d, steps[0], s, use, writes);
      RunStaysQuelled(Take(d, steps[0]), steps[1..], d', s, use, writes);
    }
  }

  /**
   Once Cancel has returned, however the threads go on, the callback of that request never runs and its address
   array is never written again.
   */
  lemma CancelSilences(d: Dns, s: nat, steps: seq<Step>, d': Dns)
    requires Reachable(d) && CanStep(d, Cancel(s)) && Runs(Take(d, Cancel(s)), steps, d')
    ensures s < |d'.slots| && !CalledIn(d'.slots[s], d.slots[s].uses)
    ensures multiset(d'.slots[s].writes)[d.slots[s].uses] == multiset(d.slots[s].writes)[d.slots[s].uses]
  {
    ReachableInv(d);
    StepKeeps(d, Cancel(s));
    var x := d.slots[s];
    assert SlotSound(x);
    RunStaysQuelled(Take(d, Cancel(s)), steps, d', s, x.uses, multiset(x.writes)[x.uses]);
  }

  /** Use `use` of slot `s` is canceled or over, and nobody has looked it up or is about to. */
  predicate Unasked(d: Dns, s: nat, use: nat) {
    && s < |d.slots| && use <= d.slots[s].uses && use !in d.slots[s].found
    && (d.slots[s].uses == use && d.slots[s].inUse ==>
          && d.slots[s].state == Canceled
          && (forall w :: 0 <= w < |d.workers| ==> d.workers[w] != LookingUp(s)))
  }

  lemma StepUnasked(d: Dns, step: Step, s: nat, use: nat)
    requires Inv(d) && CanStep(d, step) && Unasked(d, s, use)
    ensures Unasked(Take(d, step), s, use)
  {
    if step.Complete? && d.posted[step.i] == s {
      PostedAlone(d, step.i);
    } else if step.LookUp? && d.workers[step.w].s == s {
      WorkerAlone(d, step.w, s);
    } else if step.Publish? && d.workers[step.w].s == s {
      WorkerAlone(d, step.w, s);
    }
  }

  lemma {:induction false} RunUnasked(d: Dns, steps: seq<Step>, d': Dns, s: nat, use: nat)
    requires Inv(d) && Runs(d, steps, d') && Unasked(d, s, use)
    ensures Unasked(d', s, use)
    decreases |steps|
  {
    if |steps| > 0 {
      StepKeeps(d, steps[0]);
      StepUnasked(d, steps[0], s, use);
      RunUnasked(Take(d, steps[0]), steps[1..], d', s, use);
    }
  }

  /** A request that is canceled before its worker has begun to look it up is never looked up. */
  lemma CancelSavesLookup(d: Dns, s: nat, steps: seq<Step>, d': Dns)
    requires Reachable(d) && CanStep(d, Cancel(s)) && Runs(Take(d, Cancel(s)), steps, d')
    requires s in d.queue || exists w :: 0 <= w < |d.workers| && d.workers[w] == Taken(s)
    ensures s < |d'.slots| && d.slots[s].uses !in d'.slots[s].found
  {
    ReachableInv(d);
    StepKeeps(d, Cancel(s));
    NotLookedUp(d, s);
    RunUnasked(Take(d, Cancel(s)), steps, d', s, d.slots[s].uses);
  }

  lemma NotLookedUp(d: Dns, s: nat)
    requires Inv(d) && s < |d.slots| && d.slots[s].inUse
    requires s in d.queue || exists w :: 0 <= w < |d.workers| && d.workers[w] == Taken(s)
    ensures d.slots[s].uses !in d.slots[s].found
    ensures forall w :: 0 <= w < |d.workers| ==> d.workers[w] != LookingUp(s)
  {
    assert UseSound(d.slots[s]);
    if s in d.queue {
      var i :| 0 <= i < |d.queue| && d.queue[i] == s;
      forall w | 0 <= w < |d.workers|
        ensures d.workers[w] != LookingUp(s)
      {
        if At(d.workers[w], s) { WorkerAlone(d, w, s); }
      }
    } else {
      var w :| 0 <= w < |d.workers| && d.workers[w] == Taken(s);
      WorkerAlone(d, w, s);
      assert PhaseHolds(d.slots[s], d.workers[w]);
    }
  }

  // ---------- the linked queue ----------

  /** The linked queue of `q` holds, from head to tail, the objects of `pool` whose slots `d` has queued. */
  ghost predicate Abstracts(q: AsyncDNSResolver, pool: seq<DNSResolver>, d: Dns)
    reads q, q.requests
  {
    && q.Valid() && q.initialized == d.running && |pool| == |d.slots|
    && (forall i, j :: 0 <= i < j < |pool| ==> pool[i] != pool[j])
    && |q.requests| == |d.queue|
    && (forall i :: 0 <= i < |d.queue| ==> d.queue[i] < |pool| && q.requests[i] == pool[d.queue[i]])
  }

  /** Preparing an object and linking it in is the step that submits its slot. */
  method SubmitResolver(q: AsyncDNSResolver, pool: seq<DNSResolver>, s: nat, max: nat, onComplete: bool, ghost d: Dns)
    requires Abstracts(q, pool, d) && Inv(d) && CanStep(d, Submit(s, max, onComplete))
    modifies q, q.requests, pool[s]
    ensures Abstracts(q, pool, Take(d, Submit(s, max, onComplete)))
  {
    FreeNowhere(d, s);
    q.PrepareDNSResolver(pool[s], max, onComplete);
    q.EnqueueRequest(pool[s]);
  }

  /** Unlinking the head is the step in which a worker takes the first queued slot. */
  method TakeResolver(q: AsyncDNSResolver, pool: seq<DNSResolver>, w: nat, ghost d: Dns) returns (r: DNSResolver?)
    requires Abstracts(q, pool, d) && CanStep(d, Dequeue(w))
    modifies q
    ensures Abstracts(q, pool, Take(d, Dequeue(w))) && r == pool[d.queue[0]]
    ensures Take(d, Dequeue(w)).workers[w] == Taken(d.queue[0])
  {
    assert q.requests != [];
    r := q.DequeueRequest();
    assert old(q.requests)[1..] == q.requests;
  }
}
