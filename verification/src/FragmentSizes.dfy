/** Every fragment that either side ever sends fits the ATT payload of the connection. */
module FragmentSizes {
  import opened Common
  import opened Fragments
  import opened BtpEngine
  import opened Lifecycle
  import opened EndPointModel
  import opened EndPointInvariant
  import opened EndPointEvents
  import opened EndPointEdges
  import opened PairInvariant
  import opened PairRuns
  import opened PairStart
  import H = Handshake

  /** The sizes that the handshake settled stay. */
  predicate KeepsSizes(x: EndPoint, x': EndPoint) {
    x'.engine.rxSize == x.engine.rxSize && x'.engine.txSize == x.engine.txSize
  }

  lemma MoveSizes(x: EndPoint, x': EndPoint)
    requires Move(x, x')
    ensures KeepsSizes(x, x')
  {
  }

  lemma {:induction false} PathSizes(path: seq<EndPoint>, x: EndPoint, x': EndPoint)
    requires Path(path, x, x')
    ensures KeepsSizes(x, x')
    decreases |path|
  {
    if |path| > 1 {
      MoveSizes(path[0], path[1]);
      PathSizes(path[1..], path[1], x');
    }
  }

  lemma EventSizes(x: EndPoint, event: Event, env: Env)
    requires Calm(x) && Sound(x.life) && Rank(x.life.state) >= 3 && (x.life.state == Closed ==> Dormant(x))
    requires Enabled(x, event) && !event.PacketIn?
    ensures KeepsSizes(x, Apply(x, event, env))
  {
    if IsConnected(x.life) {
      var path := EventMoves(x, event, env);
      PathSizes(path, x, Apply(x, event, env));
    } else {
      ClosedApplies(x, event, env);
    }
  }

  lemma PacketSizes(x: EndPoint, data: Bytes, env: Env, env': Env)
    requires Calm(x) && Sound(x.life) && Rank(x.life.state) >= 3 && (x.life.state == Closed ==> Dormant(x))
    requires HeaderPresent(data)
    ensures KeepsSizes(x, ReceivePacket(x, data, env, env'))
  {
    var r := Reply(x, data, env);
    if !IsConnected(x.life) {
      ClosedPacket(x, data, env, env');
    } else if r.err != NoError {
      RefusedMoves(x, data, env, env');
      MoveSizes(x, ReceivePacket(x, data, env, env'));
    } else {
      ReplyAccepts(x, data, env);
      var path := PacketMoves(x, data, env, env');
      PathSizes(path, After(x, r), ReceivePacket(x, data, env, env'));
    }
  }

  lemma StepSizes(p: Pair, s: Step)
    requires LinkInv(p) && CanStep(p, s)
    ensures KeepsSizes(p.a, Take(p, s).a) && KeepsSizes(p.b, Take(p, s).b)
  {
    match s
    case AtA(event, env) => EventSizes(p.a, event, env);
    case AtB(event, env) => EventSizes(p.b, event, env);
    case ToA(env, env') => PacketSizes(p.a, p.b.hist.log[p.toA].Wire(), env, env');
    case ToB(env, env') => PacketSizes(p.b, p.a.hist.log[p.toB].Wire(), env, env');
  }

  lemma {:induction false} RunSizes(p: Pair, steps: seq<Step>, q: Pair)
    requires LinkInv(p) && Runs(p, steps, q)
    ensures LinkInv(q) && KeepsSizes(p.a, q.a) && KeepsSizes(p.b, q.b)
    decreases |steps|
  {
    if |steps| > 0 {
      StepLinks(p, steps[0]);
      StepSizes(p, steps[0]);
      RunSizes(Take(p, steps[0]), steps[1..], q);
    }
  }

  lemma LogFits(x: EndPoint, f: Fragment)
    requires LogShape(x) && f in x.hist.log
    ensures |f.Wire()| <= x.engine.txSize
  {
    var n :| 0 <= n < |x.hist.log| && x.hist.log[n] == f;
    assert LogEntry(x, n);
  }

  /** `n` bytes and the 3 of the ATT header fit the MTU that the two sides go by. */
  predicate FitsMtu(n: nat, central: uint16, peripheral: uint16) {
    if central != 0 then n + 3 <= central
    else if peripheral != 0 then n + 3 <= peripheral
    else n <= 20
  }

  /** Over every run from the end of a handshake, every fragment on the air fits the MTU the handshake went by. */
  lemma FragmentsFit(p: Pair, mtu: uint16, mtu': uint16, steps: seq<Step>, q: Pair)
    requires Opening(p) && SizesFit(p, mtu, mtu') && H.ValidMtu(mtu) && H.ValidMtu(mtu') && Runs(p, steps, q)
    ensures forall f :: f in q.a.hist.log || f in q.b.hist.log ==> FitsMtu(|f.Wire()|, mtu, mtu')
  {
    OpeningLinks(p);
    RunSizes(p, steps, q);
    forall f | f in q.a.hist.log || f in q.b.hist.log
      ensures FitsMtu(|f.Wire()|, mtu, mtu')
    {
      if f in q.a.hist.log { LogFits(q.a, f); } else { LogFits(q.b, f); }
    }
  }
}
