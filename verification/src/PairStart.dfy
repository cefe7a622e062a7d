/** The handshake, run on two new end points, leads to a state in which runs of a connected pair start. */
module PairStart {
  import opened Common
  import opened Fragments
  import opened Windows
  import opened EndPointModel
  import opened EndPointEdges
  import opened PairRuns
  import opened PairProgress
  import H = Handshake
  import EndPointRuns

  /** The platform also subscribes and starts the handshake timers. */
  predicate Connects(env: Env) {
    Cooperates(env) && env.subscribed && env.handshakeTimer
  }

  /** The central sends its request, and once that is confirmed it subscribes. */
  function CentralBegins(a: EndPoint, req: H.Request, env: Env): EndPoint {
    var a1 := StartConnect(a, req, env);
    if |a1.queue| > 0 then Confirmed(a1, env) else a1
  }

  lemma CentralAsks(a: EndPoint, req: H.Request, env: Env)
    requires EndPointRuns.IsNew(a) && a.life.central && Connects(env)
    ensures StartConnect(a, req, env).queue == [H.EncodedRequest(req)]
  {
  }

  lemma CentralOpens(a: EndPoint, req: H.Request, subscribed: bool, resp: H.Response, env: Env)
    requires EndPointRuns.IsNew(a) && a.life.central && a.life.onConnectComplete && Connects(env)
    requires resp.fragmentSize >= DEFAULT_FRAGMENT_SIZE && H.CentralTerms(resp).Ok?
    ensures H.DecodedResponse(H.EncodedResponse(resp)) == Ok(resp)
    ensures var a2 := CentralBegins(a, req, env);
      var a3 := CapsResponseReceived(if subscribed then SubscribeComplete(a2, env) else a2, H.EncodedResponse(resp),
        env);
      var t := H.CentralTerms(resp).value;
      && OpensCentral(a3) && a3.config == a.config
      && a3.engine.txSize == t.txSize && a3.engine.rxSize == t.rxSize && a3.link.max == t.max
  {
    H.ResponseCodec(H.EncodedResponse(resp), resp);
  }

  lemma PeripheralAnswers(b: EndPoint, req: H.Request, mtu: uint16, env: Env)
    requires EndPointRuns.IsNew(b) && !b.life.central && Connects(env)
    requires H.ValidMtu(req.mtu) && H.ValidMtu(mtu) && req.window >= 1
    requires H.PeripheralTerms(H.Answer(req, mtu, b.config.window)).Some?
    ensures H.DecodedRequest(H.EncodedRequest(req)) == Ok(req)
    ensures var resp := H.Answer(req, mtu, b.config.window);
      var b1 := CapsRequestReceived(b, H.EncodedRequest(req), mtu, env);
      var b2 := SubscribeReceived(b1, env);
      var t := H.PeripheralTerms(resp).value;
      && b1.queue == [H.EncodedResponse(resp)]
      && OpensPeripheral(b2) && b2.config == b.config
      && b2.engine.txSize == t.txSize && b2.engine.rxSize == t.rxSize && b2.link.max == t.max
  {
    H.RequestCodec(H.EncodedRequest(req), req);
  }

  /**
   Two new end points, a request that lists a common version, any MTUs and any windows that are not zero: once the
   parked request, the subscription and the parked response have crossed, the pair is at the end of a handshake, whether
   or not the central has yet been told that its subscription is in place. Both cut to a size that fits the ATT payload.
   With one offset and buffer size and a window of at least 3 that leaves room for the slack, it is where runs over
   agreed windows start.
   */
  lemma HandshakeStarts(a: EndPoint, b: EndPoint, req: H.Request, mtu: uint16, subscribed: bool, env: Env)
    requires EndPointRuns.IsNew(a) && a.life.central && a.life.onConnectComplete
    requires EndPointRuns.IsNew(b) && !b.life.central && Connects(env)
    requires H.ValidMtu(req.mtu) && H.ValidMtu(mtu) && req.window >= 1
    requires exists i :: H.Listed(req.versions, i) && H.Supported(H.Nibble(req.versions, i))
    ensures var a1 := StartConnect(a, req, env); |a1.queue| == 1 && H.DecodedRequest(a1.queue[0]) == Ok(req)
    ensures var b1 := CapsRequestReceived(b, StartConnect(a, req, env).queue[0], mtu, env);
      var a2 := CentralBegins(a, req, env);
      && |b1.queue| == 1 && H.DecodedResponse(b1.queue[0]).Ok?
      && H.DecodedResponse(b1.queue[0]).value.fragmentSize >= DEFAULT_FRAGMENT_SIZE
      && var a3 := CapsResponseReceived(if subscribed then SubscribeComplete(a2, env) else a2, b1.queue[0], env);
         var p := Pair(a3, SubscribeReceived(b1, env), 0, 0);
      && Opening(p) && SizesFit(p, req.mtu, mtu)
      && (Starts(p) <==> Fits(a.config, b.config, Min(req.window, b.config.window)))
  {
    var resp := H.Answer(req, mtu, b.config.window);
    H.Agreement(req, mtu, b.config.window, H.EncodedRequest(req), H.EncodedResponse(resp));
    CentralAsks(a, req, env);
    CentralOpens(a, req, subscribed, resp, env);
    PeripheralAnswers(b, req, mtu, env);
  }

  /** The central cuts to the size that the MTUs call for, and the peripheral to that size or to the default. */
  predicate SizesFit(p: Pair, mtu: uint16, mtu': uint16) {
    && H.RightSize(p.a.engine.txSize, mtu, mtu')
    && (p.b.engine.txSize == p.a.engine.txSize || p.b.engine.txSize == 20)
  }

  /** One offset, one buffer size, and a window between 3 and what 8-bit numbers allow. */
  predicate Fits(a: Config, b: Config, window: uint8) {
    a.offset == b.offset && a.capacity == b.capacity && 3 <= window && window + (EXACT - a.offset) <= 0xff
  }
}
