/** What every event keeps of an open end point, whatever its peer and its platform do. */
module EndPointInvariant {
  import opened Common
  import opened Fragments
  import opened BtpEngine
  import opened Numbering
  import opened Reassembly
  import opened Windows
  import opened Lifecycle
  import opened EndPointModel

  // ---------- the invariant ----------

  function Outstanding(ep: EndPoint): int {
    TxN(ep) - ep.hist.txA
  }

  /** Received and not yet acknowledged. */
  function Unacked(ep: EndPoint): int {
    RxN(ep) - ep.hist.rxA
  }

  /**
   The remote window and the outstanding fragments add up to the maximum, or to one more after a wrapped ack,
   while a multiple of 256 is still outstanding.
   */
  predicate RemoteSum(ep: EndPoint) {
    var sum := ep.link.remote + Outstanding(ep);
    sum == ep.link.max || (sum == ep.link.max + (EXACT - ep.config.offset) && NextPage(ep.hist.txA) < TxN(ep))
  }

  /** The local window and the unacknowledged fragments add up to the maximum, as 8-bit numbers. */
  predicate LocalSum(ep: EndPoint) {
    ep.link.local == (ep.link.max - Unacked(ep)) % 0x100
  }

  predicate Numbers(ep: EndPoint) {
    && TxRep(ep.engine, ep.hist.txA, TxN(ep))
    && RxRep(ep.engine, ep.hist.rxA, RxN(ep))
    && RemoteSum(ep) && LocalSum(ep)
  }

  /** One GATT operation at a time, and the ack-received timer runs while an ack is expected. */
  predicate Air(ep: EndPoint) {
    && ep.hist.sends == ep.hist.confirms + (if ep.link.gattInFlight then 1 else 0)
    && (ep.link.ackInFlight ==> ep.link.gattInFlight && ep.link.ackPending && |ep.hist.log| > 0)
    && (ep.link.ackReceivedTimer <==> ep.engine.expectingAck)
  }

  /** A stand-alone ack that waits is held back by a GATT operation or by a closed window. */
  predicate HeldBack(ep: EndPoint) {
    ep.link.ackPending && !ep.link.ackInFlight ==> ep.link.gattInFlight || ep.link.remote == 0
  }

  /** Until the handshake message is confirmed it heads the queue and its GATT operation keeps the air busy. */
  predicate Parked(ep: EndPoint) {
    ep.capsConfirmed ||
    (ep.link.gattInFlight && |ep.queue| > 0 && |ep.hist.log| == 0 && ep.engine.txState == Idle &&
     !ep.life.central && ep.life.state == Connected)
  }

  /** The queued messages, without a parked handshake message. */
  function Waiting(ep: EndPoint): seq<Message> {
    if ep.capsConfirmed || |ep.queue| == 0 then ep.queue else ep.queue[1..]
  }

  /** The message the fragmenter is in the middle of, if any: what the log shows of it and what is left. */
  function Current(ep: EndPoint, a: Assembly): seq<Bytes> {
    if a.open then [a.part + ep.engine.txLeft] else []
  }

  /** Everything accepted is, in order, in the log, in the fragmenter or in the queue. */
  predicate SenderData(ep: EndPoint) {
    var a := Assemble(ep.hist.log);
    && a.ok && ep.engine.txState != Failed
    && (a.open <==> ep.engine.txState == InProgress)
    && (a.open ==> |ep.engine.txLeft| > 0 && a.length == |a.part| + |ep.engine.txLeft|)
    && ep.hist.accepted == a.done + Current(ep, a) + Waiting(ep)
    && forall m :: m in ep.hist.accepted ==> |m| <= ep.config.capacity
  }

  /** Every fragment in the log carries its number, fits the negotiated size, and leaves room in a peer's buffer. */
  predicate LogShape(ep: EndPoint) {
    forall n :: 0 <= n < |ep.hist.log| ==> LogEntry(ep, n)
  }

  predicate LogEntry(ep: EndPoint, n: nat)
    requires n < |ep.hist.log|
  {
    var f := ep.hist.log[n];
    var a := Assemble(ep.hist.log[..n]);
    && f.seqNum == (TxBase(ep.life.central) + n) % 0x100
    && |f.Wire()| <= ep.engine.txSize
    && (a.open ==> |a.part| + |f.payload| <= ep.config.capacity)
  }

  predicate Core(ep: EndPoint) {
    Numbers(ep) && Air(ep) && Parked(ep) && SenderData(ep) && LogShape(ep)
  }

  /** What holds of every open end point between events. */
  predicate Good(ep: EndPoint) {
    Core(ep) && HeldBack(ep)
  }

  // ---------- what sending can do ----------

  /** Nothing went on the air: at most a sent message was cleared and the ack flags moved. */
  predicate Quiet(ep: EndPoint, ep': EndPoint) {
    && (ep'.engine == ep.engine || (ep.engine.txState == Complete && ep'.engine == ClearTx(ep.engine)))
    && ep' == ep.(engine := ep'.engine,
                  link := ep.link.(ackPending := ep'.link.ackPending, sendAckTimer := ep'.link.sendAckTimer))
  }

  /** The history after fragment `f` went out. */
  function Sent(ep: EndPoint, f: Fragment): History {
    ep.hist.(log := ep.hist.log + [f], sends := ep.hist.sends + 1,
             strayed := ep.hist.strayed || (ep.hist.lapsed && f.ack.None?),
             rxA := if f.ack.Some? then RxN(ep) else ep.hist.rxA,
             stale := ep.hist.stale || (f.ack.Some? && ep.hist.rxA == RxN(ep)))
  }

  /** The link after fragment `f` went out. A stand-alone ack leaves the send-ack timer as it was. */
  function LinkAfter(link: Link, f: Fragment): Link {
    link.(local := if f.ack.Some? then link.max else link.local, remote := Dec8(link.remote),
          gattInFlight := true, ackReceivedTimer := true,
          sendAckTimer := !f.HasData() && link.sendAckTimer,
          ackInFlight := !f.HasData() || link.ackInFlight)
  }

  /** The fragment is the first of the next queued message. */
  predicate StartsNext(ep: EndPoint, ep': EndPoint, f: Fragment) {
    && (ep.engine.txState == Idle || ep.engine.txState == Complete) && |ep.queue| > 0
    && f == FirstFragment(ep.engine.txSize, ep.queue[0], f.ack, f.seqNum)
    && ep'.queue == ep.queue[1..] && ep'.engine.txLeft == ep.queue[0][|f.payload|..]
  }

  /** The fragment is the next of the message in progress. */
  predicate ContinuesMessage(ep: EndPoint, ep': EndPoint, f: Fragment) {
    && ep.engine.txState == InProgress
    && f == NextFragment(ep.engine.txSize, ep.engine.txLeft, f.ack, f.seqNum)
    && ep'.queue == ep.queue && ep'.engine.txLeft == ep.engine.txLeft[|f.payload|..]
  }

  /** The fragmenter's part: message data, or a stand-alone ack that leaves it alone. */
  predicate Emits(ep: EndPoint, ep': EndPoint, f: Fragment) {
    if f.HasData() then
      && (StartsNext(ep, ep', f) || ContinuesMessage(ep, ep', f))
      && ep'.engine.txState == if f.end then Complete else InProgress
    else
      && f == StandAloneAck(ep.engine.rxNewest, ep.engine.txNext)
      && ep'.queue == ep.queue && ep'.engine.txLeft == ep.engine.txLeft && ep'.engine.txState == ep.engine.txState
  }

  /** Exactly one fragment `f` went out, within the rules for doing so. */
  predicate Sends(ep: EndPoint, ep': EndPoint, f: Fragment) {
    && !ep.link.gattInFlight && ep.link.remote > 0 && (f.ack.None? ==> ep.link.remote > 1)
    && (!f.HasData() ==> ep.link.ackPending)
    && (f.HasData() ==> !ep.link.ackPending && (f.ack.Some? <==> ep.link.sendAckTimer))
    && (f.HasData() && f.ack.Some? ==> HasUnackedData(ep.engine))
    && f.seqNum == ep.engine.txNext && (f.ack.Some? ==> f.ack.value == ep.engine.rxNewest)
    && Emits(ep, ep', f)
    && ep'.engine == Stamp(ep.engine, f.ack.Some?).(txState := ep'.engine.txState, txLeft := ep'.engine.txLeft)
    && ep' == ep.(engine := ep'.engine, queue := ep'.queue, link := LinkAfter(ep.link, f), hist := Sent(ep, f))
  }

  lemma SendPieceSends(ep: EndPoint, m: Option<Message>, env: Env)
    requires !ep.link.gattInFlight && ep.link.remote > 0 && !ep.link.ackPending && !ep.link.ackInFlight
    requires ep.link.sendAckTimer || ep.link.remote > 1
    ensures var o := SendPiece(ep, m, env);
      o.err == NoError ==>
        var f := SendFragment(ep.engine, m, ep.link.sendAckTimer, env.headroom).fragment;
        && f.HasData() && (f.ack.Some? <==> ep.link.sendAckTimer) && f.seqNum == ep.engine.txNext
        && (f.ack.Some? ==> f.ack.value == ep.engine.rxNewest && HasUnackedData(ep.engine))
        && o.ep == ep.(engine := SendFragment(ep.engine, m, ep.link.sendAckTimer, env.headroom).engine,
                       link := LinkAfter(ep.link, f), hist := Sent(ep, f))
  {
  }

  lemma StandAloneAckSends(ep: EndPoint, env: Env)
    requires ep.link.ackPending && !ep.link.gattInFlight && ep.link.remote > 0
    ensures var o := DoSendStandAloneAck(ep, env);
      o.err == NoError ==> Sends(ep, o.ep, StandAloneAck(ep.engine.rxNewest, ep.engine.txNext))
  {
  }

  /** Exactly one fragment went out. */
  predicate SentOne(ep: EndPoint, ep': EndPoint) {
    |ep'.hist.log| > 0 && Sends(ep, ep', ep'.hist.log[|ep'.hist.log| - 1])
  }

  lemma NextMessageSends(ep: EndPoint, env: Env)
    requires !Blocked(ep) && !ep.link.ackPending && !ep.link.ackInFlight && |ep.queue| > 0 && ep.engine.txState == Idle
    ensures var o := SendNextMessage(ep, env); o.err == NoError ==> SentOne(ep, o.ep) && ep.queue != o.ep.queue
  {
    SendPieceSends(ep.(queue := ep.queue[1..]), Some(ep.queue[0]), env);
  }

  lemma ContinueSends(ep: EndPoint, env: Env)
    requires !Blocked(ep) && !ep.link.ackPending && !ep.link.ackInFlight && ep.engine.txState == InProgress
    ensures var o := SendPiece(ep, None, env); o.err == NoError ==> SentOne(ep, o.ep)
  {
    SendPieceSends(ep, None, env);
  }

  /** A message already sent in full does not matter to the next one. */
  lemma ClearedSends(ep: EndPoint, ep': EndPoint, f: Fragment)
    requires ep.engine.txState == Complete && Sends(ep.(engine := ClearTx(ep.engine)), ep', f) && ep'.queue != ep.queue
    ensures Sends(ep, ep', f)
  {
  }

  /** A lingering close is finalized: nothing is queued, in progress or unacknowledged. */
  predicate Finalizes(ep: EndPoint, ep': EndPoint) {
    && ep.life.state == Closing && |ep.queue| == 0 && !ep.engine.expectingAck
    && (ep.engine.txState == Complete || ep.engine.txState == Idle)
    && ep'.life.state == Closed && ep'.life.graceful && Sound(ep'.life)
    && ep'.hist == ep.hist.(lapsed := ep'.hist.lapsed, faulted := ep'.hist.faulted)
    && ep'.config == ep.config && ep'.life.central == ep.life.central
    && ep'.life.told == ep.life.told && Quieter(ep.life, ep'.life)
    && (ep'.life.unsubscribeTimer ==> ep'.link.gattInFlight)
    && ep'.link.max == ep.link.max && ep'.engine.rxSize == ep.engine.rxSize && ep'.engine.txSize == ep.engine.txSize
    && Dormant(ep')
  }

  /**
   No acknowledgement timer runs to any effect: with the send-ack timer, an unsubscribe keeps the air busy to the
   end.
   */
  predicate Dormant(ep: EndPoint) {
    && !ep.link.ackReceivedTimer && ep.queue == []
    && (ep.link.sendAckTimer ==>
          ep.life.unsubscribeTimer && ep.link.gattInFlight && ep.hist.sends == ep.hist.confirms)
  }

  predicate Drives(ep: EndPoint, ep': EndPoint) {
    || (Quiet(ep, ep') && ep'.link == ep.link && (ep.link.ackPending ==> Blocked(ep)))
    || (Finalizes(ep, ep') && !ep.link.ackPending && !ep.link.gattInFlight)
    || SentOne(ep, ep')
  }

  lemma FinalizeFinalizes(ep: EndPoint, env: Env)
    requires Sound(ep.life) && ep.life.state == Closing
    ensures var ep' := Finalize(ep, env);
      && ep'.life.state == Closed && ep'.life.graceful && Sound(ep'.life) && ep'.life.central == ep.life.central
      && ep'.hist == ep.hist && ep'.config == ep.config && ep'.life.told == ep.life.told
      && Quieter(ep.life, ep'.life) && ep'.link.max == ep.link.max
      && ep'.engine.rxSize == ep.engine.rxSize && ep'.engine.txSize == ep.engine.txSize && Dormant(ep')
      && (ep'.life.unsubscribeTimer ==> ep'.link.gattInFlight)
  {
    FinalizeSound(ep.life, ep.life.state, ep.engine.txState == Idle, CloseFlags(true, false), NoError, env.platform);
    var l1 := ep.life.(state := Closed, graceful := true, cause := NoError);
    assert FinalizeClose(ep.life, Closing, ep.engine.txState == Idle, CloseFlags(true, false), NoError, env.platform)
        == Disconnect(l1, NoError, env.platform);
  }

  lemma DriveSendingDrives(ep: EndPoint, env: Env)
    requires Sound(ep.life) && (ep.link.ackInFlight ==> ep.link.gattInFlight)
    ensures var o := DriveSending(ep, env); o.err == NoError ==> Drives(ep, o.ep)
  {
    if !Blocked(ep) {
      if ep.link.ackPending {
        StandAloneAckSends(ep, env);
      } else if ep.engine.txState == InProgress {
        ContinueSends(ep, env);
      } else if ep.engine.txState == Complete {
        DriveComplete(ep, env);
      } else if ep.engine.txState == Idle && |ep.queue| > 0 {
        NextMessageSends(ep, env);
      }
    }
  }

  lemma DriveComplete(ep: EndPoint, env: Env)
    requires Sound(ep.life) && !Blocked(ep) && !ep.link.ackPending && !ep.link.ackInFlight
    requires ep.engine.txState == Complete
    ensures var o := DriveSending(ep, env); o.err == NoError ==> Drives(ep, o.ep)
  {
    var ep1 := ep.(engine := ClearTx(ep.engine));
    if |ep.queue| > 0 {
      NextMessageSends(ep1, env);
      var o := SendNextMessage(ep1, env);
      if o.err == NoError {
        ClearedSends(ep, o.ep, o.ep.hist.log[|o.ep.hist.log| - 1]);
      }
    } else if ep.life.state == Closing && !ep.engine.expectingAck {
      FinalizeFinalizes(ep1, env);
    }
  }

  // ---------- sending keeps the invariant ----------

  lemma StampRep(e: Engine, withAck: bool, txA: nat, txN: nat, rxA: nat, rxN: nat)
    requires TxRep(e, txA, txN) && RxRep(e, rxA, rxN) && txN < txA + 0x100
    ensures TxRep(Stamp(e, withAck), txA, txN + 1) && RxRep(Stamp(e, withAck), if withAck then rxN else rxA, rxN)
  {
    TakeSeqNumRep(if withAck then RecordAck(e) else e, txA, txN);
  }

  lemma SendsReps(ep: EndPoint, ep': EndPoint, f: Fragment)
    requires Numbers(ep) && Sends(ep, ep', f)
    ensures TxRep(ep'.engine, ep'.hist.txA, TxN(ep')) && RxRep(ep'.engine, ep'.hist.rxA, RxN(ep'))
  {
    StampRep(ep.engine, f.ack.Some?, ep.hist.txA, TxN(ep), ep.hist.rxA, RxN(ep));
    assert TxN(ep') == TxN(ep) + 1;
  }

  lemma SendsSums(ep: EndPoint, ep': EndPoint, f: Fragment)
    requires RemoteSum(ep) && LocalSum(ep) && Sends(ep, ep', f)
    ensures RemoteSum(ep') && LocalSum(ep')
  {
    assert TxN(ep') == TxN(ep) + 1 && RxN(ep') == RxN(ep);
    assert ep'.link.remote == ep.link.remote - 1;
  }

  lemma SendsNumbers(ep: EndPoint, ep': EndPoint, f: Fragment)
    requires Numbers(ep) && Sends(ep, ep', f)
    ensures Numbers(ep')
  {
    SendsReps(ep, ep', f);
    SendsSums(ep, ep', f);
  }

  lemma SendsAir(ep: EndPoint, ep': EndPoint, f: Fragment)
    requires Air(ep) && Sends(ep, ep', f)
    ensures Air(ep') && HeldBack(ep')
  {
  }

  /** One more fragment in the log moves its payload from what is left to what the log means. */
  lemma SendsData(ep: EndPoint, ep': EndPoint, f: Fragment)
    requires SenderData(ep) && ep.capsConfirmed && Sends(ep, ep', f)
    ensures SenderData(ep')
  {
    var a := Assemble(ep.hist.log);
    AssembleExtend(ep.hist.log, f);
    if f.HasData() {
      if ContinuesMessage(ep, ep', f) {
        ContinuesData(ep, ep', f, a);
      } else {
        StartsData(ep, ep', f, a);
      }
    }
  }

  lemma StartsData(ep: EndPoint, ep': EndPoint, f: Fragment, a: Assembly)
    requires a == Assemble(ep.hist.log) && SenderData(ep) && ep.capsConfirmed && Sends(ep, ep', f)
    requires StartsNext(ep, ep', f)
    ensures var a' := AssembleOne(a, f);
      && a'.ok && (a'.open <==> !f.end)
      && (a'.open ==> |ep'.engine.txLeft| > 0 && a'.length == |a'.part| + |ep'.engine.txLeft|)
      && ep.hist.accepted == a'.done + Current(ep', a') + ep'.queue
  {
    var m := ep.queue[0];
    var a' := AssembleOne(a, f);
    assert f.payload + m[|f.payload|..] == m;
    assert ep.hist.accepted == a.done + [m] + ep.queue[1..] by {
      assert ep.queue == [m] + ep.queue[1..];
    }
    if f.end {
      assert f.payload == m;
    }
  }

  lemma ContinuesData(ep: EndPoint, ep': EndPoint, f: Fragment, a: Assembly)
    requires a == Assemble(ep.hist.log) && SenderData(ep) && ep.capsConfirmed && Sends(ep, ep', f)
    requires ContinuesMessage(ep, ep', f)
    ensures var a' := AssembleOne(a, f);
      && a'.ok && (a'.open <==> !f.end)
      && (a'.open ==> |ep'.engine.txLeft| > 0 && a'.length == |a'.part| + |ep'.engine.txLeft|)
      && ep.hist.accepted == a'.done + Current(ep', a') + ep'.queue
  {
    var left := ep.engine.txLeft;
    assert f.payload + left[|f.payload|..] == left;
    assert a.part + left == (a.part + f.payload) + left[|f.payload|..];
    if f.end {
      assert f.payload == left;
    }
  }

  lemma SendsShape(ep: EndPoint, ep': EndPoint, f: Fragment)
    requires Numbers(ep) && SenderData(ep) && LogShape(ep) && Sends(ep, ep', f)
    ensures LogShape(ep')
  {
    var k := |ep.hist.log|;
    assert LogEntry(ep', k) by {
      assert ep'.hist.log[..k] == ep.hist.log;
      FragmentFits(ep, ep', f);
    }
    forall n | 0 <= n < k
      ensures LogEntry(ep', n)
    {
      assert LogEntry(ep, n);
      assert ep'.hist.log[..n] == ep.hist.log[..n];
    }
  }

  lemma FragmentFits(ep: EndPoint, ep': EndPoint, f: Fragment)
    requires SenderData(ep) && Sends(ep, ep', f)
    ensures |f.Wire()| <= ep.engine.txSize
    ensures var a := Assemble(ep.hist.log); a.open ==> |a.part| + |f.payload| <= ep.config.capacity
  {
    var a := Assemble(ep.hist.log);
    if a.open {
      var m := a.part + ep.engine.txLeft;
      assert ep.hist.accepted[|a.done|] == m;
      assert m in ep.hist.accepted;
    }
  }

  /** Sending exactly one fragment keeps everything. */
  lemma SendsKeeps(ep: EndPoint, ep': EndPoint, f: Fragment)
    requires Core(ep) && Sends(ep, ep', f)
    ensures Good(ep')
  {
    SendsNumbers(ep, ep', f);
    SendsAir(ep, ep', f);
    SendsData(ep, ep', f);
    SendsShape(ep, ep', f);
  }

  /** Nothing that `SenderData` and `LogShape` look at differs. */
  predicate SameData(ep: EndPoint, ep': EndPoint) {
    && ep'.hist.log == ep.hist.log && ep'.hist.accepted == ep.hist.accepted
    && ep'.queue == ep.queue && ep'.capsConfirmed == ep.capsConfirmed && ep'.config == ep.config
    && ep'.engine.txLeft == ep.engine.txLeft && ep'.engine.txSize == ep.engine.txSize
    && ep'.engine.txState == ep.engine.txState && ep'.life.central == ep.life.central
  }

  lemma SameDataKeeps(ep: EndPoint, ep': EndPoint)
    requires SenderData(ep) && LogShape(ep) && SameData(ep, ep')
    ensures SenderData(ep') && LogShape(ep')
  {
    assert Waiting(ep') == Waiting(ep);
    forall n | 0 <= n < |ep'.hist.log|
      ensures LogEntry(ep', n)
    {
      assert LogEntry(ep, n);
    }
  }

  lemma QuietKeeps(ep: EndPoint, ep': EndPoint)
    requires Core(ep) && Quiet(ep, ep') && (ep'.link.ackInFlight ==> ep'.link.ackPending)
    ensures Core(ep')
  {
    assert ep'.hist == ep.hist && Waiting(ep') == Waiting(ep);
    forall n | 0 <= n < |ep'.hist.log|
      ensures LogEntry(ep', n)
    {
      assert LogEntry(ep, n);
    }
  }

  lemma DrivesKeeps(ep: EndPoint, ep': EndPoint)
    requires Core(ep) && Drives(ep, ep') && ep'.life.state != Closed
    ensures Good(ep')
  {
    if SentOne(ep, ep') {
      SendsKeeps(ep, ep', ep'.hist.log[|ep'.hist.log| - 1]);
    } else {
      QuietKeeps(ep, ep');
    }
  }

  // ---------- closing ----------

  lemma SettleCloses(ep: EndPoint, l: Life)
    requires ClosedSoundly(ep.life, l)
    ensures var ep' := Settle(ep, l);
      ep'.life == l && ep'.hist == ep.hist && ep'.config == ep.config
  {
  }

  /** Aborting closes for good and leaves the history as it was. */
  lemma AbortCloses(ep: EndPoint, flags: CloseFlags, err: Error, env: Env)
    requires Sound(ep.life) && flags.abort
    ensures var ep' := CloseWith(ep, flags, err, env);
      && ep'.life.state == Closed && ClosedSoundly(ep.life, ep'.life)
      && ep'.hist == ep.hist && ep'.config == ep.config && (ep.life.state != Closed ==> Dormant(ep'))
  {
    DoCloseSound(ep.life, ep.engine.txState == Idle, flags, err, env.platform);
    SettleCloses(ep, DoClose(ep.life, ep.engine.txState == Idle, flags, err, env.platform));
  }

  // ---------- receiving keeps the invariant ----------

  /** The end point once an ack has been taken in and the window reopened. */
  function Opened(ep: EndPoint, ack: uint8): EndPoint {
    OpenWindow(ep.(link := ep.link.(ackReceivedTimer := ep.engine.expectingAck)), ack)
  }

  /** The state in which `r` leaves the end point before it sends anything. */
  function After(ep: EndPoint, r: Received): EndPoint {
    var ep1 := Taken(ep, r);
    if r.ack.Some? then Opened(ep1, r.ack.value) else ep1
  }

  /** `r` is the engine's answer to some packet it accepted. */
  predicate Accepts(ep: EndPoint, r: Received) {
    && r.err == NoError
    && (r.ack.Some? ==> IsValidAck(ep.engine, r.ack.value))
    && SameButBuffer(Bookkeep(ep.engine, r.ack), r.engine)
  }

  lemma AfterTx(ep: EndPoint, r: Received)
    requires Numbers(ep) && Accepts(ep, r)
    ensures var ep' := After(ep, r); TxRep(ep'.engine, ep'.hist.txA, TxN(ep')) && RemoteSum(ep')
    ensures ep.hist.txA <= After(ep, r).hist.txA
  {
    if r.ack.Some? {
      var ack := r.ack.value;
      var txA := ep.hist.txA;
      AcceptAckRep(ep.engine, txA, TxN(ep), ack);
      var acked := Lift(txA, ack);
      LiftResidue(txA, ack);
      assert AfterAck(txA, ack) == acked + 1;
      AdjustIsWithinOne(acked, TxN(ep) - 1, ep.link.max, ep.config.offset);
    }
  }

  lemma AfterRx(ep: EndPoint, r: Received)
    requires Numbers(ep) && Accepts(ep, r)
    ensures var ep' := After(ep, r); RxRep(ep'.engine, ep'.hist.rxA, RxN(ep')) && LocalSum(ep')
  {
    NextResidue(RxN(ep));
    WindowShrinks(ep.link.max, Unacked(ep));
  }

  lemma WindowShrinks(max: uint8, unacked: int)
    ensures Dec8((max - unacked) % 0x100) == (max - (unacked + 1)) % 0x100
  {
  }

  lemma AfterAir(ep: EndPoint, r: Received)
    requires Air(ep) && HeldBack(ep) && Parked(ep) && Accepts(ep, r)
    ensures var ep' := After(ep, r); Air(ep') && Parked(ep') && SameData(ep, ep') && (r.ack.None? ==> HeldBack(ep'))
  {
  }

  lemma AfterKeeps(ep: EndPoint, r: Received)
    requires Good(ep) && Accepts(ep, r)
    ensures Core(After(ep, r)) && (r.ack.None? ==> HeldBack(After(ep, r)))
  {
    AfterTx(ep, r);
    AfterRx(ep, r);
    AfterAir(ep, r);
    SameDataKeeps(ep, After(ep, r));
  }
}
