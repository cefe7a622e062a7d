/**
 How an end point closes: DoClose, FinalizeClose, the close callback and Free. The application's callback may
 close the end point again from inside, to any depth; a `Script` says what it does there.
 */
module Lifecycle {
  import opened Common

  datatype State = Ready | Connecting | Aborting | Connected | Closing | Closed

  function Rank(s: State): nat {
    match s
    case Ready => 0
    case Connecting => 1
    case Aborting => 2
    case Connected => 3
    case Closing => 4
    case Closed => 5
  }

  datatype CloseFlags = CloseFlags(suppress: bool, abort: bool)

  /** What a callback does before it returns; `nested` is what its own close does if that calls back in turn. */
  datatype Script = Return | Call(call: CloseCall, nested: Script, next: Script)
  datatype CloseCall = CallClose | CallAbort | ReportError(err: Error)

  /** Outcomes of the platform calls made while closing, and the application's behaviour. */
  datatype Platform = Platform(unsubscribeSent: bool, unsubscribeDone: bool, timerStarted: bool, app: Script)

  /**
   What the application is told: that the connection is open, through OnConnectComplete or OnWeaveBleConnectReceived;
   that connecting failed, through OnConnectComplete with an error; or that the connection is over.
   */
  datatype Notice = ConnectionOpened | ConnectFailed(err: Error) | ConnectionClosed(err: Error)

  /**
   The fields that closing reads and writes. `told` lists the notices the application got; `handBacks` and `frees`
   count the times the BLE connection was given back and the releases of the allocation reference. `cause` records
   the error with which the close was finalized, and `graceful` that it was finalized without being aborted.
   */
  datatype Life = Life(
    state: State, central: bool, hasConnection: bool, refCount: int,
    onConnectComplete: bool, onConnectionClosed: bool, onMessageReceived: bool,
    didBeginSubscribe: bool, connectTimer: bool, receiveTimer: bool, unsubscribeTimer: bool,
    told: seq<Notice>, handBacks: nat, frees: nat, cause: Error, graceful: bool)

  /** A new end point, with the callbacks its owner has set. */
  function Created(central: bool, onConnectComplete: bool, onConnectionClosed: bool, onMessageReceived: bool): Life {
    Life(Ready, central, true, 1, onConnectComplete, onConnectionClosed, onMessageReceived,
         false, false, false, false, [], 0, 0, NoError, false)
  }

  predicate IsConnected(l: Life) {
    l.state == Connected || l.state == Closing
  }

  function ReleaseConnection(l: Life): Life {
    l.(handBacks := l.handBacks + (if l.hasConnection then 1 else 0), hasConnection := false)
  }

  function Free(l: Life): Life {
    ReleaseConnection(l).(
      connectTimer := false, receiveTimer := false, unsubscribeTimer := false,
      onConnectComplete := false, onConnectionClosed := false, onMessageReceived := false,
      refCount := l.refCount - 1, frees := l.frees + 1)
  }

  /** The underlying BLE connection is gone. */
  predicate Severed(err: Error) {
    err == RemoteDisconnected || err == AppClosedConnection
  }

  /** The end of FinalizeClose: free at once, or tell the peripheral by unsubscribing and free when that completes. */
  function Disconnect(l: Life, err: Error, p: Platform): Life {
    if Severed(err) then Free(l.(hasConnection := false))
    else if l.central && l.didBeginSubscribe then
      if !p.unsubscribeSent then Free(l)
      else if p.unsubscribeDone then Free(l)
      else if !l.hasConnection then l
      else if p.timerStarted then l.(unsubscribeTimer := true)
      else Free(l)
    else Free(l)
  }

  function FinalizeClose(l: Life, was: State, txIdle: bool, flags: CloseFlags, err: Error, p: Platform): Life
    decreases p.app, 2
  {
    var l1 := l.(state := Closed, graceful := was == Closing && !flags.abort, cause := err);
    var l2 := if was != Closing && !flags.suppress then CloseCallback(l1, was, txIdle, err, p) else l1;
    Disconnect(l2, err, p)
  }

  /** A central stops its connect timer, a peripheral its receive-connection timer. */
  function StopHandshakeTimer(l: Life): Life {
    l.(connectTimer := l.connectTimer && !l.central, receiveTimer := l.receiveTimer && l.central)
  }

  predicate ClosesNow(l: Life, flags: CloseFlags) {
    (l.state != Closed && l.state != Closing) || (l.state == Closing && flags.abort)
  }

  function DoClose(l: Life, txIdle: bool, flags: CloseFlags, err: Error, p: Platform): Life
    decreases p.app, 3
  {
    if !ClosesNow(l, flags) then l
    else
      var l1 := StopHandshakeTimer(l);
      if txIdle || flags.abort then FinalizeClose(l1, l.state, txIdle, flags, err, p)
      else
        var l2 := l1.(state := Closing);
        if flags.suppress then l2 else CloseCallback(l2, l.state, txIdle, err, p)
  }

  function CloseCallback(l: Life, was: State, txIdle: bool, err: Error, p: Platform): Life
    decreases p.app, 1, 1
  {
    Notify(l, was, txIdle, err, p).(onConnectComplete := false, onConnectionClosed := false)
  }

  /** A callback that is set runs, and the application does in it what it will. */
  function Notify(l: Life, was: State, txIdle: bool, err: Error, p: Platform): Life
    decreases p.app, 1, 0
  {
    if was == Connecting then
      if l.onConnectComplete then RunApp(Tell(l, ConnectFailed(err)), txIdle, p) else l
    else
      if l.onConnectionClosed then RunApp(Tell(l, ConnectionClosed(err)), txIdle, p) else l
  }

  function Tell(l: Life, n: Notice): Life {
    l.(told := l.told + [n])
  }

  function RunApp(l: Life, txIdle: bool, p: Platform): Life
    decreases p.app, 0
  {
    match p.app
    case Return => l
    case Call(call, nested, next) =>
      RunApp(DoClose(Prelude(l, call), txIdle, FlagsOf(call), ErrorOf(call), p.(app := nested)), txIdle,
        p.(app := next))
  }

  /** Close and Abort first clear every callback; a reported error does not. */
  function Prelude(l: Life, call: CloseCall): Life {
    if call.ReportError? then l
    else l.(onConnectComplete := false, onConnectionClosed := false, onMessageReceived := false)
  }

  function FlagsOf(call: CloseCall): CloseFlags {
    CloseFlags(!call.ReportError?, !call.CallClose?)
  }

  function ErrorOf(call: CloseCall): Error {
    if call.ReportError? then call.err else NoError
  }

  /** Close(), Abort(), or an error the platform reports. */
  function Perform(l: Life, call: CloseCall, txIdle: bool, p: Platform): Life {
    DoClose(Prelude(l, call), txIdle, FlagsOf(call), ErrorOf(call), p)
  }

  /**
   HandleUnsubscribeComplete, which the platform reports, or a timeout stands in for, after an unsubscribe was sent.
   */
  function UnsubscribeComplete(l: Life): Life {
    Free(l)
  }

  // ---------- one step of unfolding ----------

  lemma DoCloseUnfold(l: Life, txIdle: bool, flags: CloseFlags, err: Error, p: Platform)
    ensures var l1 := StopHandshakeTimer(l);
      DoClose(l, txIdle, flags, err, p) ==
        if !ClosesNow(l, flags) then l
        else if txIdle || flags.abort then FinalizeClose(l1, l.state, txIdle, flags, err, p)
        else if flags.suppress then l1.(state := Closing)
        else CloseCallback(l1.(state := Closing), l.state, txIdle, err, p)
  {
  }

  lemma FinalizeUnfold(l: Life, was: State, txIdle: bool, flags: CloseFlags, err: Error, p: Platform)
    ensures var l1 := l.(state := Closed, graceful := was == Closing && !flags.abort, cause := err);
      FinalizeClose(l, was, txIdle, flags, err, p) ==
        Disconnect(if was != Closing && !flags.suppress then CloseCallback(l1, was, txIdle, err, p) else l1, err, p)
  {
  }

  lemma DisconnectCloses(l: Life, err: Error, p: Platform)
    requires l.state == Closed
    ensures Disconnect(l, err, p).state == Closed
  {
    var l1 := l.(hasConnection := false);
    assert Free(l).state == Closed && Free(l1).state == Closed;
  }

  // ---------- invariant ----------

  /** The application was told that connecting failed, or that the connection is over. */
  predicate Parted(told: seq<Notice>) {
    |told| > 0 && !told[|told| - 1].ConnectionOpened?
  }

  /** The application is told at most once that the connection is open, and at most once, after that, of its end. */
  predicate Orderly(told: seq<Notice>) {
    |told| <= 2 && (|told| == 2 ==> told[0].ConnectionOpened? && told[1].ConnectionClosed?)
  }

  /** What the application is told of a close that leads away from state `was`: the notice it asked for, if it did. */
  function Notices(l: Life, was: State, err: Error): seq<Notice> {
    if was == Connecting then if l.onConnectComplete then [ConnectFailed(err)] else []
    else if l.onConnectionClosed then [ConnectionClosed(err)]
    else []
  }

  /** What holds of every end point between events. */
  predicate Sound(l: Life) {
    && Steady(l)
    && Orderly(l.told) && (Rank(l.state) < 3 ==> l.told == [])
    && (Parted(l.told) ==> Rank(l.state) >= 4 && !l.onConnectComplete && !l.onConnectionClosed)
    && (l.state == Closed ==> l.frees == 1 || l.unsubscribeTimer)
    && (l.state == Closing ==> !l.onMessageReceived)
  }

  /** The part that holds at every instant, also inside a callback. */
  predicate Steady(l: Life) {
    && 0 <= l.frees <= 1 && (l.frees == 0 ==> l.refCount == 1) && (l.frees == 1 ==> l.refCount == 0)
    && (l.frees == 0 ==> l.handBacks == 0) && (l.frees == 1 ==> l.handBacks == if Severed(l.cause) then 0 else 1)
    && (l.unsubscribeTimer ==> l.central && l.state == Closed && l.frees == 0 && !Severed(l.cause))
    && (l.state != Closed ==> l.frees == 0) && (l.frees == 0 ==> l.hasConnection)
    && (l.frees == 1 ==> !l.hasConnection && !l.onConnectComplete && !l.onConnectionClosed && !l.onMessageReceived)
    && (l.central ==> !l.receiveTimer) && (!l.central ==> !l.connectTimer)
    && (Rank(l.state) >= 3 ==> !l.connectTimer && !l.receiveTimer)
    && (l.graceful ==> l.state == Closed)
  }

  /** No callback is set that was not set before. */
  predicate Quieter(l: Life, r: Life) {
    && (r.onConnectComplete ==> l.onConnectComplete) && (r.onConnectionClosed ==> l.onConnectionClosed)
    && (r.onMessageReceived ==> l.onMessageReceived)
  }

  /** An end point but for its callbacks. */
  function Bare(l: Life): Life {
    l.(onConnectComplete := false, onConnectionClosed := false, onMessageReceived := false)
  }

  lemma {:induction false} ClosedStaysBare(l: Life, txIdle: bool, p: Platform)
    requires l.state == Closed
    ensures Bare(RunApp(l, txIdle, p)) == Bare(l) && Quieter(l, RunApp(l, txIdle, p))
    decreases p.app
  {
    if p.app.Call? {
      AppInClosed(l, txIdle, p);
      ClosedStaysBare(Prelude(l, p.app.call), txIdle, p.(app := p.app.next));
    }
  }

  /** A call from inside a callback after Closed does no more than clear callbacks. */
  lemma AppInClosed(l: Life, txIdle: bool, p: Platform)
    requires l.state == Closed && p.app.Call?
    ensures var l1 := Prelude(l, p.app.call);
      && RunApp(l, txIdle, p) == RunApp(l1, txIdle, p.(app := p.app.next))
      && l1.state == Closed && Bare(l1) == Bare(l) && Quieter(l, l1)
  {
    PerformInClosed(l, p.app.call, txIdle, p.(app := p.app.nested));
  }

  /** Once the state is Closed, nothing the application does in a callback changes more than which callbacks are set. */
  lemma ClosedIsFinal(l: Life, txIdle: bool, p: Platform)
    requires l.state == Closed
    ensures var r := RunApp(l, txIdle, p);
      Quieter(l, r) &&
      r == l.(onConnectComplete := r.onConnectComplete, onConnectionClosed := r.onConnectionClosed,
              onMessageReceived := r.onMessageReceived)
  {
    ClosedStaysBare(l, txIdle, p);
    var r := RunApp(l, txIdle, p);
    assert r == Bare(r).(onConnectComplete := r.onConnectComplete, onConnectionClosed := r.onConnectionClosed,
                         onMessageReceived := r.onMessageReceived);
  }

  /** A callback fired after the state is Closed only clears callbacks. */
  lemma ClosedCallback(l: Life, was: State, txIdle: bool, err: Error, p: Platform)
    requires l.state == Closed
    ensures var r := CloseCallback(l, was, txIdle, err, p);
      r.state == Closed && r.frees == l.frees && r.unsubscribeTimer == l.unsubscribeTimer
  {
    if Notices(l, was, err) != [] {
      var l1 := Tell(l, Notices(l, was, err)[0]);
      assert Notify(l, was, txIdle, err, p) == RunApp(l1, txIdle, p);
      ClosedStaysBare(l1, txIdle, p);
    }
  }

  lemma PerformInClosed(l: Life, call: CloseCall, txIdle: bool, p: Platform)
    requires l.state == Closed
    ensures DoClose(Prelude(l, call), txIdle, FlagsOf(call), ErrorOf(call), p) == Prelude(l, call)
    ensures Perform(l, call, txIdle, p) == Prelude(l, call)
  {
    DoCloseUnfold(Prelude(l, call), txIdle, FlagsOf(call), ErrorOf(call), p);
  }

  lemma PerformStaysClosed(l: Life, call: CloseCall, txIdle: bool, p: Platform)
    ensures l.state == Closed ==> Perform(l, call, txIdle, p).state == Closed
  {
    if l.state == Closed {
      PerformInClosed(l, call, txIdle, p);
    }
  }

  /** Nor does it matter then what the fragmenter is doing. */
  lemma {:induction false} ClosedIgnoresFragmenter(l: Life, txIdle: bool, txIdle': bool, p: Platform)
    requires l.state == Closed
    ensures RunApp(l, txIdle, p) == RunApp(l, txIdle', p)
    decreases p.app
  {
    match p.app
    case Return =>
    case Call(call, nested, next) =>
      assert DoClose(Prelude(l, call), txIdle, FlagsOf(call), ErrorOf(call), p.(app := nested)) == Prelude(l, call);
      assert DoClose(Prelude(l, call), txIdle', FlagsOf(call), ErrorOf(call), p.(app := nested)) == Prelude(l, call);
      ClosedIgnoresFragmenter(Prelude(l, call), txIdle, txIdle', p.(app := next));
  }

  /** Nothing but who holds what differs: the connection, the references, the timers and the callbacks. */
  predicate SameStory(l: Life, r: Life) {
    && r.told == l.told && r.graceful == l.graceful && r.cause == l.cause
    && r.central == l.central && r.didBeginSubscribe == l.didBeginSubscribe && Quieter(l, r)
  }

  lemma FreeSteady(l: Life)
    requires Steady(l) && l.state == Closed && l.frees == 0
    ensures var l' := if Severed(l.cause) then l.(hasConnection := false) else l;
      var r := Free(l'); Steady(r) && r.state == Closed && r.frees == 1 && SameStory(l, r)
  {
  }

  /** A closed end point is freed, or kept only until its unsubscribe completes. */
  lemma DisconnectSteady(l: Life, err: Error, p: Platform)
    requires Steady(l) && l.state == Closed && l.frees == 0 && !l.unsubscribeTimer && l.cause == err
    ensures var r := Disconnect(l, err, p);
      Steady(r) && r.state == Closed && (r.frees == 1 || r.unsubscribeTimer) && SameStory(l, r)
  {
    FreeSteady(l);
    assert Disconnect(l, err, p) in {Free(l), Free(l.(hasConnection := false)), l.(unsubscribeTimer := true)};
  }

  /** What a second close from inside a callback can do to an end point that is closing. */
  predicate NoSecondCallback(l: Life, r: Life) {
    && Steady(r) && Rank(r.state) >= 4 && r.told == l.told && r.central == l.central
    && r.didBeginSubscribe == l.didBeginSubscribe
    && (r.state == Closed ==> (r.frees == 1 || r.unsubscribeTimer) && !r.graceful)
    && Quieter(l, r)
  }

  /** Inside a callback fired on the way to Closing: a second close may finalize, but fires no second callback. */
  lemma {:induction false} ClosingKeeps(l: Life, txIdle: bool, p: Platform)
    requires l.state == Closing && Steady(l)
    ensures NoSecondCallback(l, RunApp(l, txIdle, p))
    decreases p.app
  {
    match p.app
    case Return =>
    case Call(call, nested, next) =>
      var p1 := p.(app := nested);
      var l1 := Perform(l, call, txIdle, p1);
      PerformInClosing(l, call, txIdle, p1);
      if l1.state == Closing {
        ClosingKeeps(l1, txIdle, p.(app := next));
      } else {
        ClosedIsFinal(l1, txIdle, p.(app := next));
      }
  }

  lemma PerformInClosing(l: Life, call: CloseCall, txIdle: bool, p: Platform)
    requires l.state == Closing && Steady(l)
    ensures NoSecondCallback(l, Perform(l, call, txIdle, p))
  {
    var l0 := Prelude(l, call);
    if call.CallClose? {
      assert DoClose(l0, txIdle, FlagsOf(call), ErrorOf(call), p) == l0;
    } else {
      AbortInClosing(l0, txIdle, FlagsOf(call), ErrorOf(call), p);
    }
  }

  lemma AbortUnfold(l: Life, txIdle: bool, flags: CloseFlags, err: Error, p: Platform)
    requires l.state == Closing && flags.abort
    ensures DoClose(l, txIdle, flags, err, p)
         == Disconnect(StopHandshakeTimer(l).(state := Closed, graceful := false, cause := err), err, p)
  {
    var l1 := StopHandshakeTimer(l);
    assert DoClose(l, txIdle, flags, err, p) == FinalizeClose(l1, Closing, txIdle, flags, err, p);
  }

  lemma AbortInClosing(l: Life, txIdle: bool, flags: CloseFlags, err: Error, p: Platform)
    requires l.state == Closing && Steady(l) && flags.abort
    ensures NoSecondCallback(l, DoClose(l, txIdle, flags, err, p))
  {
    AbortUnfold(l, txIdle, flags, err, p);
    DisconnectSteady(StopHandshakeTimer(l).(state := Closed, graceful := false, cause := err), err, p);
  }

  /** What the application can do in a callback that runs on the way to Closing, or after Closed. */
  predicate Within(l: Life, r: Life) {
    && Steady(r) && Rank(r.state) >= Rank(l.state)
    && r.central == l.central && r.didBeginSubscribe == l.didBeginSubscribe && Quieter(l, r)
    && (l.state == Closed ==> r.frees == l.frees && r.unsubscribeTimer == l.unsubscribeTimer
                              && r.graceful == l.graceful && r.cause == l.cause)
    && (l.state == Closing && r.state == Closed ==> (r.frees == 1 || r.unsubscribeTimer) && !r.graceful)
  }

  lemma AppKeeps(l: Life, txIdle: bool, p: Platform)
    requires Steady(l) && Rank(l.state) >= 4
    ensures var r := RunApp(l, txIdle, p); Within(l, r) && r.told == l.told
  {
    if l.state == Closed {
      ClosedIsFinal(l, txIdle, p);
    } else {
      ClosingKeeps(l, txIdle, p);
    }
  }

  /** The application is told what it asked for, and in its callback nothing more. */
  lemma NotifyKeeps(l: Life, was: State, txIdle: bool, err: Error, p: Platform)
    requires Steady(l) && Rank(l.state) >= 4
    ensures var r := Notify(l, was, txIdle, err, p); Within(l, r) && r.told == l.told + Notices(l, was, err)
  {
    if Notices(l, was, err) != [] {
      var l1 := Tell(l, Notices(l, was, err)[0]);
      assert Notify(l, was, txIdle, err, p) == RunApp(l1, txIdle, p);
      AppKeeps(l1, txIdle, p);
    }
  }

  /** The callback fires at most once, whatever it does, and afterwards none is set. */
  lemma CallbackKeeps(l: Life, was: State, txIdle: bool, err: Error, p: Platform)
    requires Steady(l) && Rank(l.state) >= 4
    ensures var r := CloseCallback(l, was, txIdle, err, p);
      && Within(l, r) && r.told == l.told + Notices(l, was, err)
      && !r.onConnectComplete && !r.onConnectionClosed
  {
    NotifyKeeps(l, was, txIdle, err, p);
  }

  lemma FinalizeSound(l: Life, was: State, txIdle: bool, flags: CloseFlags, err: Error, p: Platform)
    requires Sound(l) && l.state != Closed && was == l.state && !l.connectTimer && !l.receiveTimer
    ensures var r := FinalizeClose(l, was, txIdle, flags, err, p);
      && Sound(r) && r.state == Closed && r.central == l.central && r.graceful == (was == Closing && !flags.abort)
      && r.told == l.told + (if flags.suppress || was == Closing then [] else Notices(l, was, err))
      && r.cause == err && r.didBeginSubscribe == l.didBeginSubscribe && Quieter(l, r)
  {
    var l1 := l.(state := Closed, graceful := was == Closing && !flags.abort, cause := err);
    if was != Closing && !flags.suppress {
      CallbackKeeps(l1, was, txIdle, err, p);
      DisconnectSteady(CloseCallback(l1, was, txIdle, err, p), err, p);
    } else {
      DisconnectSteady(l1, err, p);
    }
  }

  /** What any close does to a sound end point. */
  predicate ClosedSoundly(l: Life, r: Life) {
    && Sound(r) && Rank(r.state) >= Rank(l.state) && r.central == l.central
    && (r.graceful ==> l.graceful) && r.didBeginSubscribe == l.didBeginSubscribe && Quieter(l, r)
    && (!l.onConnectComplete && !l.onConnectionClosed ==> r.told == l.told)
  }

  lemma LingerUnfold(l: Life, txIdle: bool, flags: CloseFlags, err: Error, p: Platform)
    requires ClosesNow(l, flags) && !txIdle && !flags.abort
    ensures var l2 := StopHandshakeTimer(l).(state := Closing);
      DoClose(l, txIdle, flags, err, p) == if flags.suppress then l2 else CloseCallback(l2, l.state, txIdle, err, p)
  {
  }

  lemma LingerCallback(l: Life, was: State, txIdle: bool, err: Error, p: Platform)
    requires Sound(l) && Rank(l.state) < 4 && l.state == was && !l.onMessageReceived
    ensures ClosedSoundly(l, CloseCallback(StopHandshakeTimer(l).(state := Closing), was, txIdle, err, p))
  {
    CallbackKeeps(StopHandshakeTimer(l).(state := Closing), was, txIdle, err, p);
  }

  lemma LingerSound(l: Life, txIdle: bool, flags: CloseFlags, err: Error, p: Platform)
    requires Sound(l) && ClosesNow(l, flags) && !txIdle && !flags.abort && !l.onMessageReceived
    ensures ClosedSoundly(l, DoClose(l, txIdle, flags, err, p))
  {
    LingerUnfold(l, txIdle, flags, err, p);
    if !flags.suppress {
      LingerCallback(l, l.state, txIdle, err, p);
    }
  }

  /**
   Lifecycle: over every close, from any event, with any callback behaviour, the state never moves back, the
   callback fires at most once and not at all once it has been cleared, the connection is handed back at most
   once and the allocation reference released at most once.
   */
  lemma DoCloseSound(l: Life, txIdle: bool, flags: CloseFlags, err: Error, p: Platform)
    requires Sound(l) && (flags.abort || !l.onMessageReceived)
    ensures ClosedSoundly(l, DoClose(l, txIdle, flags, err, p))
    ensures flags.abort ==> DoClose(l, txIdle, flags, err, p).state == Closed
  {
    var r := DoClose(l, txIdle, flags, err, p);
    if !ClosesNow(l, flags) {
      assert r == l;
    } else if txIdle || flags.abort {
      CloseNowSound(l, txIdle, flags, err, p);
    } else {
      LingerSound(l, txIdle, flags, err, p);
    }
  }

  lemma CloseNowSound(l: Life, txIdle: bool, flags: CloseFlags, err: Error, p: Platform)
    requires Sound(l) && ClosesNow(l, flags) && (txIdle || flags.abort)
    ensures var r := DoClose(l, txIdle, flags, err, p); ClosedSoundly(l, r) && r.state == Closed
  {
    var l1 := StopHandshakeTimer(l);
    DoCloseUnfold(l, txIdle, flags, err, p);
    FinalizeSound(l1, l.state, txIdle, flags, err, p);
  }

  /**
   The application is told of a close exactly once, if it asked to be: by the notice for the state it closes from, with
   the error it closes with, unless the close is suppressed or it has been told before.
   */
  lemma CloseTells(l: Life, txIdle: bool, flags: CloseFlags, err: Error, p: Platform)
    requires Sound(l)
    ensures var r := DoClose(l, txIdle, flags, err, p);
      && r.told == l.told + (if flags.suppress || Rank(l.state) >= 4 then [] else Notices(l, l.state, err))
      && (ClosesNow(l, flags) && (txIdle || flags.abort) ==> r.state == Closed && r.cause == err)
  {
    if ClosesNow(l, flags) {
      if txIdle || flags.abort {
        FinalizeTells(l, txIdle, flags, err, p);
      } else {
        LingerUnfold(l, txIdle, flags, err, p);
        LingerTells(l, txIdle, flags, err, p);
      }
    } else {
      assert DoClose(l, txIdle, flags, err, p) == l;
    }
  }

  lemma FinalizeTells(l: Life, txIdle: bool, flags: CloseFlags, err: Error, p: Platform)
    requires Sound(l) && ClosesNow(l, flags) && (txIdle || flags.abort)
    ensures var r := DoClose(l, txIdle, flags, err, p);
      && r.told == l.told + (if flags.suppress || Rank(l.state) >= 4 then [] else Notices(l, l.state, err))
      && r.state == Closed && r.cause == err
  {
    var l1 := StopHandshakeTimer(l);
    assert DoClose(l, txIdle, flags, err, p) == FinalizeClose(l1, l.state, txIdle, flags, err, p);
    FinalizeSound(l1, l.state, txIdle, flags, err, p);
  }

  lemma LingerTells(l: Life, txIdle: bool, flags: CloseFlags, err: Error, p: Platform)
    requires Sound(l) && Rank(l.state) < 4
    ensures var l2 := StopHandshakeTimer(l).(state := Closing);
      (if flags.suppress then l2 else CloseCallback(l2, l.state, txIdle, err, p)).told
        == l.told + (if flags.suppress then [] else Notices(l, l.state, err))
  {
    CallbackKeeps(StopHandshakeTimer(l).(state := Closing), l.state, txIdle, err, p);
  }

  /** Close and Abort clear every callback, and the application hears nothing of them. */
  lemma CallSilences(l: Life, call: CloseCall, txIdle: bool, p: Platform)
    requires Sound(l) && !call.ReportError?
    ensures var r := Perform(l, call, txIdle, p);
      r.told == l.told && !r.onConnectComplete && !r.onConnectionClosed && !r.onMessageReceived
  {
    CloseTells(Prelude(l, call), txIdle, FlagsOf(call), ErrorOf(call), p);
    DoCloseSound(Prelude(l, call), txIdle, FlagsOf(call), ErrorOf(call), p);
  }

  /**
   When a close is finalized the end point waits for its unsubscribe exactly if it is a central that began to
   subscribe, the BLE connection is still there, and the platform took the unsubscribe, left it pending and started
   the timer for it; otherwise it is released at once.
   */
  lemma WaitsIff(l: Life, txIdle: bool, flags: CloseFlags, err: Error, p: Platform)
    requires Sound(l) && ClosesNow(l, flags) && (txIdle || flags.abort)
    ensures var r := DoClose(l, txIdle, flags, err, p);
      var waits := l.central && l.didBeginSubscribe && !Severed(err) &&
        p.unsubscribeSent && !p.unsubscribeDone && p.timerStarted;
      (r.unsubscribeTimer <==> waits) && r.frees == if waits then 0 else 1
  {
    var l1 := StopHandshakeTimer(l);
    DoCloseUnfold(l, txIdle, flags, err, p);
    FinalizeSound(l1, l.state, txIdle, flags, err, p);
    FinalizeWaits(l1, l.state, txIdle, flags, err, p);
  }

  lemma FinalizeWaits(l: Life, was: State, txIdle: bool, flags: CloseFlags, err: Error, p: Platform)
    requires Sound(l) && l.state != Closed && was == l.state && !l.connectTimer && !l.receiveTimer
    ensures FinalizeClose(l, was, txIdle, flags, err, p).unsubscribeTimer <==>
      l.central && l.didBeginSubscribe && !Severed(err) && p.unsubscribeSent && !p.unsubscribeDone && p.timerStarted
  {
    var l1 := l.(state := Closed, graceful := was == Closing && !flags.abort, cause := err);
    if was != Closing && !flags.suppress {
      CallbackKeeps(l1, was, txIdle, err, p);
    }
  }

  /** A close by the application, or a reported error, of an open end point: closed at once, or lingering. */
  lemma PerformSound(l: Life, call: CloseCall, txIdle: bool, p: Platform)
    requires Sound(l) && IsConnected(l)
    ensures var r := Perform(l, call, txIdle, p);
      && ClosedSoundly(l, r)
      && (r.state == Closed ||
          (r.state == Closing && call == CallClose && !r.onMessageReceived && (l.state == Closing || !txIdle)))
  {
    DoCloseSound(Prelude(l, call), txIdle, FlagsOf(call), ErrorOf(call), p);
    if call == CallClose {
      CloseUnfold(Prelude(l, call), txIdle, p);
    }
  }

  /** A graceful close of an open end point lingers exactly while the fragmenter holds a message. */
  lemma CloseUnfold(l: Life, txIdle: bool, p: Platform)
    requires Sound(l) && IsConnected(l)
    ensures var r := DoClose(l, txIdle, CloseFlags(true, false), NoError, p);
      && (l.state == Closing ==> r == l)
      && (l.state == Connected && !txIdle ==> r.state == Closing && r.onMessageReceived == l.onMessageReceived)
      && (l.state == Connected && txIdle ==> r.state == Closed)
  {
    var l1 := StopHandshakeTimer(l);
    var flags := CloseFlags(true, false);
    if l.state == Connected && txIdle {
      assert DoClose(l, txIdle, flags, NoError, p) == FinalizeClose(l1, l.state, txIdle, flags, NoError, p);
      FinalizeSound(l1, l.state, txIdle, flags, NoError, p);
    }
  }

  /** Any close or error before the connection is open, or with nothing in the fragmenter, closes at once. */
  lemma IdleCloses(l: Life, call: CloseCall, p: Platform)
    requires Sound(l) && Rank(l.state) < 4
    ensures var r := Perform(l, call, true, p); ClosedSoundly(l, r) && r.state == Closed
  {
    var l0, flags, err := Prelude(l, call), FlagsOf(call), ErrorOf(call);
    CloseNowSound(l0, true, flags, err, p);
  }

  lemma UnsubscribeCompleteSound(l: Life)
    requires Sound(l) && l.unsubscribeTimer
    ensures var r := UnsubscribeComplete(l); Sound(r) && r.frees == 1 && r.handBacks == 1 && SameStory(l, r)
  {
  }
}
