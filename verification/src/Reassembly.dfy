/** The reassembler against the meaning of a fragment log, and the fragment/reassemble round trip. */
module Reassembly {
  import opened Common
  import opened Fragments
  import opened BtpEngine

  /** The sequence and ack bookkeeping of one accepted fragment. */
  function Bookkeep(e: Engine, ack: Option<uint8>): Engine {
    (if ack.Some? then AcceptAck(e, ack.value) else e).(rxNewest := e.rxNext, rxNext := Inc8(e.rxNext))
  }

  predicate SameButBuffer(e: Engine, e': Engine) {
    e' == e.(rxState := e'.rxState, rxLength := e'.rxLength, rxBuf := e'.rxBuf)
  }

  lemma ReassembleKeeps(e: Engine, flags: uint8, data: Bytes, cursor: nat, capacity: nat, buffer: bool)
    requires StartFlag(flags) ==> cursor + 2 <= |data|
    ensures var (e', err) := Reassemble(e, flags, data, cursor, capacity, buffer);
      SameButBuffer(e, e') && (err == NoError ==> e'.rxState != Failed)
  {
  }

  /** Whatever packet is accepted: its ack was valid, and only the reassembly buffer moves besides the numbers. */
  lemma ReceiveBookkeeps(e: Engine, data: Bytes, capacity: nat, buffer: bool)
    requires HeaderPresent(data)
    ensures var r := Receive(e, data, capacity, buffer);
      r.err == NoError ==>
        && (r.ack.Some? ==> IsValidAck(e, r.ack.value))
        && SameButBuffer(Bookkeep(e, r.ack), r.engine)
        && (r.engine.rxState == Failed ==> e.rxState == Failed)
  {
    var flags := data[0];
    var cursor := if AckFlag(flags) then 2 else 1;
    var (e1, err) := Admit(e, if AckFlag(flags) then Some(data[1]) else None, data[cursor]);
    ReassembleKeeps(e1, flags, data, cursor + 1, capacity, buffer);
  }

  lemma FlagBits(f: Fragment)
    ensures StartFlag(f.Flags()) == f.start
    ensures ContinueFlag(f.Flags()) == f.continues
    ensures EndFlag(f.Flags()) == f.end
    ensures AckFlag(f.Flags()) == f.ack.Some?
  {
  }

  /** The bytes of a fragment read back as the fields they were written from. */
  lemma WireFields(f: Fragment)
    ensures HeaderPresent(f.Wire())
    ensures f.Wire()[0] == f.Flags()
    ensures f.ack.Some? ==> f.Wire()[1] == f.ack.value
    ensures f.Wire()[if f.ack.Some? then 2 else 1] == f.seqNum
    ensures var c := if f.ack.Some? then 3 else 2;
      && (f.start ==> Word(f.Wire()[c], f.Wire()[c + 1]) == f.length && f.Wire()[c + 2..] == f.payload)
      && (!f.start ==> f.Wire()[c..] == f.payload)
  {
    FlagBits(f);
  }

  /** The reassembly state agrees with the meaning of the fragments accepted so far. */
  predicate RxMatches(e: Engine, a: Assembly) {
    && a.ok
    && (a.open ==> e.rxState == InProgress && e.rxLength == a.length && e.rxBuf == a.part)
    && (!a.open ==> e.rxState == Idle)
  }

  /**
   A fragment that continues the log and fits is accepted exactly when its number is the expected one and its
   ack, if any, is valid; whenever one is accepted, the reassembler then holds what the longer log means.
   */
  lemma ReceiveAssembles(e: Engine, a: Assembly, f: Fragment, capacity: nat, buffer: bool)
    requires RxMatches(e, a) && AssembleOne(a, f).ok && |f.Wire()| <= e.rxSize
    ensures HeaderPresent(f.Wire())
    ensures var r := Receive(e, f.Wire(), capacity, buffer);
      && (buffer && (a.open ==> |a.part| + |f.payload| <= capacity) ==>
            (r.err == NoError <==> f.seqNum == e.rxNext && (f.ack.Some? ==> IsValidAck(e, f.ack.value))))
      && (r.err == NoError ==>
            && f.seqNum == e.rxNext
            && r.ack == f.ack
            && var a' := AssembleOne(a, f);
            if |a'.done| == |a.done| then RxMatches(r.engine, a')
            else r.engine.rxState == Complete && a'.done == a.done + [r.engine.rxBuf] && !a'.open)
  {
    WireFields(f);
    FlagBits(f);
    var data := f.Wire();
    assert data[..Min(|data|, e.rxSize)] == data;
  }

  // ---------- round trip ----------

  function Feed(e: Engine, fs: seq<Fragment>, capacity: nat): seq<Received>
    decreases |fs|
  {
    if |fs| == 0 then []
    else
      WireFields(fs[0]);
      var r := Receive(e, fs[0].Wire(), capacity, true);
      [r] + Feed(r.engine, fs[1..], capacity)
  }

  /** Every piggybacked ack is one the receiving engine is waiting for when it arrives. */
  predicate AcksExpected(e: Engine, fs: seq<Fragment>, capacity: nat)
    decreases |fs|
  {
    |fs| == 0 ||
    (WireFields(fs[0]);
     && (fs[0].ack.Some? ==> IsValidAck(e, fs[0].ack.value))
     && AcksExpected(Receive(e, fs[0].Wire(), capacity, true).engine, fs[1..], capacity))
  }

  /** In progress on all fragments but the last, complete on the last, and the buffer is the message. */
  predicate Reassembles(rs: seq<Received>, m: Message) {
    && |rs| > 0
    && (forall i :: 0 <= i < |rs| ==> rs[i].err == NoError)
    && (forall i :: 0 <= i < |rs| - 1 ==> rs[i].engine.rxState == InProgress)
    && rs[|rs| - 1].engine.rxState == Complete
    && rs[|rs| - 1].engine.rxBuf == m
  }

  lemma FeedCons(e: Engine, f: Fragment, fs: seq<Fragment>, capacity: nat)
    ensures HeaderPresent(f.Wire())
    ensures var r := Receive(e, f.Wire(), capacity, true);
      && Feed(e, [f] + fs, capacity) == [r] + Feed(r.engine, fs, capacity)
      && (AcksExpected(e, [f] + fs, capacity) <==>
            (f.ack.Some? ==> IsValidAck(e, f.ack.value)) && AcksExpected(r.engine, fs, capacity))
  {
    WireFields(f);
    assert ([f] + fs)[1..] == fs;
  }

  lemma ReassemblesCons(r: Received, rs: seq<Received>, m: Message)
    requires r.err == NoError && r.engine.rxState == InProgress && Reassembles(rs, m)
    ensures Reassembles([r] + rs, m)
  {
    var all := [r] + rs;
    assert forall i :: 0 < i < |all| ==> all[i] == rs[i - 1];
  }

  /** The buffer holds the first `k` bytes of `m`, and the message goes on. */
  predicate Holds(e: Engine, m: Message, k: nat) {
    k <= |m| && e.rxState == InProgress && e.rxLength == |m| && e.rxBuf == m[..k]
  }

  /** One fragment carrying the bytes from `k` on, fed to a buffer that holds the first `k`. */
  lemma FeedPiece(e: Engine, m: Message, k: nat, f: Fragment, num: nat, capacity: nat)
    requires |m| <= capacity && |f.Wire()| <= e.rxSize
    requires k + |f.payload| <= |m| && f.payload == m[k..k + |f.payload|]
    requires if f.start then k == 0 && e.rxState == Idle && f.length == |m| else f.continues && Holds(e, m, k)
    requires f.end <==> k + |f.payload| == |m|
    requires e.rxNext == f.seqNum == num % 0x100 && (f.ack.Some? ==> IsValidAck(e, f.ack.value))
    ensures HeaderPresent(f.Wire())
    ensures var r := Receive(e, f.Wire(), capacity, true);
      && r.err == NoError
      && r.engine.rxNext == (num + 1) % 0x100 && r.engine.rxSize == e.rxSize
      && (f.end ==> r.engine.rxState == Complete && r.engine.rxBuf == m)
      && (!f.end ==> Holds(r.engine, m, k + |f.payload|))
  {
    var a := if f.start then EMPTY_ASSEMBLY else Assembly(true, [], true, |m|, m[..k]);
    var a' := if f.end then Assembly(true, [m], false, 0, []) else Assembly(true, [], true, |m|, m[..k + |f.payload|]);
    PieceAssembles(a, m, k, f);
    ReceiveAssembles(e, a, f, capacity, true);
    var r := Receive(e, f.Wire(), capacity, true);
    PieceReceived(r, a, a', m, k, f);
    PieceCounts(e, f, capacity, num);
  }

  lemma PieceCounts(e: Engine, f: Fragment, capacity: nat, num: nat)
    requires HeaderPresent(f.Wire()) && Receive(e, f.Wire(), capacity, true).err == NoError && e.rxNext == num % 0x100
    ensures var r := Receive(e, f.Wire(), capacity, true);
      r.engine.rxNext == (num + 1) % 0x100 && r.engine.rxSize == e.rxSize
  {
    ReceiveBookkeeps(e, f.Wire(), capacity, true);
  }

  lemma PieceReceived(r: Received, a: Assembly, a': Assembly, m: Message, k: nat, f: Fragment)
    requires k + |f.payload| <= |m| && a.done == []
    requires a' == if f.end then Assembly(true, [m], false, 0, [])
      else Assembly(true, [], true, |m|, m[..k + |f.payload|])
    requires if |a'.done| == |a.done| then RxMatches(r.engine, a')
             else r.engine.rxState == Complete && a'.done == a.done + [r.engine.rxBuf]
    ensures f.end ==> r.engine.rxState == Complete && r.engine.rxBuf == m
    ensures !f.end ==> Holds(r.engine, m, k + |f.payload|)
  {
    if f.end {
      assert a'.done[0] == r.engine.rxBuf;
    }
  }

  lemma PieceAssembles(a: Assembly, m: Message, k: nat, f: Fragment)
    requires k + |f.payload| <= |m| && f.payload == m[k..k + |f.payload|]
    requires if f.start then k == 0 && a == EMPTY_ASSEMBLY && f.length == |m|
             else f.continues && a == Assembly(true, [], true, |m|, m[..k])
    requires f.end <==> k + |f.payload| == |m|
    ensures AssembleOne(a, f) ==
            if f.end then Assembly(true, [m], false, 0, []) else Assembly(true, [], true, |m|, m[..k + |f.payload|])
  {
    assert m[..k] + f.payload == m[..k + |f.payload|];
    assert m[..|m|] == m;
  }

  /** The same as the first of several fragments. */
  lemma FeedNext(e: Engine, m: Message, k: nat, f: Fragment, rest: seq<Fragment>, num: nat, capacity: nat)
    returns (r: Received)
    requires |m| <= capacity && |f.Wire()| <= e.rxSize
    requires k + |f.payload| <= |m| && f.payload == m[k..k + |f.payload|]
    requires !f.start && f.continues && Holds(e, m, k)
    requires (f.end <==> k + |f.payload| == |m|) && (f.end ==> rest == [])
    requires e.rxNext == f.seqNum == num % 0x100 && AcksExpected(e, [f] + rest, capacity)
    ensures Feed(e, [f] + rest, capacity) == [r] + Feed(r.engine, rest, capacity)
    ensures AcksExpected(r.engine, rest, capacity)
    ensures r.err == NoError && r.engine.rxNext == (num + 1) % 0x100 && r.engine.rxSize == e.rxSize
    ensures f.end ==> Feed(e, [f] + rest, capacity) == [r] && Reassembles([r], m)
    ensures !f.end ==> Holds(r.engine, m, k + |f.payload|)
  {
    FeedCons(e, f, rest, capacity);
    FeedPiece(e, m, k, f, num, capacity);
    r := Receive(e, f.Wire(), capacity, true);
  }

  lemma RestUnfolds(size: FragmentSize, m: Message, k: nat, num: nat, acks: nat -> Option<uint8>)
    returns (f: Fragment, rest: seq<Fragment>)
    requires k < |m|
    ensures Rest(size, m[k..], num, acks) == [f] + rest
    ensures var n := |f.payload|;
      && 0 < n && k + n <= |m| && f.payload == m[k..k + n] && |f.Wire()| <= size
      && !f.start && f.continues && f.seqNum == num % 0x100
      && (f.end <==> k + n == |m|) && (f.end ==> rest == [])
      && (!f.end ==> rest == Rest(size, m[k + n..], num + 1, acks))
  {
    var left := m[k..];
    f := NextFragment(size, left, acks(num), num % 0x100);
    var n := |f.payload|;
    assert left[n..] == m[k + n..];
    rest := if f.end then [] else Rest(size, left[n..], num + 1, acks);
  }

  lemma {:induction false} RestRoundTrip(e: Engine, size: FragmentSize, m: Message, k: nat, num: nat,
                                         acks: nat -> Option<uint8>, capacity: nat)
    requires k < |m| <= capacity && size <= e.rxSize
    requires Holds(e, m, k) && e.rxNext == num % 0x100
    requires AcksExpected(e, Rest(size, m[k..], num, acks), capacity)
    ensures Reassembles(Feed(e, Rest(size, m[k..], num, acks), capacity), m)
    ensures |Feed(e, Rest(size, m[k..], num, acks), capacity)| == |Rest(size, m[k..], num, acks)|
    decreases |m| - k
  {
    var f, rest := RestUnfolds(size, m, k, num, acks);
    var r := FeedNext(e, m, k, f, rest, num, capacity);
    if !f.end {
      RestRoundTrip(r.engine, size, m, k + |f.payload|, num + 1, acks, capacity);
      ReassemblesCons(r, Feed(r.engine, rest, capacity), m);
    }
  }

  /**
   Round trip: for every message, fragment size and choice of piggybacked acks, feeding the fragments in
   order to an idle reassembler whose size is at least the sender's yields exactly the message.
   */
  lemma RoundTrip(e: Engine, size: FragmentSize, m: Message, num: nat, acks: nat -> Option<uint8>, capacity: nat)
    requires |m| <= capacity && size <= e.rxSize
    requires e.rxState == Idle && e.rxNext == num % 0x100
    requires AcksExpected(e, Cut(size, m, num, acks), capacity)
    ensures Reassembles(Feed(e, Cut(size, m, num, acks), capacity), m)
    ensures |Feed(e, Cut(size, m, num, acks), capacity)| == |Cut(size, m, num, acks)|
  {
    var f := FirstFragment(size, m, acks(num), num % 0x100);
    var n := |f.payload|;
    var rest := if f.end then [] else Rest(size, m[n..], num + 1, acks);
    assert Cut(size, m, num, acks) == [f] + rest;
    FeedCons(e, f, rest, capacity);
    FeedPiece(e, m, 0, f, num, capacity);
    if !f.end {
      var r := Receive(e, f.Wire(), capacity, true);
      RestRoundTrip(r.engine, size, m, n, num + 1, acks, capacity);
      ReassemblesCons(r, Feed(r.engine, rest, capacity), m);
    }
  }
}
