/**
 The WoBle protocol engine as a value: sequence and acknowledgement bookkeeping, the fragmenter and
 the reassembler. Class `WoBle` (module `WoBleEngine`) is proved to compute these functions in place.
 */
module BtpEngine {
  import opened Common
  import opened Fragments

  datatype Phase = Idle | InProgress | Complete | Failed

  /** `txLeft` is the payload the fragmenter still has to emit; the source keeps its length in mTxLength. */
  datatype Engine = Engine(
    rxState: Phase, rxLength: uint16, rxBuf: Bytes,
    rxNext: uint8, rxNewest: uint8, rxOldest: uint8, rxSize: FragmentSize,
    txState: Phase, txLeft: Bytes,
    txNext: uint8, txNewest: uint8, txOldest: uint8, expectingAck: bool, txSize: FragmentSize)

  function Init(expectFirstAck: bool): Engine {
    Engine(Idle, 0, [], if expectFirstAck then 0 else 1, 0, 0, DEFAULT_FRAGMENT_SIZE,
           Idle, [], if expectFirstAck then 1 else 0, 0, 0, expectFirstAck, DEFAULT_FRAGMENT_SIZE)
  }

  /** The state after GetAndIncrementNextTxSeqNum, which returns `e.txNext`. */
  function TakeSeqNum(e: Engine): Engine {
    e.(txOldest := if e.expectingAck then e.txOldest else e.txNext,
       expectingAck := true, txNewest := e.txNext, txNext := Inc8(e.txNext))
  }

  /** The state after GetAndRecordRxAckSeqNum, which returns `e.rxNewest`. */
  function RecordAck(e: Engine): Engine {
    e.(rxNewest := e.rxNext, rxOldest := e.rxNext)
  }

  predicate HasUnackedData(e: Engine) {
    e.rxOldest != e.rxNext
  }

  predicate IsValidAck(e: Engine, ack: uint8) {
    e.expectingAck &&
    if e.txNewest >= e.txOldest
    then e.txOldest <= ack <= e.txNewest
    else ack <= e.txNewest || ack >= e.txOldest
  }

  function AcceptAck(e: Engine, ack: uint8): Engine {
    if e.txNewest == ack
    then e.(txOldest := ack, expectingAck := false)
    else e.(txOldest := Inc8(ack))
  }

  // ---------- sending ----------

  datatype Sent = Sent(engine: Engine, ok: bool, fragment: Fragment)

  const NO_FRAGMENT := Fragment(false, false, false, None, 0, 0, [])

  /** The ack byte that a fragment sent now carries, if it carries one. */
  function AckByte(e: Engine, withAck: bool): Option<uint8> {
    if withAck then Some(e.rxNewest) else None
  }

  function Stamp(e: Engine, withAck: bool): Engine {
    TakeSeqNum(if withAck then RecordAck(e) else e)
  }

  function SendStandAloneAck(e: Engine): Sent {
    Sent(Stamp(e, true), true, StandAloneAck(e.rxNewest, e.txNext))
  }

  /**
   HandleCharacteristicSend. `m` is the message handed over when the fragmenter is idle; `headroom`
   says whether the message buffer could make room for the header.
   */
  function SendFragment(e: Engine, m: Option<Message>, withAck: bool, headroom: bool): Sent {
    if withAck && !HasUnackedData(e) then Sent(e, false, NO_FRAGMENT)
    else match e.txState
    case Idle =>
      if m.None? then Sent(e, false, NO_FRAGMENT)
      else if !headroom then Sent(e.(txState := Failed), false, NO_FRAGMENT)
      else
        var f := FirstFragment(e.txSize, m.value, AckByte(e, withAck), e.txNext);
        Sent(Emitted(e, f, m.value, withAck), true, f)
    case InProgress =>
      if m.Some? then Sent(e, false, NO_FRAGMENT)
      else
        var f := NextFragment(e.txSize, e.txLeft, AckByte(e, withAck), e.txNext);
        Sent(Emitted(e, f, e.txLeft, withAck), true, f)
    case _ => Sent(e, false, NO_FRAGMENT)
  }

  function Emitted(e: Engine, f: Fragment, left: Bytes, withAck: bool): Engine
    requires |f.payload| <= |left|
  {
    Stamp(e, withAck).(txState := if f.end then Complete else InProgress, txLeft := left[|f.payload|..])
  }

  function ClearTx(e: Engine): Engine {
    if e.txState == Complete then e.(txState := Idle, txLeft := []) else e
  }

  // ---------- receiving ----------

  datatype Received = Received(engine: Engine, err: Error, ack: Option<uint8>)

  /** The header a packet announces is present in full. */
  predicate HeaderPresent(data: Bytes) {
    |data| >= 2 &&
    |data| >= 2 + (if AckFlag(data[0]) then 1 else 0) + (if StartFlag(data[0]) then 2 else 0)
  }

  /**
   HandleCharacteristicReceived. `capacity` is what one packet buffer holds; `buffer` says whether a
   reassembly buffer could be allocated.
   */
  function Receive(e: Engine, data: Bytes, capacity: nat, buffer: bool): Received
    requires HeaderPresent(data)
  {
    var ack := if AckFlag(data[0]) then Some(data[1]) else None;
    var (e1, err) := TakeIn(e, ack, data, if AckFlag(data[0]) then 2 else 1, capacity, buffer);
    Received(e1, err, ack)
  }

  /** The packet from its sequence number on. */
  function TakeIn(e: Engine, ack: Option<uint8>, data: Bytes, cursor: nat, capacity: nat, buffer: bool): (Engine, Error)
    requires cursor < |data| && (StartFlag(data[0]) ==> cursor + 3 <= |data|)
  {
    var (e1, err) := Admit(e, ack, data[cursor]);
    if err != NoError || !DataFlags(data[0]) then (e1, err)
    else Reassemble(e1, data[0], data, cursor + 1, capacity, buffer)
  }

  /** The ack and sequence number of a packet, before its payload is looked at. */
  function Admit(e: Engine, ack: Option<uint8>, seqNum: uint8): (Engine, Error) {
    if ack.Some? && !IsValidAck(e, ack.value) then (e.(rxState := Failed), InvalidAck)
    else
      var e1 := (if ack.Some? then AcceptAck(e, ack.value) else e).(rxNewest := seqNum);
      if seqNum != e.rxNext then (e1.(rxState := Failed), InvalidSequenceNumber)
      else (e1.(rxNext := Inc8(e.rxNext)), NoError)
  }

  function Word(low: uint8, high: uint8): uint16 {
    low as int + 0x100 * high
  }

  function Drop(data: Bytes, n: nat): Bytes {
    if n <= |data| then data[n..] else []
  }

  /** The reassembler proper: `data` is truncated to the negotiated size and appended. */
  function Reassemble(e: Engine, flags: uint8, data: Bytes, cursor: nat, capacity: nat, buffer: bool): (Engine, Error)
    requires StartFlag(flags) ==> cursor + 2 <= |data|
  {
    var kept := data[..Min(|data|, e.rxSize)];
    match e.rxState
    case Idle => if StartFlag(flags)
      then Begin(e, flags, Word(data[cursor], data[cursor + 1]), Drop(kept, cursor + 2), buffer)
                 else (e.(rxState := Failed), InvalidHeaderFlags)
    case InProgress => if StartFlag(flags) then (e.(rxState := Failed), InvalidHeaderFlags)
                       else Extend(e, flags, Drop(kept, cursor), capacity)
    case _ => (e.(rxState := Failed), ReassemblerState)
  }

  function Begin(e: Engine, flags: uint8, length: uint16, payload: Bytes, buffer: bool): (Engine, Error) {
    if !buffer then (e.(rxLength := length, rxState := Failed), NoMemory)
    else Finish(e.(rxLength := length, rxState := InProgress, rxBuf := payload), flags)
  }

  function Extend(e: Engine, flags: uint8, payload: Bytes, capacity: nat): (Engine, Error) {
    var e1 := e.(rxBuf := e.rxBuf + payload);
    if |e1.rxBuf| > capacity then (e1.(rxState := Failed), ReceivedTooBig)
    else Finish(e1, flags)
  }

  function Finish(e: Engine, flags: uint8): (Engine, Error) {
    if !EndFlag(flags) then (e, NoError)
    else
      var trimmed := if |e.rxBuf| > e.rxLength then e.rxBuf[..e.rxLength] else e.rxBuf;
      if |trimmed| != e.rxLength then (e.(rxBuf := trimmed, rxState := Failed), ReassemblerMissingData)
      else (e.(rxBuf := trimmed, rxState := Complete), NoError)
  }

  function ClearRx(e: Engine): Engine {
    if e.rxState == Complete then e.(rxState := Idle, rxBuf := []) else e
  }
}
