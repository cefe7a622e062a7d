/** What the reassembler makes of arbitrary bytes from any peer: when it refuses a packet, and what a message then is. */
module Refusals {
  import opened Common
  import opened Fragments
  import opened BtpEngine

  /** Where the payload starts, behind the flags, the ack, the sequence number and the length. */
  function HeaderSize(data: Bytes): nat
    requires HeaderPresent(data)
  {
    2 + (if AckFlag(data[0]) then 1 else 0) + (if StartFlag(data[0]) then 2 else 0)
  }

  function NumberIn(data: Bytes): uint8
    requires HeaderPresent(data)
  {
    data[if AckFlag(data[0]) then 2 else 1]
  }

  /** The message length that a first fragment announces; later ones go by the one announced before. */
  function LengthIn(e: Engine, data: Bytes): nat
    requires HeaderPresent(data)
  {
    if !StartFlag(data[0]) then e.rxLength
    else data[HeaderSize(data) - 2] as int + 0x100 * (data[HeaderSize(data) - 1] as int)
  }

  /** What is behind the header, of a packet cut to the fragment size. */
  function Payload(e: Engine, data: Bytes): Bytes
    requires HeaderPresent(data)
  {
    var kept := data[..Min(|data|, e.rxSize)];
    if HeaderSize(data) <= |kept| then kept[HeaderSize(data)..] else []
  }

  /** What has been reassembled with this packet: its payload behind what there was. */
  function Gathered(e: Engine, data: Bytes): Bytes
    requires HeaderPresent(data)
  {
    if StartFlag(data[0]) then Payload(e, data) else e.rxBuf + Payload(e, data)
  }

  predicate AckFits(e: Engine, data: Bytes)
    requires HeaderPresent(data)
  {
    AckFlag(data[0]) ==> IsValidAck(e, data[1])
  }

  /** The ack is one that can be, and the number is the next. */
  predicate InSequence(e: Engine, data: Bytes)
    requires HeaderPresent(data)
  {
    AckFits(e, data) && NumberIn(data) == e.rxNext
  }

  /** The packet carries message data and belongs where the reassembler is: a start between messages, else none. */
  predicate InPlace(e: Engine, data: Bytes)
    requires HeaderPresent(data)
  {
    if StartFlag(data[0]) then e.rxState == Idle else e.rxState == InProgress
  }

  /** Ack and number are looked at first, and a packet without message data is done with then. */
  lemma AdmittedIff(e: Engine, data: Bytes, capacity: nat, buffer: bool)
    requires HeaderPresent(data)
    ensures var err := Receive(e, data, capacity, buffer).err;
      && (!AckFits(e, data) ==> err == InvalidAck)
      && (AckFits(e, data) && NumberIn(data) != e.rxNext ==> err == InvalidSequenceNumber)
      && (InSequence(e, data) && !DataFlags(data[0]) ==> err == NoError)
  {
  }

  lemma StartRefusedIff(e: Engine, data: Bytes, capacity: nat, buffer: bool)
    requires HeaderPresent(data) && InSequence(e, data) && DataFlags(data[0]) && StartFlag(data[0])
    ensures var err := Receive(e, data, capacity, buffer).err;
      err == if e.rxState == InProgress then InvalidHeaderFlags
             else if e.rxState != Idle then ReassemblerState
             else if !buffer then NoMemory
             else if EndFlag(data[0]) && |Gathered(e, data)| < LengthIn(e, data) then ReassemblerMissingData
             else NoError
  {
  }

  /** The engine once ack and number are accepted. */
  function Admitted(e: Engine, data: Bytes): Engine
    requires HeaderPresent(data)
  {
    (if AckFlag(data[0]) then AcceptAck(e, data[1]) else e).(rxNewest := NumberIn(data), rxNext := Inc8(e.rxNext))
  }

  lemma NextExtends(e: Engine, data: Bytes, capacity: nat, buffer: bool)
    requires HeaderPresent(data) && InSequence(e, data) && DataFlags(data[0]) && !StartFlag(data[0])
    ensures var r := Receive(e, data, capacity, buffer);
      && (e.rxState == InProgress ==>
            (r.engine, r.err) == Extend(Admitted(e, data), data[0], Payload(e, data), capacity))
      && (e.rxState == Idle ==> r.err == InvalidHeaderFlags)
      && (e.rxState != Idle && e.rxState != InProgress ==> r.err == ReassemblerState)
  {
    var cursor := if AckFlag(data[0]) then 3 else 2;
    assert HeaderSize(data) == cursor;
    assert Admit(e, if AckFlag(data[0]) then Some(data[1]) else None, data[cursor - 1]) == (Admitted(e, data), NoError);
  }

  lemma NextRefusedIff(e: Engine, data: Bytes, capacity: nat, buffer: bool)
    requires HeaderPresent(data) && InSequence(e, data) && DataFlags(data[0]) && !StartFlag(data[0])
    ensures var err := Receive(e, data, capacity, buffer).err;
      err == if e.rxState == Idle then InvalidHeaderFlags
             else if e.rxState != InProgress then ReassemblerState
             else if |Gathered(e, data)| > capacity then ReceivedTooBig
             else if EndFlag(data[0]) && |Gathered(e, data)| < LengthIn(e, data) then ReassemblerMissingData
             else NoError
  {
    NextExtends(e, data, capacity, buffer);
  }

  /**
   A packet is refused exactly for the first of these reasons that applies: its ack names nothing outstanding, its
   number is not the next, its flags do not fit the state, no buffer or no room is left, or it ends a message short.
   */
  lemma RefusedIff(e: Engine, data: Bytes, capacity: nat, buffer: bool)
    requires HeaderPresent(data)
    ensures var err := Receive(e, data, capacity, buffer).err;
      var reached := InSequence(e, data) && DataFlags(data[0]);
      var placed := reached && InPlace(e, data);
      var held := placed && (if StartFlag(data[0]) then buffer else |Gathered(e, data)| <= capacity);
      && (err == InvalidAck <==> !AckFits(e, data))
      && (err == InvalidSequenceNumber <==> AckFits(e, data) && NumberIn(data) != e.rxNext)
      && (err == InvalidHeaderFlags <==> reached && !placed && (e.rxState == Idle || e.rxState == InProgress))
      && (err == ReassemblerState <==> reached && (e.rxState == Complete || e.rxState == Failed))
      && (err == NoMemory <==> placed && StartFlag(data[0]) && !buffer)
      && (err == ReceivedTooBig <==> placed && !StartFlag(data[0]) && |Gathered(e, data)| > capacity)
      && (err == ReassemblerMissingData <==> held && EndFlag(data[0]) && |Gathered(e, data)| < LengthIn(e, data))
      && (err == NoError <==> InSequence(e, data) && (DataFlags(data[0]) ==>
            held && (EndFlag(data[0]) ==> |Gathered(e, data)| >= LengthIn(e, data))))
  {
    AdmittedIff(e, data, capacity, buffer);
    if InSequence(e, data) && DataFlags(data[0]) {
      if StartFlag(data[0]) {
        StartRefusedIff(e, data, capacity, buffer);
      } else {
        NextRefusedIff(e, data, capacity, buffer);
      }
    }
  }

  /**
   Whatever a peer sends, a message is complete exactly when an accepted packet ends it, and then it is what was
   gathered, cut to exactly the length that was announced.
   */
  lemma CompleteIsWhole(e: Engine, data: Bytes, capacity: nat, buffer: bool)
    requires HeaderPresent(data) && Receive(e, data, capacity, buffer).err == NoError && DataFlags(data[0])
    ensures var e' := Receive(e, data, capacity, buffer).engine;
      if EndFlag(data[0]) then
        e'.rxState == Complete && |e'.rxBuf| == LengthIn(e, data) && e'.rxBuf <= Gathered(e, data)
      else e'.rxState == InProgress && e'.rxBuf == Gathered(e, data)
  {
  }
}
