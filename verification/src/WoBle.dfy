/**
 The engine as the source has it: an object whose fields change in place and whose fragmenter writes
 each header into the message buffer itself. Every method computes the function of the same meaning in
 module `BtpEngine`.
 */
module WoBleEngine {
  import opened Common
  import opened Fragments
  import opened BtpEngine

  /** One packet buffer of a chain: `alloc` bytes of storage, of which `len` from `start` on are data. */
  class PacketBuffer {
    const data: array<uint8>
    var start: nat
    var len: nat

    ghost predicate Valid()
      reads this
    {
      start + len <= data.Length && len < 0x1_0000
    }

    ghost function Contents(): Bytes
      requires Valid()
      reads this, data
    {
      data[start..start + len]
    }

    constructor (alloc: nat, reserve: nat, payload: Bytes)
      requires reserve + |payload| <= alloc && |payload| < 0x1_0000
      ensures Valid() && fresh(data) && data.Length == alloc && start == reserve
      ensures Contents() == payload
    {
      data := new uint8[alloc](_ => 0);
      start, len := reserve, |payload|;
      new;
      forall i | 0 <= i < |payload| {
        data[reserve + i] := payload[i];
      }
    }

    /** Make room in front of the payload, moving it towards the end of the storage if it must. */
    method EnsureReservedSize(size: nat) returns (ok: bool)
      requires Valid()
      modifies this`start, data
      ensures Valid() && Contents() == old(Contents())
      ensures ok <==> size <= old(start) || size + len <= data.Length
      ensures ok ==> start >= size
      ensures !ok || size <= old(start) ==> start == old(start) && data[..] == old(data[..])
    {
      if size <= start {
        return true;
      }
      if size + len > data.Length {
        return false;
      }
      var move := size - start;
      forall i | 0 <= i < len {
        data[start + move + i] := data[start + i];
      }
      start := start + move;
      return true;
    }
  }

  class WoBle {
    var mRxState: Phase
    var mRxLength: uint16
    var mRxBuf: Bytes
    var mRxNextSeqNum: uint8
    var mRxNewestUnackedSeqNum: uint8
    var mRxOldestUnackedSeqNum: uint8
    var mRxFragmentSize: FragmentSize
    var mTxState: Phase
    var mTxLength: uint16
    var mTxBuf: PacketBuffer?
    var mTxNextSeqNum: uint8
    var mTxNewestUnackedSeqNum: uint8
    var mTxOldestUnackedSeqNum: uint8
    var mExpectingAck: bool
    var mTxFragmentSize: FragmentSize

    /** What the fragmenter still has to emit. */
    ghost var txLeft: Bytes

    /** While a message is in progress the buffer window is the last fragment, and the rest lies behind it. */
    ghost predicate Valid()
      reads this`txLeft, this`mTxState, this`mTxLength, this`mTxBuf, this`mTxFragmentSize
      reads mTxBuf, if mTxBuf != null then {mTxBuf.data} else {}
    {
      && |txLeft| == (if mTxState == InProgress then mTxLength else 0)
      && (mTxState == InProgress ==>
            && mTxBuf != null && mTxBuf.Valid() && mTxLength > 0
            && mTxBuf.len == mTxFragmentSize
            && var rest := mTxBuf.start + mTxFragmentSize;
               rest + mTxLength <= mTxBuf.data.Length && mTxBuf.data[rest..rest + mTxLength] == txLeft)
      && (mTxState == Complete ==> mTxBuf != null && mTxBuf.Valid())
      && (mTxState == Idle ==> mTxBuf == null)
    }

    ghost function Model(): Engine
      reads this
    {
      Engine(mRxState, mRxLength, mRxBuf, mRxNextSeqNum, mRxNewestUnackedSeqNum, mRxOldestUnackedSeqNum,
             mRxFragmentSize, mTxState, txLeft, mTxNextSeqNum, mTxNewestUnackedSeqNum,
             mTxOldestUnackedSeqNum, mExpectingAck, mTxFragmentSize)
    }

    constructor (expectFirstAck: bool)
      ensures Valid() && Model() == Init(expectFirstAck)
    {
      mRxState, mRxLength, mRxBuf := Idle, 0, [];
      mRxNewestUnackedSeqNum, mRxOldestUnackedSeqNum := 0, 0;
      mRxFragmentSize := DEFAULT_FRAGMENT_SIZE;
      mTxState, mTxLength, mTxBuf, txLeft := Idle, 0, null, [];
      mTxFragmentSize := DEFAULT_FRAGMENT_SIZE;
      mTxNewestUnackedSeqNum, mTxOldestUnackedSeqNum := 0, 0;
      if expectFirstAck {
        mTxNextSeqNum, mExpectingAck, mRxNextSeqNum := 1, true, 0;
      } else {
        mTxNextSeqNum, mExpectingAck, mRxNextSeqNum := 0, false, 1;
      }
    }

    method GetAndIncrementNextTxSeqNum() returns (ret: uint8)
      modifies this`mExpectingAck, this`mTxOldestUnackedSeqNum, this`mTxNewestUnackedSeqNum, this`mTxNextSeqNum
      ensures ret == old(mTxNextSeqNum) && Model() == TakeSeqNum(old(Model()))
    {
      ret := mTxNextSeqNum;
      if !mExpectingAck {
        mExpectingAck := true;
        mTxOldestUnackedSeqNum := mTxNextSeqNum;
      }
      mTxNewestUnackedSeqNum := mTxNextSeqNum;
      mTxNextSeqNum := Inc8(mTxNextSeqNum);
    }

    method GetAndRecordRxAckSeqNum() returns (ret: uint8)
      modifies this`mRxNewestUnackedSeqNum, this`mRxOldestUnackedSeqNum
      ensures ret == old(mRxNewestUnackedSeqNum) && Model() == RecordAck(old(Model()))
    {
      ret := mRxNewestUnackedSeqNum;
      mRxNewestUnackedSeqNum := mRxNextSeqNum;
      mRxOldestUnackedSeqNum := mRxNextSeqNum;
    }

    method HandleAckReceived(ackNum: uint8) returns (err: Error)
      modifies this`mExpectingAck, this`mTxOldestUnackedSeqNum
      ensures err == (if IsValidAck(old(Model()), ackNum) then NoError else InvalidAck)
      ensures Model() == if err == NoError then AcceptAck(old(Model()), ackNum) else old(Model())
    {
      var valid;
      if !mExpectingAck {
        valid := false;
      } else if mTxNewestUnackedSeqNum >= mTxOldestUnackedSeqNum {
        valid := ackNum <= mTxNewestUnackedSeqNum && ackNum >= mTxOldestUnackedSeqNum;
      } else {
        valid := ackNum <= mTxNewestUnackedSeqNum || ackNum >= mTxOldestUnackedSeqNum;
      }
      if !valid {
        return InvalidAck;
      }
      mTxOldestUnackedSeqNum := ackNum;
      if mTxNewestUnackedSeqNum == ackNum {
        mExpectingAck := false;
      } else {
        mTxOldestUnackedSeqNum := Inc8(mTxOldestUnackedSeqNum);
      }
      return NoError;
    }

    method EncodeStandAloneAck(data: PacketBuffer) returns (err: Error)
      requires Valid() && data.Valid() && data != mTxBuf && (mTxBuf != null ==> data.data != mTxBuf.data)
      modifies this`mExpectingAck, this`mTxOldestUnackedSeqNum, this`mTxNewestUnackedSeqNum, this`mTxNextSeqNum,
               this`mRxNewestUnackedSeqNum, this`mRxOldestUnackedSeqNum, data`len, data.data
      ensures Valid() && data.Valid()
      ensures err == if data.data.Length - data.start >= 3 then NoError else NoMemory
      ensures err == NoError ==> Model() == SendStandAloneAck(old(Model())).engine
      ensures err == NoError ==> data.Contents() == SendStandAloneAck(old(Model())).fragment.Wire()
      ensures err != NoError ==> Model() == old(Model()) && data.Contents() == old(data.Contents())
    {
      if data.data.Length - data.start < 3 {
        return NoMemory;
      }
      data.data[data.start] := ACK;
      var ack := GetAndRecordRxAckSeqNum();
      data.data[data.start + 1] := ack;
      var seqNum := GetAndIncrementNextTxSeqNum();
      data.data[data.start + 2] := seqNum;
      data.len := 3;
      return NoError;
    }

    /** Record the ack if one rides along, then take a sequence number. */
    method TakeNumbers(sendAck: bool) returns (ack: Option<uint8>, seqNum: uint8)
      modifies this`mExpectingAck, this`mTxOldestUnackedSeqNum, this`mTxNewestUnackedSeqNum, this`mTxNextSeqNum,
               this`mRxNewestUnackedSeqNum, this`mRxOldestUnackedSeqNum
      ensures Model() == Stamp(old(Model()), sendAck)
      ensures ack == AckByte(old(Model()), sendAck) && seqNum == old(mTxNextSeqNum)
    {
      ack := None;
      if sendAck {
        var a := GetAndRecordRxAckSeqNum();
        ack := Some(a);
      }
      seqNum := GetAndIncrementNextTxSeqNum();
    }

    /**
     Put the header of `f` at `at`: flags, the ack if any, the sequence number, and the length if it starts a
     message.
     */
    static method WriteHeader(a: array<uint8>, at: nat, f: Fragment) returns (cursor: nat)
      requires at + |f.Header()| <= a.Length
      modifies a
      ensures cursor == |f.Header()| && a[at..at + cursor] == f.Header()
      ensures forall i :: 0 <= i < a.Length && !(at <= i < at + cursor) ==> a[i] == old(a[i])
    {
      cursor := 1;
      a[at] := f.Flags();
      if f.ack.Some? {
        a[at + cursor] := f.ack.value;
        cursor := cursor + 1;
      }
      a[at + cursor] := f.seqNum;
      cursor := cursor + 1;
      if f.start {
        a[at + cursor] := f.length % 0x100;
        a[at + cursor + 1] := f.length / 0x100;
        cursor := cursor + 2;
      }
    }

    static function HeaderSize(sendAck: bool): nat {
      if sendAck then 3 else 2
    }

    /** Bytes that hold a header followed by what is left hold the fragment followed by the new rest. */
    static lemma WindowIsFragment(a: Bytes, at: nat, header: nat, left: Bytes, f: Fragment)
      requires |f.payload| <= |left| && f.payload == left[..|f.payload|] && |f.Header()| == header
      requires at + header + |left| <= |a|
      requires a[at..at + header] == f.Header() && a[at + header..at + header + |left|] == left
      ensures a[at..at + |f.Wire()|] == f.Wire()
      ensures a[at + |f.Wire()|..at + header + |left|] == left[|f.payload|..]
    {
      var whole := a[at..at + header + |left|];
      assert whole == f.Header() + left;
      assert a[at..at + |f.Wire()|] == whole[..|f.Wire()|];
      assert a[at + |f.Wire()|..at + header + |left|] == whole[|f.Wire()|..];
    }

    static function Piece(first: bool, size: FragmentSize, left: Bytes, ack: Option<uint8>, seqNum: uint8): Fragment
      requires |left| < 0x1_0000
    {
      if first then FirstFragment(size, left, ack, seqNum) else NextFragment(size, left, ack, seqNum)
    }

    static lemma PieceShape(first: bool, size: FragmentSize, left: Bytes, ack: Option<uint8>, seqNum: uint8)
      requires |left| < 0x1_0000
      ensures var f := Piece(first, size, left, ack, seqNum);
              var header := HeaderSize(ack.Some?) + if first then 2 else 0;
              && |f.Header()| == header && |f.payload| <= |left| && f.payload == left[..|f.payload|]
              && |f.Wire()| == header + |f.payload|
              && (f.end <==> |left| + header <= size)
              && |f.Wire()| == (if f.end then header + |left| else size)
              && f.Header() == Fragment(first, !first, f.end, ack, seqNum, if first then |left| else 0, []).Header()
    {
    }

    /**
     Write the header of a fragment at `at`, in front of the `length` bytes left of the message, and narrow the
     window to the fragment. Only the header bytes change.
     */
    static method PutFragment(buf: PacketBuffer, at: nat, header: nat, size: FragmentSize, first: bool,
                              ack: Option<uint8>,
                              seqNum: uint8, length: uint16, ghost left: Bytes) returns (whole: bool)
      requires |left| == length && header == HeaderSize(ack.Some?) + if first then 2 else 0
      requires at + header + length <= buf.data.Length && buf.data[at + header..at + header + length] == left
      modifies buf, buf.data
      ensures buf.start == at && buf.len == (if whole then header + length else size) && buf.Valid()
      ensures header <= buf.len <= header + length && (whole || buf.len < header + length)
      ensures buf.data[at + buf.len..at + header + length] == left[buf.len - header..]
      ensures var f := Piece(first, size, left, ack, seqNum);
              whole == f.end && |f.payload| == buf.len - header && buf.Contents() == f.Wire()
      ensures forall i :: 0 <= i < buf.data.Length && !(at <= i < at + header) ==> buf.data[i] == old(buf.data[i])
    {
      PieceShape(first, size, left, ack, seqNum);
      ghost var f := Piece(first, size, left, ack, seqNum);
      whole := length + header <= size;
      var cursor := WriteHeader(buf.data, at,
        Fragment(first, !first, whole, ack, seqNum, if first then length else 0, []));
      buf.start := at;
      buf.len := if whole then length + cursor else size;
      assert buf.data[at + header..at + header + length] == left;
      WindowIsFragment(buf.data[..], at, header, left, f);
    }

    /** The window of `buf` is the fragment just written; `left` of the message lies behind it. */
    method Advance(buf: PacketBuffer, whole: bool, rest: uint16, ghost left: Bytes)
      requires buf.Valid() && |left| == rest && (whole ==> rest == 0)
        && (!whole ==> buf.len == mTxFragmentSize && rest > 0)
      requires buf.start + buf.len + rest <= buf.data.Length
      requires buf.data[buf.start + buf.len..buf.start + buf.len + rest] == left
      modifies this`mTxBuf, this`mTxLength, this`mTxState, this`txLeft
      ensures Valid() && mTxBuf == buf
      ensures Model() == old(Model()).(txState := if whole then Complete else InProgress, txLeft := left)
    {
      mTxBuf := buf;
      txLeft := left;
      mTxLength := rest;
      mTxState := if whole then Complete else InProgress;
    }

    /** Emit a fragment from `buf`, in which the `length` bytes left of the message start `header` bytes after `at`. */
    method Emit(buf: PacketBuffer, at: nat, header: nat, first: bool, ack: Option<uint8>, seqNum: uint8,
                length: uint16, ghost left: Bytes)
      requires |left| == length && header == HeaderSize(ack.Some?) + if first then 2 else 0
      requires at + header + length <= buf.data.Length && buf.data[at + header..at + header + length] == left
      modifies this`mTxBuf, this`mTxLength, this`mTxState, this`txLeft, buf, buf.data
      ensures Valid() && mTxBuf == buf && buf.start == at && buf.Valid()
      ensures var f := Piece(first, mTxFragmentSize, left, ack, seqNum);
              && buf.Contents() == f.Wire() && |f.payload| <= |left|
              && Model()
                == old(Model()).(txState := if f.end then Complete else InProgress, txLeft := left[|f.payload|..])
      ensures forall i :: 0 <= i < buf.data.Length && !(at <= i < at + header) ==> buf.data[i] == old(buf.data[i])
    {
      var whole := PutFragment(buf, at, header, mTxFragmentSize, first, ack, seqNum, length, left);
      Advance(buf, whole, if whole then 0 else length - (mTxFragmentSize - header), left[buf.len - header..]);
    }

    static predicate HasHeadroom(start: nat, len: nat, alloc: nat, sendAck: bool) {
      HeaderSize(sendAck) + 2 <= start || HeaderSize(sendAck) + 2 + len <= alloc
    }

    /** The first fragment: the whole message is handed over and its header goes in front of it. */
    method SendFirst(data: PacketBuffer, sendAck: bool) returns (ok: bool)
      requires Valid() && mTxState == Idle && data.Valid() && (sendAck ==> HasUnackedData(Model()))
      modifies this, data, data.data
      ensures Valid() && (ok ==> mTxBuf == data)
      ensures var sent := SendFragment(old(Model()), Some(old(data.Contents())), sendAck,
                                       HasHeadroom(old(data.start), old(data.len), data.data.Length, sendAck));
              && ok == sent.ok && Model() == sent.engine
              && (ok ==> data.Contents() == sent.fragment.Wire())
    {
      ghost var m := data.Contents();
      var header := HeaderSize(sendAck) + 2;
      ok := data.EnsureReservedSize(header);
      if ok {
        var ack, seqNum := TakeNumbers(sendAck);
        Emit(data, data.start - header, header, true, ack, seqNum, data.len, m);
      } else {
        mTxState := Failed;
      }
    }

    /**
     A later fragment: its header is written over the tail of the fragment before it. Nothing else in the
     buffer changes, and every byte written was part of the fragment already emitted.
     */
    method SendNext(sendAck: bool)
      requires Valid() && mTxState == InProgress && (sendAck ==> HasUnackedData(Model()))
      modifies this, mTxBuf, mTxBuf.data
      ensures Valid() && mTxBuf == old(mTxBuf)
      ensures var sent := SendFragment(old(Model()), None, sendAck, true);
              sent.ok && Model() == sent.engine && mTxBuf.Contents() == sent.fragment.Wire()
      ensures old(mTxBuf.start) < mTxBuf.start
      ensures mTxBuf.start + HeaderSize(sendAck) == old(mTxBuf.start + mTxBuf.len)
      ensures forall i :: 0 <= i < mTxBuf.data.Length && mTxBuf.data[i] != old(mTxBuf.data[i])
                ==> mTxBuf.start <= i < old(mTxBuf.start + mTxBuf.len)
    {
      var header := HeaderSize(sendAck);
      var ack, seqNum := TakeNumbers(sendAck);
      Emit(mTxBuf, mTxBuf.start + mTxFragmentSize - header, header, false, ack, seqNum, mTxLength, txLeft);
    }

    method HandleCharacteristicSend(data: PacketBuffer?, sendAck: bool) returns (ok: bool)
      requires Valid() && (data != null ==> data.Valid())
      modifies this, data, if data != null then {data.data} else {}, mTxBuf, if mTxBuf != null then {mTxBuf.data}
        else {}
      ensures Valid()
      ensures var m := if data == null then None else Some(old(data.Contents()));
              var room := data != null && HasHeadroom(old(data.start), old(data.len), data.data.Length, sendAck);
              var sent := SendFragment(old(Model()), m, sendAck, room);
              && ok == sent.ok && Model() == sent.engine
              && (ok ==> mTxBuf != null && mTxBuf.Valid() && mTxBuf.Contents() == sent.fragment.Wire())
    {
      if sendAck && mRxOldestUnackedSeqNum == mRxNextSeqNum {
        return false;
      }
      if mTxState == Idle {
        if data == null {
          return false;
        }
        ok := SendFirst(data, sendAck);
      } else if mTxState == InProgress {
        if data != null {
          return false;
        }
        SendNext(sendAck);
        ok := true;
      } else {
        ok := false;
      }
    }

    method ClearTxPacket() returns (ok: bool)
      requires Valid()
      modifies this`mTxState, this`mTxBuf
      ensures Valid() && ok == (old(mTxState) == Complete) && Model() == ClearTx(old(Model()))
    {
      if mTxState == Complete {
        mTxState := Idle;
        mTxBuf := null;
        return true;
      }
      return false;
    }

    method ClearRxPacket() returns (ok: bool)
      requires Valid()
      modifies this`mRxState, this`mRxBuf
      ensures Valid() && ok == (old(mRxState) == Complete) && Model() == ClearRx(old(Model()))
    {
      if mRxState == Complete {
        mRxState := Idle;
        mRxBuf := [];
        return true;
      }
      return false;
    }

    /** `capacity` is the storage of one buffer; `buffer` says whether one could be allocated. */
    method HandleCharacteristicReceived(data: Bytes, capacity: nat, buffer: bool)
      returns (err: Error, receivedAck: uint8, didReceiveAck: bool)
      requires Valid() && HeaderPresent(data)
      modifies this`mRxState, this`mRxLength, this`mRxBuf, this`mRxNextSeqNum, this`mRxNewestUnackedSeqNum,
               this`mExpectingAck, this`mTxOldestUnackedSeqNum
      ensures Valid()
      ensures var r := Receive(old(Model()), data, capacity, buffer);
              && err == r.err && Model() == r.engine
              && didReceiveAck == r.ack.Some? && (didReceiveAck ==> receivedAck == r.ack.value)
    {
      var cursor := 1;
      receivedAck := 0;
      didReceiveAck := AckFlag(data[0]);
      if didReceiveAck {
        receivedAck := data[cursor];
        cursor := cursor + 1;
      }
      err := TakeIn(if didReceiveAck then Some(receivedAck) else None, data, cursor, capacity, buffer);
    }

    /** The packet from its sequence number on. */
    method TakeIn(ack: Option<uint8>, data: Bytes, cursor: nat, capacity: nat, buffer: bool) returns (err: Error)
      requires cursor < |data| && (StartFlag(data[0]) ==> cursor + 3 <= |data|)
      modifies this`mRxState, this`mRxLength, this`mRxBuf, this`mRxNextSeqNum, this`mRxNewestUnackedSeqNum,
               this`mExpectingAck, this`mTxOldestUnackedSeqNum
      ensures (Model(), err) == BtpEngine.TakeIn(old(Model()), ack, data, cursor, capacity, buffer)
    {
      err := AdmitPacket(ack, data[cursor]);
      if err == NoError && DataFlags(data[0]) {
        err := Append(data[0], data, cursor + 1, capacity, buffer);
      }
    }

    method AdmitPacket(ack: Option<uint8>, seqNum: uint8) returns (err: Error)
      modifies this`mRxState, this`mRxNextSeqNum, this`mRxNewestUnackedSeqNum, this`mExpectingAck,
        this`mTxOldestUnackedSeqNum
      ensures (Model(), err) == Admit(old(Model()), ack, seqNum)
    {
      err := NoError;
      if ack.Some? {
        err := HandleAckReceived(ack.value);
      }
      if err == NoError {
        mRxNewestUnackedSeqNum := seqNum;
        if mRxNewestUnackedSeqNum != mRxNextSeqNum {
          err := InvalidSequenceNumber;
        } else {
          mRxNextSeqNum := Inc8(mRxNextSeqNum);
        }
      }
      if err != NoError {
        mRxState := Failed;
      }
    }

    method Append(flags: uint8, data: Bytes, at: nat, capacity: nat, buffer: bool) returns (err: Error)
      requires StartFlag(flags) ==> at + 2 <= |data|
      modifies this`mRxState, this`mRxLength, this`mRxBuf
      ensures (Model(), err) == Reassemble(old(Model()), flags, data, at, capacity, buffer)
    {
      var kept := data[..Min(|data|, mRxFragmentSize)];
      if mRxState == Idle && StartFlag(flags) {
        err := BeginMessage(flags, Word(data[at], data[at + 1]), Drop(kept, at + 2), buffer);
      } else if mRxState == InProgress && !StartFlag(flags) {
        err := ExtendMessage(flags, Drop(kept, at), capacity);
      } else {
        err := if mRxState == Idle || mRxState == InProgress then InvalidHeaderFlags else ReassemblerState;
        mRxState := Failed;
      }
    }

    method BeginMessage(flags: uint8, length: uint16, payload: Bytes, buffer: bool) returns (err: Error)
      modifies this`mRxState, this`mRxLength, this`mRxBuf
      ensures (Model(), err) == Begin(old(Model()), flags, length, payload, buffer)
    {
      mRxLength := length;
      mRxState := InProgress;
      if !buffer {
        mRxState := Failed;
        return NoMemory;
      }
      mRxBuf := payload;
      err := FinishMessage(flags);
    }

    method ExtendMessage(flags: uint8, payload: Bytes, capacity: nat) returns (err: Error)
      modifies this`mRxState, this`mRxBuf
      ensures (Model(), err) == Extend(old(Model()), flags, payload, capacity)
    {
      mRxBuf := mRxBuf + payload;
      if |mRxBuf| > capacity {
        mRxState := Failed;
        return ReceivedTooBig;
      }
      err := FinishMessage(flags);
    }

    method FinishMessage(flags: uint8) returns (err: Error)
      modifies this`mRxState, this`mRxBuf
      ensures (Model(), err) == Finish(old(Model()), flags)
    {
      err := NoError;
      if EndFlag(flags) {
        var padding := |mRxBuf| - mRxLength;
        if padding > 0 {
          mRxBuf := mRxBuf[..mRxLength];
        }
        if |mRxBuf| != mRxLength {
          mRxState := Failed;
          err := ReassemblerMissingData;
        } else {
          mRxState := Complete;
        }
      }
    }
  }
}
