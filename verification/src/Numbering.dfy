/**
 What the engine's 8-bit sequence fields stand for. Fragments are numbered without bound; a field holds
 its number modulo 256. `txA <= n < txN` are the fragments sent and not yet acknowledged, and
 `rxA <= n < rxN` those received and not yet acknowledged.
 */
module Numbering {
  import opened Common
  import opened BtpEngine

  predicate TxRep(e: Engine, txA: nat, txN: nat) {
    && txA <= txN <= txA + 0x100
    && e.txNext == txN % 0x100
    && (e.expectingAck <==> txA < txN)
    && (txA < txN ==> e.txOldest == txA % 0x100)
    && (txN > 0 ==> e.txNewest == (txN - 1) % 0x100)
  }

  predicate RxRep(e: Engine, rxA: nat, rxN: nat) {
    && rxA <= rxN
    && e.rxNext == rxN % 0x100
    && e.rxOldest == rxA % 0x100
    && e.rxNewest == AckNumber(rxA, rxN) % 0x100
  }

  /** The number an ack encoded now names: the newest fragment received, or the next one when all are acked. */
  function AckNumber(rxA: nat, rxN: nat): nat {
    if rxA < rxN then rxN - 1 else rxN
  }

  /** The one number at or above `from` whose residue is `b`, among the next 256. */
  function Lift(from: nat, b: uint8): nat {
    from + (b - from) % 0x100
  }

  lemma LiftUnique(from: nat, n: nat)
    requires from <= n < from + 0x100
    ensures Lift(from, n % 0x100) == n
  {
  }

  /** At start-up the peripheral has sent its handshake indication, numbered 0, and the central has received it. */
  lemma InitRep(expectFirstAck: bool)
    ensures TxRep(Init(expectFirstAck), 0, if expectFirstAck then 1 else 0)
    ensures RxRep(Init(expectFirstAck), 0, if expectFirstAck then 0 else 1)
  {
  }

  lemma ValidAckLift(e: Engine, txA: nat, txN: nat, ack: uint8)
    requires TxRep(e, txA, txN)
    ensures IsValidAck(e, ack) <==> Lift(txA, ack) < txN
  {
    if txA < txN {
      IntervalTest(txA, txN - 1, ack);
    }
  }

  lemma IntervalTest(lo: nat, hi: nat, b: uint8)
    requires lo <= hi < lo + 0x100
    ensures Lift(lo, b) <= hi <==>
            if hi % 0x100 >= lo % 0x100
            then lo % 0x100 <= b <= hi % 0x100
            else b <= hi % 0x100 || b >= lo % 0x100
  {
    var page, offset := lo / 0x100, lo % 0x100;
    assert lo == 0x100 * page + offset;
    assert Lift(lo, b) == 0x100 * page + (if b >= offset then b as int else b + 0x100);
    assert hi < 0x100 * (page + 1) ==> hi % 0x100 == hi - 0x100 * page;
    assert hi >= 0x100 * (page + 1) ==> hi % 0x100 == hi - 0x100 * (page + 1);
  }

  /** The wrapping interval test accepts exactly the residues of the outstanding fragments. */
  lemma ValidAckIff(e: Engine, txA: nat, txN: nat, ack: uint8)
    requires TxRep(e, txA, txN)
    ensures IsValidAck(e, ack) <==> exists n :: txA <= n < txN && n % 0x100 == ack
  {
    ValidAckLift(e, txA, txN, ack);
    if Lift(txA, ack) < txN {
      assert Lift(txA, ack) % 0x100 == ack;
    }
    forall n | txA <= n < txN && n % 0x100 == ack
      ensures Lift(txA, ack) == n
    {
      LiftUnique(txA, n);
    }
  }

  /** After an accepted ack exactly the newer fragments are outstanding. */
  lemma AcceptAckRep(e: Engine, txA: nat, txN: nat, ack: uint8)
    requires TxRep(e, txA, txN) && IsValidAck(e, ack)
    ensures txA <= Lift(txA, ack) < txN
    ensures TxRep(AcceptAck(e, ack), Lift(txA, ack) + 1, txN)
  {
    ValidAckLift(e, txA, txN, ack);
    var n := Lift(txA, ack);
    LiftResidue(txA, ack);
    SameResidue(txA, n, txN - 1);
    NextResidue(n);
    if n == txN - 1 {
      assert e.txNewest == ack;
    } else {
      assert e.txNewest != ack;
    }
  }

  lemma LiftResidue(from: nat, b: uint8)
    ensures Lift(from, b) % 0x100 == b
    ensures from <= Lift(from, b) < from + 0x100
  {
  }

  lemma NextResidue(n: nat)
    ensures Inc8(n % 0x100) == (n + 1) % 0x100
  {
  }

  lemma SameResidue(from: nat, m: nat, n: nat)
    requires from <= m < from + 0x100 && from <= n < from + 0x100
    ensures m % 0x100 == n % 0x100 <==> m == n
  {
  }

  /** Taking a number adds one outstanding fragment, as long as fewer than 256 are outstanding. */
  lemma TakeSeqNumRep(e: Engine, txA: nat, txN: nat)
    requires TxRep(e, txA, txN) && txN < txA + 0x100
    ensures e.txNext == txN % 0x100
    ensures TxRep(TakeSeqNum(e), txA, txN + 1)
  {
  }

  /** Encoding an ack names the newest fragment received and leaves nothing to acknowledge. */
  lemma RecordAckRep(e: Engine, rxA: nat, rxN: nat)
    requires RxRep(e, rxA, rxN)
    ensures e.rxNewest == AckNumber(rxA, rxN) % 0x100
    ensures RxRep(RecordAck(e), rxN, rxN) && !HasUnackedData(RecordAck(e))
  {
  }

  /** The 8-bit test for unacknowledged data is right exactly while fewer than 256 fragments wait. */
  lemma HasUnackedDataIff(e: Engine, rxA: nat, rxN: nat)
    requires RxRep(e, rxA, rxN)
    ensures (HasUnackedData(e) <==> rxA < rxN) <==> (rxN == rxA || (rxN - rxA) % 0x100 != 0)
  {
  }
}
