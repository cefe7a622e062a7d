/** The remote receive window: what the code computes when an ack arrives, against the exact count. */
module Windows {
  import opened Common

  /** What the source adds to undo a wrapped sequence number. */
  const AS_WRITTEN := 0xff
  /** The number of distinct sequence numbers. */
  const EXACT := 0x100

  /** The two offsets under study. */
  type Offset = x: int | AS_WRITTEN <= x <= EXACT witness EXACT

  /** The first number at or after `n` whose 8-bit form is zero. */
  function NextPage(n: nat): nat {
    (n + 0xff) / 0x100 * 0x100
  }

  /** The newest sent number has wrapped past the acknowledged one. */
  predicate Wrapped(ack: uint8, max: uint8, newest: uint8) {
    ack as int + max > 0xff && newest < ack
  }

  /** AdjustRemoteReceiveWindow, with the wrap offset as a parameter; uint8 results truncate. */
  function AdjustRemoteReceiveWindow(ack: uint8, max: uint8, newest: uint8, offset: Offset): uint8 {
    var boundary := ack as int + max;
    if Wrapped(ack, max, newest) then (boundary - (newest + offset)) % 0x100
    else (boundary - newest) % 0x100
  }

  /**
   Fragments `acked + 1 .. newest` are outstanding after an ack of `acked`. With the exact offset the window is
   what remains of the maximum; with the offset as written it is one larger exactly in the wrapped case, which is
   that a multiple of 256 is among the outstanding numbers.
   */
  lemma AdjustIsWithinOne(acked: nat, newest: nat, max: uint8, offset: Offset)
    requires acked <= newest <= acked + max
    ensures var w := AdjustRemoteReceiveWindow(acked % 0x100, max, newest % 0x100, offset);
      && w + (newest - acked) == max + (if Wrapped(acked % 0x100, max, newest % 0x100) then EXACT - offset else 0)
      && w <= max
    ensures Wrapped(acked % 0x100, max, newest % 0x100) <==> NextPage(acked + 1) <= newest
  {
    var page := acked / 0x100;
    assert acked == 0x100 * page + acked % 0x100;
    if newest < 0x100 * (page + 1) {
      assert newest % 0x100 == newest - 0x100 * page;
    } else {
      assert newest % 0x100 == newest - 0x100 * (page + 1);
    }
  }

  /** The code as written counts open slots exactly if and only if the newest number has not wrapped past the ack. */
  lemma AsWrittenIsExactIff(acked: nat, newest: nat, max: uint8)
    requires acked <= newest <= acked + max
    ensures AdjustRemoteReceiveWindow(acked % 0x100, max, newest % 0x100, AS_WRITTEN) == max - (newest - acked)
       <==> !(newest % 0x100 < acked % 0x100)
  {
    AdjustIsWithinOne(acked, newest, max, AS_WRITTEN);
    var page := acked / 0x100;
    assert acked == 0x100 * page + acked % 0x100;
    if newest < 0x100 * (page + 1) {
      assert newest % 0x100 == newest - 0x100 * page;
    } else {
      assert newest % 0x100 == newest - 0x100 * (page + 1);
    }
  }
}
