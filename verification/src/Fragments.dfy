/**
 BTP fragments: their wire form, the cut of a message into fragments, and what a
 sequence of fragments means.

 `Assemble` is the reference meaning of a fragment log. It knows nothing of sequence
 numbers, acknowledgements, windows or buffers; the sender and the receiver are each
 related to it, and never directly to one another.
 */
module Fragments {
  import opened Common

  const START: uint8 := 0x01
  const CONTINUE: uint8 := 0x02
  const END: uint8 := 0x04
  const ACK: uint8 := 0x08

  predicate StartFlag(flags: uint8) {
    flags % 2 == 1
  }

  predicate ContinueFlag(flags: uint8) {
    flags / 2 % 2 == 1
  }

  predicate EndFlag(flags: uint8) {
    flags / 4 % 2 == 1
  }

  predicate AckFlag(flags: uint8) {
    flags / 8 % 2 == 1
  }

  /** DidReceiveData: the packet carries a piece of a message. */
  predicate DataFlags(flags: uint8) {
    StartFlag(flags) || ContinueFlag(flags) || EndFlag(flags)
  }

  const DEFAULT_FRAGMENT_SIZE := 20
  const MAX_FRAGMENT_SIZE := 128

  /** A fragment size derived from a valid ATT MTU (at least 23 bytes). */
  type FragmentSize = x: int | DEFAULT_FRAGMENT_SIZE <= x <= MAX_FRAGMENT_SIZE witness DEFAULT_FRAGMENT_SIZE

  /** A message fits the 16-bit length of a packet buffer. */
  type Message = m: Bytes | |m| < 0x1_0000

  /** `length` is on the wire in a fragment that starts a message, and is zero elsewhere. */
  datatype Fragment = Fragment(
    start: bool, continues: bool, end: bool, ack: Option<uint8>, seqNum: uint8, length: uint16, payload: Bytes)
  {
    predicate HasData() {
      start || continues || end
    }

    function Flags(): uint8 {
      (if start then START else 0) + (if continues then CONTINUE else 0) +
      (if end then END else 0) + (if ack.Some? then ACK else 0)
    }

    function Header(): Bytes {
      [Flags()] + (if ack.Some? then [ack.value] else []) + [seqNum] +
      (if start then [length % 0x100, length / 0x100] else [])
    }

    function Wire(): Bytes {
      Header() + payload
    }
  }

  function StandAloneAck(ack: uint8, seqNum: uint8): Fragment {
    Fragment(false, false, false, Some(ack), seqNum, 0, [])
  }

  /** How much of `left` fits behind a header of `header` bytes. */
  function Room(size: FragmentSize, header: int, left: Bytes): int
    requires 2 <= header <= 5
  {
    Min(|left|, size - header)
  }

  function FirstHeader(ack: Option<uint8>): int {
    if ack.Some? then 5 else 4
  }

  function NextHeader(ack: Option<uint8>): int {
    if ack.Some? then 3 else 2
  }

  function FirstFragment(size: FragmentSize, m: Message, ack: Option<uint8>, seqNum: uint8): Fragment
  {
    var n := Room(size, FirstHeader(ack), m);
    Fragment(true, false, n == |m|, ack, seqNum, |m|, m[..n])
  }

  function NextFragment(size: FragmentSize, left: Bytes, ack: Option<uint8>, seqNum: uint8): Fragment {
    var n := Room(size, NextHeader(ack), left);
    Fragment(false, true, n == |left|, ack, seqNum, 0, left[..n])
  }

  // ---------- the meaning of a fragment log ----------

  /** Messages completed so far, and the one in progress: its announced length and the bytes seen. */
  datatype Assembly = Assembly(ok: bool, done: seq<Bytes>, open: bool, length: nat, part: Bytes)

  const EMPTY_ASSEMBLY := Assembly(true, [], false, 0, [])

  function AssembleOne(a: Assembly, f: Fragment): Assembly {
    if !a.ok || !f.HasData() then a
    else if a.open == f.start then a.(ok := false)
    else
      var length := if f.start then f.length else a.length;
      var part := if f.start then f.payload else a.part + f.payload;
      if !f.end then Assembly(true, a.done, true, length, part)
      else if |part| < length then a.(ok := false)
      else Assembly(true, a.done + [if |part| > length then part[..length] else part], false, 0, [])
  }

  function Assemble(log: seq<Fragment>): Assembly {
    if |log| == 0 then EMPTY_ASSEMBLY else AssembleOne(Assemble(log[..|log| - 1]), log[|log| - 1])
  }

  lemma AssembleExtend(log: seq<Fragment>, f: Fragment)
    ensures Assemble(log + [f]) == AssembleOne(Assemble(log), f)
  {
    assert (log + [f])[..|log|] == log;
  }

  /** A prefix of the log denotes a prefix of the messages. */
  lemma {:induction false} AssembleMonotone(log: seq<Fragment>, n: nat)
    requires n <= |log|
    ensures Assemble(log[..n]).done <= Assemble(log).done
    ensures Assemble(log).ok ==> Assemble(log[..n]).ok
    decreases |log|
  {
    if n < |log| {
      var shorter := log[..|log| - 1];
      assert shorter[..n] == log[..n];
      AssembleMonotone(shorter, n);
    } else {
      assert log[..n] == log;
    }
  }

  // ---------- cutting a whole message ----------

  /** The fragments of a message in order; `acks(i)` is what rides on the fragment numbered `i`. */
  function Rest(size: FragmentSize, left: Bytes, num: nat, acks: nat -> Option<uint8>): (fs: seq<Fragment>)
    requires |left| > 0
    decreases |left|
  {
    var f := NextFragment(size, left, acks(num), num % 0x100);
    if f.end then [f] else [f] + Rest(size, left[|f.payload|..], num + 1, acks)
  }

  function Cut(size: FragmentSize, m: Message, num: nat, acks: nat -> Option<uint8>): (fs: seq<Fragment>)
  {
    var f := FirstFragment(size, m, acks(num), num % 0x100);
    if f.end then [f] else [f] + Rest(size, m[|f.payload|..], num + 1, acks)
  }

  /** The number of pieces of at most `per` bytes that `n` bytes need. */
  function CeilDiv(n: nat, per: int): nat
    requires per > 0
  {
    (n + per - 1) / per
  }

  lemma CeilDivStep(n: nat, per: int)
    requires 0 < per < n
    ensures CeilDiv(n, per) == 1 + CeilDiv(n - per, per)
  {
    var x := n - 1;
    assert (x + per) / per == x / per + 1 by {
      var q, r := x / per, x % per;
      assert x + per == (q + 1) * per + r;
      DivUnique(x + per, per, q + 1, r);
    }
    assert n - per + per - 1 == x;
  }

  lemma DivUnique(x: int, d: int, q: int, r: int)
    requires 0 <= r < d && x == q * d + r
    ensures x / d == q
  {
    var q', r' := x / d, x % d;
    assert (q - q') * d == r' - r;
    if q > q' {
      assert (q - q') * d >= d by { MulAtLeast(q - q', d); }
    } else if q < q' {
      assert (q' - q) * d >= d by { MulAtLeast(q' - q, d); }
    }
  }

  lemma MulAtLeast(k: int, d: int)
    requires k >= 1 && d >= 0
    ensures k * d >= d
  {
  }

  lemma CeilDivOne(n: nat, per: int)
    requires 0 < n <= per
    ensures CeilDiv(n, per) == 1
  {
    DivUnique(n + per - 1, per, 1, n - 1);
  }

  lemma CeilDivMono(n: nat, n': nat, per: int)
    requires 0 < per && n <= n'
    ensures CeilDiv(n, per) <= CeilDiv(n', per)
    decreases n'
  {
    if n' <= per {
      if n > 0 { CeilDivOne(n, per); CeilDivOne(n', per); } else { DivUnique(per - 1, per, 0, per - 1); }
    } else if n <= per {
      if n > 0 { CeilDivOne(n, per); } else { DivUnique(per - 1, per, 0, per - 1); }
      CeilDivStep(n', per);
    } else {
      CeilDivStep(n, per);
      CeilDivStep(n', per);
      CeilDivMono(n - per, n' - per, per);
    }
  }

  /** The last piece, of `n` bytes, counts as one piece of either size or at most two of the smaller. */
  lemma LastPieceCount(n: nat, per: int)
    requires 1 < per && 0 < n <= per
    ensures CeilDiv(n, per) == 1 && 1 <= CeilDiv(n, per - 1)
  {
    CeilDivOne(n, per);
    if n <= per - 1 {
      CeilDivOne(n, per - 1);
    } else {
      CeilDivStep(n, per - 1);
    }
  }

  /** A full piece of `k` bytes, `per - 1` or `per`, then `count` more within the bounds for what is left. */
  lemma FullPieceCount(n: nat, k: nat, per: int, count: nat)
    requires 2 < per && per - 1 <= k <= per && k < n
    requires CeilDiv(n - k, per) <= count <= CeilDiv(n - k, per - 1)
    ensures CeilDiv(n, per) <= count + 1 <= CeilDiv(n, per - 1)
  {
    CeilDivStep(n, per - 1);
    CeilDivMono(n - k, n - (per - 1), per - 1);
    if n > per {
      CeilDivStep(n, per);
      CeilDivMono(n - per, n - k, per);
    } else {
      CeilDivOne(n, per);
    }
  }

  lemma {:induction false} RestCount(size: FragmentSize, left: Bytes, num: nat, acks: nat -> Option<uint8>)
    requires |left| > 0
    ensures (forall i :: acks(i).None?) ==> |Rest(size, left, num, acks)| == CeilDiv(|left|, size - 2)
    ensures CeilDiv(|left|, size - 2) <= |Rest(size, left, num, acks)| <= CeilDiv(|left|, size - 3)
    decreases |left|
  {
    var f := NextFragment(size, left, acks(num), num % 0x100);
    var n := |f.payload|;
    if f.end {
      LastPieceCount(|left|, size - 2);
    } else {
      RestCount(size, left[n..], num + 1, acks);
      FullPieceCount(|left|, n, size - 2, |Rest(size, left[n..], num + 1, acks)|);
      if n == size - 2 {
        CeilDivStep(|left|, size - 2);
      }
    }
  }

  /**
   Fragmentation terminates with an exact count: one fragment when the message fits behind the
   four-byte header, otherwise one plus the number of (size - 2)-byte pieces of what is left. Acks that
   ride along can only add fragments, and no more than if every fragment carried one.
   */
  lemma CutCount(size: FragmentSize, m: Message, num: nat, acks: nat -> Option<uint8>)
    ensures var n := |Cut(size, m, num, acks)|;
      && ((forall i :: acks(i).None?) ==>
            n == if |m| <= size - 4 then 1 else 1 + CeilDiv(|m| - (size - 4), size - 2))
      && n >= (if |m| <= size - 4 then 1 else 1 + CeilDiv(|m| - (size - 4), size - 2))
      && n <= (if |m| <= size - 5 then 1 else 1 + CeilDiv(|m| - (size - 5), size - 3))
  {
    var f := FirstFragment(size, m, acks(num), num % 0x100);
    var k := |f.payload|;
    if !f.end {
      RestCount(size, m[k..], num + 1, acks);
      CeilDivMono(|m| - k, |m| - (size - 5), size - 3);
      if |m| > size - 4 { CeilDivMono(|m| - (size - 4), |m| - k, size - 2); }
    }
  }

  /** Every fragment but the last is exactly `size` bytes on the wire, and none is larger. */
  lemma {:induction false} RestSizes(size: FragmentSize, left: Bytes, num: nat, acks: nat -> Option<uint8>, i: nat)
    requires |left| > 0 && i < |Rest(size, left, num, acks)|
    ensures var fs := Rest(size, left, num, acks);
      |fs[i].Wire()| <= size && (i < |fs| - 1 ==> |fs[i].Wire()| == size && !fs[i].end) && (i == |fs| - 1 ==> fs[i].end)
    decreases |left|
  {
    var f := NextFragment(size, left, acks(num), num % 0x100);
    if i > 0 {
      RestSizes(size, left[|f.payload|..], num + 1, acks, i - 1);
    }
  }
}
