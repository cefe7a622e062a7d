/**
 The capabilities handshake: the version list, the two messages on the wire, the choice of protocol version,
 fragment size and window, and the agreement the two sides reach.
 */
module Handshake {
  import opened Common
  import opened Fragments
  import opened BtpEngine

  const VERSION_NONE: uint8 := 0
  const MIN_VERSION: uint8 := 2
  const MAX_VERSION: uint8 := 3
  const NUM_VERSIONS := 8
  const CHECK_BYTE_1: uint8 := 0x6e
  const CHECK_BYTE_2: uint8 := 0x6c
  const REQUEST_LENGTH := 9
  const RESPONSE_LENGTH := 6

  // ---------- the list of supported versions: eight 4-bit entries in four bytes ----------

  type VersionBytes = s: Bytes | |s| == 4 witness [0, 0, 0, 0]

  function Nibble(bytes: VersionBytes, i: int): uint8
    requires 0 <= i < NUM_VERSIONS
  {
    if i % 2 == 0 then bytes[i / 2] % 16 else bytes[i / 2] / 16
  }

  /** Each write changes its own entry, to the version truncated to four bits, and no other. */
  method SetSupportedProtocolVersion(versions: array<uint8>, index: uint8, version: uint8)
    requires versions.Length == 4 && index < NUM_VERSIONS
    modifies versions
    ensures forall i :: 0 <= i < NUM_VERSIONS ==>
              Nibble(versions[..], i) == if i == index then version % 16 else old(Nibble(versions[..], i))
  {
    var at := index / 2;
    if index % 2 == 0 {
      versions[at] := versions[at] / 16 * 16 + version % 16;
    } else {
      versions[at] := versions[at] % 16 + version % 16 * 16;
    }
  }

  /** The entry at `i` counts: it and every entry before it is non-zero. */
  predicate Listed(bytes: VersionBytes, i: int) {
    0 <= i < NUM_VERSIONS && forall j :: 0 <= j <= i ==> Nibble(bytes, j) != VERSION_NONE
  }

  predicate Supported(v: uint8) {
    MIN_VERSION <= v <= MAX_VERSION
  }

  /** `v` is the largest supported version listed before the first zero entry, or none if there is none. */
  ghost predicate IsChoice(bytes: VersionBytes, v: uint8) {
    && (forall i :: Listed(bytes, i) && Supported(Nibble(bytes, i)) ==> Nibble(bytes, i) <= v)
    && (v == VERSION_NONE || (Supported(v) && exists i :: Listed(bytes, i) && Nibble(bytes, i) == v))
  }

  lemma ChoiceUnique(bytes: VersionBytes, v: uint8, w: uint8)
    requires IsChoice(bytes, v) && IsChoice(bytes, w)
    ensures v == w
  {
  }

  /** The scan from entry `i` with best version `best` so far. */
  function HighestFrom(bytes: VersionBytes, i: nat, best: uint8): uint8
    requires i <= NUM_VERSIONS
    decreases NUM_VERSIONS - i
  {
    if i == NUM_VERSIONS then best
    else
      var v := Nibble(bytes, i);
      if Supported(v) && v > best then HighestFrom(bytes, i + 1, v)
      else if v == VERSION_NONE then best
      else HighestFrom(bytes, i + 1, best)
  }

  function Highest(bytes: VersionBytes): uint8 {
    HighestFrom(bytes, 0, VERSION_NONE)
  }

  method GetHighestSupportedProtocolVersion(versions: VersionBytes) returns (best: uint8)
    ensures IsChoice(versions, best) && best == Highest(versions)
  {
    best := VERSION_NONE;
    var shift := 4;
    var i := 0;
    while i < NUM_VERSIONS
      invariant 0 <= i <= NUM_VERSIONS && shift == (if i % 2 == 0 then 4 else 0)
      invariant i > 0 ==> Listed(versions, i - 1)
      invariant IsChoiceUpTo(versions, best, i)
    {
      shift := 4 - shift;
      var version := versions[i / 2];
      version := (if shift == 0 then version else version / 16) % 16;
      assert version == Nibble(versions, i);
      if version != VERSION_NONE {
        ChoiceStep(versions, best, i);
      }
      if Supported(version) && version > best {
        best := version;
      } else if version == VERSION_NONE {
        break;
      }
      i := i + 1;
    }
    ChoiceAt(versions, best, i);
    HighestIsChoice(versions);
    ChoiceUnique(versions, best, Highest(versions));
  }

  ghost predicate IsChoiceUpTo(bytes: VersionBytes, v: uint8, n: int) {
    && (forall i :: i < n && Listed(bytes, i) && Supported(Nibble(bytes, i)) ==> Nibble(bytes, i) <= v)
    && (v == VERSION_NONE || (Supported(v) && exists i :: i < n && Listed(bytes, i) && Nibble(bytes, i) == v))
  }

  lemma {:induction false} HighestFromIsChoice(bytes: VersionBytes, i: nat, best: uint8)
    requires i <= NUM_VERSIONS && (i > 0 ==> Listed(bytes, i - 1)) && IsChoiceUpTo(bytes, best, i)
    ensures IsChoice(bytes, HighestFrom(bytes, i, best))
    decreases NUM_VERSIONS - i
  {
    if i == NUM_VERSIONS {
      ChoiceAt(bytes, best, i);
    } else {
      var v := Nibble(bytes, i);
      if v == VERSION_NONE {
        ChoiceAt(bytes, best, i);
      } else {
        ChoiceStep(bytes, best, i);
        HighestFromIsChoice(bytes, i + 1, if Supported(v) && v > best then v else best);
      }
    }
  }

  /** Nothing is listed from the first zero entry on. */
  lemma ChoiceAt(bytes: VersionBytes, best: uint8, n: nat)
    requires n <= NUM_VERSIONS && IsChoiceUpTo(bytes, best, n)
    requires n < NUM_VERSIONS ==> Nibble(bytes, n) == VERSION_NONE
    ensures IsChoice(bytes, best)
  {
    forall i | Listed(bytes, i)
      ensures i < n
    {
      assert n < NUM_VERSIONS ==> (Nibble(bytes, n) == VERSION_NONE);
    }
  }

  lemma ChoiceStep(bytes: VersionBytes, best: uint8, n: nat)
    requires n < NUM_VERSIONS && (n > 0 ==> Listed(bytes, n - 1)) && IsChoiceUpTo(bytes, best, n)
    requires Nibble(bytes, n) != VERSION_NONE
    ensures Listed(bytes, n)
    ensures var v := Nibble(bytes, n); IsChoiceUpTo(bytes, if Supported(v) && v > best then v else best, n + 1)
  {
    forall j | 0 <= j <= n
      ensures Nibble(bytes, j) != VERSION_NONE
    {
      if j < n { assert Listed(bytes, n - 1); }
    }
    var v := Nibble(bytes, n);
    if Supported(v) && v > best {
      assert n < n + 1 && Listed(bytes, n) && Nibble(bytes, n) == v;
    } else if best != VERSION_NONE {
      var i :| i < n && Listed(bytes, i) && Nibble(bytes, i) == best;
      assert i < n + 1;
    }
  }

  lemma HighestIsChoice(bytes: VersionBytes)
    ensures IsChoice(bytes, Highest(bytes))
  {
    HighestFromIsChoice(bytes, 0, VERSION_NONE);
  }

  // ---------- the two messages on the wire ----------

  datatype Request = Request(versions: VersionBytes, mtu: uint16, window: uint8)
  datatype Response = Response(version: uint8, fragmentSize: uint16, window: uint8)

  function EncodedRequest(r: Request): Bytes {
    [CHECK_BYTE_1, CHECK_BYTE_2] + r.versions + [r.mtu % 0x100, r.mtu / 0x100, r.window]
  }

  function DecodedRequest(b: Bytes): Result<Request> {
    if |b| < REQUEST_LENGTH then Err(MessageIncomplete)
    else if b[0] != CHECK_BYTE_1 || b[1] != CHECK_BYTE_2 then Err(InvalidMessage)
    else Ok(Request(b[2..6], Word(b[6], b[7]), b[8]))
  }

  function EncodedResponse(r: Response): Bytes {
    [CHECK_BYTE_1, CHECK_BYTE_2, r.version, r.fragmentSize % 0x100, r.fragmentSize / 0x100, r.window]
  }

  function DecodedResponse(b: Bytes): Result<Response> {
    if |b| < RESPONSE_LENGTH then Err(MessageIncomplete)
    else if b[0] != CHECK_BYTE_1 || b[1] != CHECK_BYTE_2 then Err(InvalidMessage)
    else Ok(Response(b[2], Word(b[3], b[4]), b[5]))
  }

  /** A buffer decodes to `r` exactly when it begins with the encoding of `r`. */
  lemma RequestCodec(b: Bytes, r: Request)
    ensures DecodedRequest(b) == Ok(r) <==> EncodedRequest(r) <= b
  {
    var e := EncodedRequest(r);
    assert |e| == REQUEST_LENGTH && e[2..6] == r.versions;
    if DecodedRequest(b) == Ok(r) {
      assert b[..REQUEST_LENGTH] == e;
    }
    if e <= b {
      assert b[2..6] == b[..REQUEST_LENGTH][2..6] == e[2..6];
      assert forall i :: 0 <= i < REQUEST_LENGTH ==> b[i] == e[i];
    }
  }

  lemma ResponseCodec(b: Bytes, r: Response)
    ensures DecodedResponse(b) == Ok(r) <==> EncodedResponse(r) <= b
  {
    var e := EncodedResponse(r);
    if DecodedResponse(b) == Ok(r) {
      assert b[..RESPONSE_LENGTH] == e;
    }
    if e <= b {
      assert forall i :: 0 <= i < RESPONSE_LENGTH ==> b[i] == e[i];
    }
  }

  method EncodeRequest(r: Request, msgBuf: array<uint8>) returns (err: Error, dataLength: nat)
    modifies msgBuf
    ensures err == if msgBuf.Length >= REQUEST_LENGTH then NoError else NoMemory
    ensures err == NoError ==> dataLength == REQUEST_LENGTH && msgBuf[..dataLength] == EncodedRequest(r)
    ensures err != NoError ==> dataLength == 0
    ensures msgBuf[dataLength..] == old(msgBuf[dataLength..])
  {
    if msgBuf.Length < REQUEST_LENGTH {
      return NoMemory, 0;
    }
    msgBuf[0], msgBuf[1] := CHECK_BYTE_1, CHECK_BYTE_2;
    var p := 2;
    var i := 0;
    while i < 4
      invariant 0 <= i <= 4 && p == 2 + i
      invariant msgBuf[..p] == [CHECK_BYTE_1, CHECK_BYTE_2] + r.versions[..i]
      invariant msgBuf[REQUEST_LENGTH..] == old(msgBuf[REQUEST_LENGTH..])
    {
      msgBuf[p] := r.versions[i];
      p := p + 1;
      i := i + 1;
    }
    msgBuf[p], msgBuf[p + 1], msgBuf[p + 2] := r.mtu % 0x100, r.mtu / 0x100, r.window;
    assert msgBuf[..p] == [CHECK_BYTE_1, CHECK_BYTE_2] + r.versions;
    return NoError, REQUEST_LENGTH;
  }

  method DecodeRequest(msgBuf: Bytes) returns (r: Result<Request>)
    ensures r == DecodedRequest(msgBuf)
  {
    if |msgBuf| < REQUEST_LENGTH {
      return Err(MessageIncomplete);
    }
    if msgBuf[0] != CHECK_BYTE_1 || msgBuf[1] != CHECK_BYTE_2 {
      return Err(InvalidMessage);
    }
    var p := 2;
    var versions: Bytes := [];
    for i := 0 to 4
      invariant p == 2 + i && versions == msgBuf[2..p]
    {
      versions := versions + [msgBuf[p]];
      p := p + 1;
    }
    return Ok(Request(versions, Word(msgBuf[p], msgBuf[p + 1]), msgBuf[p + 2]));
  }

  // ---------- negotiation ----------

  /** Zero when unknown; otherwise at least the 23-byte minimum ATT MTU. */
  predicate ValidMtu(mtu: uint16) {
    mtu == 0 || mtu >= 23
  }

  function ChosenSize(mtu: uint16): FragmentSize
    requires ValidMtu(mtu)
  {
    if mtu > 0 then Min(mtu - 3, MAX_FRAGMENT_SIZE) else DEFAULT_FRAGMENT_SIZE
  }

  /** The peripheral's answer: the central's view of the MTU wins over its own, and the smaller window wins. */
  function Answer(req: Request, mtu: uint16, window: uint8): Response
    requires ValidMtu(req.mtu) && ValidMtu(mtu)
  {
    Response(Highest(req.versions), ChosenSize(if req.mtu > 0 then req.mtu else mtu), Min(req.window, window))
  }

  /** What one side has settled when its part of the handshake is over. */
  datatype Terms = Terms(version: uint8, rxSize: FragmentSize, txSize: FragmentSize, max: uint8, local: uint8,
    remote: uint8)

  /** The peripheral, once its handshake indication has gone out; none when no version is common. */
  function PeripheralTerms(resp: Response): Option<Terms>
    requires DEFAULT_FRAGMENT_SIZE <= resp.fragmentSize <= MAX_FRAGMENT_SIZE
  {
    if resp.version == VERSION_NONE then None
    else
      var txSize := if resp.version <= 2 then resp.fragmentSize else DEFAULT_FRAGMENT_SIZE;
      Some(Terms(resp.version, resp.fragmentSize, txSize, resp.window, resp.window, Dec8(resp.window)))
  }

  /** The central, once it has taken in the response. */
  function CentralTerms(resp: Response): Result<Terms>
    requires resp.fragmentSize == 0 || resp.fragmentSize >= DEFAULT_FRAGMENT_SIZE
  {
    if resp.fragmentSize == 0 then Err(InvalidFragmentSize)
    else if !Supported(resp.version) then Err(IncompatibleVersions)
    else
      var size := Min(resp.fragmentSize, MAX_FRAGMENT_SIZE);
      var rxSize := if resp.version <= 2 then size else DEFAULT_FRAGMENT_SIZE;
      Ok(Terms(resp.version, rxSize, size, resp.window, Dec8(resp.window), resp.window))
  }

  /** What an ATT payload leaves of the MTU, with 3 bytes for the ATT header, and no more than the largest fragment. */
  predicate Fills(size: nat, mtu: uint16) {
    size <= mtu - 3 && size <= MAX_FRAGMENT_SIZE && (size == mtu - 3 || size == MAX_FRAGMENT_SIZE)
  }

  /** The central's view of the MTU counts if it has one, else the peripheral's; without either, the default size. */
  predicate RightSize(size: nat, central: uint16, peripheral: uint16) {
    && (central != 0 ==> Fills(size, central))
    && (central == 0 && peripheral != 0 ==> Fills(size, peripheral))
    && (central == 0 && peripheral == 0 ==> size == 20)
  }

  /** Both sides cut to the size agreed on, except that later versions have the peripheral keep to the default. */
  predicate Sized(central: Terms, peripheral: Terms, version: uint8, mtu: uint16, mtu': uint16) {
    && central.version == version && RightSize(central.txSize, mtu, mtu')
    && (if version <= 2 then peripheral.txSize == central.txSize else peripheral.txSize == 20)
  }

  /** The two sides have settled on the same things. */
  predicate Settled(central: Terms, peripheral: Terms) {
    && central.version == peripheral.version && central.max == peripheral.max
    && central.txSize == peripheral.rxSize && peripheral.txSize == central.rxSize
  }

  /** The counters agree with what has been sent and not yet acknowledged: the handshake indication, numbered 0. */
  predicate Consistent(central: Terms, peripheral: Terms) {
    && peripheral.remote + 1 == peripheral.max && central.local + 1 == central.max
    && central.remote == central.max && peripheral.local == peripheral.max
  }

  /**
   Agreement: whatever versions, MTUs and windows the two sides start from, after both messages have crossed
   the wire either the list holds a supported version and both sides settle on it, being the best one listed, on
   the smaller window and on matching fragment sizes, which fill the ATT payload as far as it is known, or it holds
   none and both sides give up. The counters agree with what is on the air if and only if the window is not zero.
   */
  lemma Agreement(req: Request, mtu: uint16, window: uint8, reqBuf: Bytes, respBuf: Bytes)
    requires ValidMtu(req.mtu) && ValidMtu(mtu)
    requires EncodedRequest(req) <= reqBuf && EncodedResponse(Answer(req, mtu, window)) <= respBuf
    ensures DecodedRequest(reqBuf) == Ok(req)
    ensures var resp := Answer(req, mtu, window);
      && DecodedResponse(respBuf) == Ok(resp)
      && IsChoice(req.versions, resp.version)
      && (if exists i :: Listed(req.versions, i) && Supported(Nibble(req.versions, i)) then
            && PeripheralTerms(resp).Some? && CentralTerms(resp).Ok?
            && Settled(CentralTerms(resp).value, PeripheralTerms(resp).value)
            && Sized(CentralTerms(resp).value, PeripheralTerms(resp).value, resp.version, req.mtu, mtu)
            && CentralTerms(resp).value.max == Min(req.window, window)
            && (Consistent(CentralTerms(resp).value, PeripheralTerms(resp).value) <==> Min(req.window, window) >= 1)
          else PeripheralTerms(resp).None? && CentralTerms(resp) == Err(IncompatibleVersions))
  {
    RequestCodec(reqBuf, req);
    var resp := Answer(req, mtu, window);
    ResponseCodec(respBuf, resp);
    HighestIsChoice(req.versions);
    TermsAgree(resp);
  }

  lemma TermsAgree(resp: Response)
    requires DEFAULT_FRAGMENT_SIZE <= resp.fragmentSize <= MAX_FRAGMENT_SIZE
    ensures Supported(resp.version) ==>
      && PeripheralTerms(resp).Some? && CentralTerms(resp).Ok?
      && Settled(CentralTerms(resp).value, PeripheralTerms(resp).value) && CentralTerms(resp).value.max == resp.window
      && (Consistent(CentralTerms(resp).value, PeripheralTerms(resp).value) <==> resp.window >= 1)
    ensures resp.version == VERSION_NONE ==>
      PeripheralTerms(resp).None? && CentralTerms(resp) == Err(IncompatibleVersions)
  {
  }
}
