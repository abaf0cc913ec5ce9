/**
 * The TCP command layer (TcpPacketHandler.cpp): the bounded response
 * buffer a command handler writes into, the bounds-checked readers of a
 * request's 24-byte payload, and the registry that dispatches an incoming
 * message to the handler registered for its command id.
 *
 * Command handlers are foreign code (virtual handlePacket); what the handler
 * registered for a command does is a parameter, `HandlerOutcome`. The CRC32
 * of the framework's utilities is a parameter `crc` as well.
 */
module TcpPacket {
  import opened Wrappers
  import opened Bytes

  /** sizeof (TcpIncomingPayload). */
  const PAYLOAD_SIZE: nat := 24
  /** sizeof (TcpIncomingMessage): four uint32 fields, the payload, a checksum. */
  const MESSAGE_SIZE: nat := 44
  /** sizeof (TcpOutgoingMessageHeader): seven uint32 fields. */
  const HEADER_SIZE: nat := 28
  /** TCP_MAX_PACKET_RESPONSESIZE. */
  const MAX_RESPONSE_SIZE: nat := 256 * 1024

  /** Copies `data` into `target` at `start`, byte by byte. */
  method CopyInto(target: array<byte>, start: nat, data: seq<byte>)
    requires start + |data| <= target.Length
    modifies target
    ensures target[..] == old(target[..start]) + data + old(target[start + |data|..])
  {
    var i := 0;
    while i < |data|
      invariant 0 <= i <= |data|
      invariant forall k :: 0 <= k < target.Length ==>
                  target[k] == if start <= k < start + i then data[k - start] else old(target[k])
    {
      target[start + i] := data[i];
      i := i + 1;
    }
    assert target[..] == old(target[..start]) + data + old(target[start + |data|..]);
  }

  // ---------------------------------------------------------------------
  // Response buffer
  // ---------------------------------------------------------------------

  /** What a CTcpPacketResponse holds: its header fields and its payload bytes. */
  datatype ResponseState = ResponseState(
    signature: uint32, clientId: uint32, sequenceId: uint32, errorCode: uint32, contents: seq<byte>)

  /**
   * addPayload on a payload holding `contents`: a null or empty source adds
   * nothing; a source that would take the payload past 256 KiB is refused
   * with INVALIDPARAM; otherwise the bytes are appended.
   */
  function Appended(contents: seq<byte>, data: Option<seq<byte>>): (r: Result<seq<byte>>)
    ensures data.None? || data.value == [] ==> r == Ok(contents)
    ensures data.Some? && data.value != [] ==> (r.Ok? <==> |contents| + |data.value| <= MAX_RESPONSE_SIZE)
    ensures r.Ok? && data.Some? ==> r.value == contents + data.value
    ensures r.Ok? && |contents| <= MAX_RESPONSE_SIZE ==> |r.value| <= MAX_RESPONSE_SIZE
    ensures r.Err? ==> r.error == InvalidParam
  {
    if data.None? || data.value == [] then Ok(contents)
    else if |data.value| > MAX_RESPONSE_SIZE then Err(InvalidParam)
    else if |contents| + |data.value| > MAX_RESPONSE_SIZE then Err(InvalidParam)
    else Ok(contents + data.value)
  }

  /** The response payload went from `before` to `after` as addPayload of `data` prescribes, with result `r`. */
  ghost predicate AddedAs(r: Result<()>, before: seq<byte>, after: seq<byte>, data: Option<seq<byte>>)
  {
    match Appended(before, data)
    case Ok(c) => r == Ok(()) && after == c
    case Err(e) => r == Err(e) && after == before
  }

  datatype OutgoingHeader = OutgoingHeader(
    signature: uint32, clientId: uint32, sequenceId: uint32, statusCode: uint32,
    payloadLength: uint32, payloadChecksum: uint32, headerChecksum: uint32)

  /** The first 24 bytes of a header in memory: every field but the header checksum. */
  function HeaderFieldBytes(h: OutgoingHeader): (r: seq<byte>)
    ensures |r| == HEADER_SIZE - 4
  {
    EncodeUint32(h.signature) + EncodeUint32(h.clientId) + EncodeUint32(h.sequenceId)
    + EncodeUint32(h.statusCode) + EncodeUint32(h.payloadLength) + EncodeUint32(h.payloadChecksum)
  }

  /** A header as it goes onto the wire. */
  function HeaderBytes(h: OutgoingHeader): (r: seq<byte>)
    ensures |r| == HEADER_SIZE
  {
    HeaderFieldBytes(h) + EncodeUint32(h.headerChecksum)
  }

  /** The header a receiver reads back from 28 bytes. */
  function DecodeHeader(s: seq<byte>): OutgoingHeader
    requires |s| == HEADER_SIZE
  {
    OutgoingHeader(DecodeUint32(s[0..4]), DecodeUint32(s[4..8]), DecodeUint32(s[8..12]),
                   DecodeUint32(s[12..16]), DecodeUint32(s[16..20]), DecodeUint32(s[20..24]),
                   DecodeUint32(s[24..28]))
  }

  /** The header's wire form loses nothing. */
  lemma HeaderRoundTrip(h: OutgoingHeader)
    ensures DecodeHeader(HeaderBytes(h)) == h
  {
    var s := HeaderBytes(h);
    assert s[0..4] == EncodeUint32(h.signature);
    assert s[4..8] == EncodeUint32(h.clientId);
    assert s[8..12] == EncodeUint32(h.sequenceId);
    assert s[12..16] == EncodeUint32(h.statusCode);
    assert s[16..20] == EncodeUint32(h.payloadLength);
    assert s[20..24] == EncodeUint32(h.payloadChecksum);
    assert s[24..28] == EncodeUint32(h.headerChecksum);
  }

  /**
   * buildHeader on a response in state `s`: the payload length is the
   * current size, the payload checksum is the CRC32 of the payload (0 for an
   * empty one), and the header checksum covers every byte of the header
   * before it.
   */
  function HeaderOf(s: ResponseState, crc: seq<byte> -> uint32): (h: OutgoingHeader)
    requires |s.contents| <= MAX_RESPONSE_SIZE
    ensures h.signature == s.signature && h.clientId == s.clientId && h.sequenceId == s.sequenceId
    ensures h.statusCode == s.errorCode && h.payloadLength as int == |s.contents|
    ensures h.payloadChecksum == if |s.contents| > 0 then crc(s.contents) else 0
    ensures h.headerChecksum == crc(HeaderBytes(h)[..HEADER_SIZE - 4])
  {
    var fields := OutgoingHeader(s.signature, s.clientId, s.sequenceId, s.errorCode, |s.contents| as uint32,
                                 if |s.contents| > 0 then crc(s.contents) else 0, 0);
    var h := fields.(headerChecksum := crc(HeaderFieldBytes(fields)));
    assert HeaderFieldBytes(h) == HeaderFieldBytes(fields);
    assert HeaderBytes(h)[..HEADER_SIZE - 4] == HeaderFieldBytes(h);
    h
  }

  /** Two headers whose fields before the header checksum agree, and whose checksums both cover those fields, are one. */
  lemma HeaderDeterminedByFields(h: OutgoingHeader, s: ResponseState, crc: seq<byte> -> uint32)
    requires |s.contents| <= MAX_RESPONSE_SIZE
    requires h.signature == s.signature && h.clientId == s.clientId && h.sequenceId == s.sequenceId
    requires h.statusCode == s.errorCode && h.payloadLength as int == |s.contents|
    requires h.payloadChecksum == if |s.contents| > 0 then crc(s.contents) else 0
    requires h.headerChecksum == crc(HeaderBytes(h)[..HEADER_SIZE - 4])
    ensures h == HeaderOf(s, crc)
  {
    var g := HeaderOf(s, crc);
    assert HeaderBytes(h)[..HEADER_SIZE - 4] == HeaderFieldBytes(h);
    assert HeaderBytes(g)[..HEADER_SIZE - 4] == HeaderFieldBytes(g);
    assert HeaderFieldBytes(h) == HeaderFieldBytes(g);
  }

  class CTcpPacketResponse {
    /** m_Payload: a fixed 256 KiB buffer of which the first currentSize bytes are in use. */
    const payload: array<byte>
    var signature: uint32
    var clientId: uint32
    var sequenceId: uint32
    var currentSize: uint32
    var errorCode: uint32

    ghost predicate Valid()
      reads this
    {
      payload.Length == MAX_RESPONSE_SIZE && currentSize <= MAX_RESPONSE_SIZE
    }

    function Contents(): (c: seq<byte>)
      reads this, payload
      requires Valid()
      ensures |c| == currentSize
    {
      payload[..currentSize]
    }

    function State(): (s: ResponseState)
      reads this, payload
      requires Valid()
      ensures |s.contents| <= MAX_RESPONSE_SIZE
    {
      ResponseState(signature, clientId, sequenceId, errorCode, Contents())
    }

    constructor ()
      ensures Valid() && fresh(payload)
      ensures State() == ResponseState(0, 0, 0, 0, [])
    {
      payload := new byte[MAX_RESPONSE_SIZE](_ => 0);
      signature, clientId, sequenceId, currentSize, errorCode := 0, 0, 0, 0, 0;
    }

    /** addPayload; `None` is a null source pointer, `Some(s)` the |s| bytes it points to. */
    method AddPayload(data: Option<seq<byte>>) returns (r: Result<()>)
      requires Valid()
      modifies this`currentSize, payload
      ensures Valid()
      ensures AddedAs(r, old(Contents()), Contents(), data)
    {
      if data.None? || |data.value| == 0 {
        return Ok(());
      }
      var bytes := data.value;
      if |bytes| > MAX_RESPONSE_SIZE {
        return Err(InvalidParam);
      }
      var newSize := currentSize + |bytes|;
      if newSize > MAX_RESPONSE_SIZE {
        return Err(InvalidParam);
      }
      CopyInto(payload, currentSize, bytes);
      currentSize := newSize;
      r := Ok(());
    }

    method AddUint8(v: byte) returns (r: Result<()>)
      requires Valid()
      modifies this`currentSize, payload
      ensures Valid()
      ensures AddedAs(r, old(Contents()), Contents(), Some([v]))
    {
      r := AddPayload(Some([v]));
    }

    method AddUint16(v: uint16) returns (r: Result<()>)
      requires Valid()
      modifies this`currentSize, payload
      ensures Valid()
      ensures AddedAs(r, old(Contents()), Contents(), Some(EncodeUint16(v)))
    {
      r := AddPayload(Some(EncodeUint16(v)));
    }

    method AddUint32(v: uint32) returns (r: Result<()>)
      requires Valid()
      modifies this`currentSize, payload
      ensures Valid()
      ensures AddedAs(r, old(Contents()), Contents(), Some(EncodeUint32(v)))
    {
      r := AddPayload(Some(EncodeUint32(v)));
    }

    method AddInt8(v: int8) returns (r: Result<()>)
      requires Valid()
      modifies this`currentSize, payload
      ensures Valid()
      ensures AddedAs(r, old(Contents()), Contents(), Some(EncodeSigned(v, 1)))
    {
      r := AddPayload(Some(EncodeSigned(v, 1)));
    }

    method AddInt16(v: int16) returns (r: Result<()>)
      requires Valid()
      modifies this`currentSize, payload
      ensures Valid()
      ensures AddedAs(r, old(Contents()), Contents(), Some(EncodeSigned(v, 2)))
    {
      r := AddPayload(Some(EncodeSigned(v, 2)));
    }

    method AddInt32(v: int32) returns (r: Result<()>)
      requires Valid()
      modifies this`currentSize, payload
      ensures Valid()
      ensures AddedAs(r, old(Contents()), Contents(), Some(EncodeSigned(v, 4)))
    {
      r := AddPayload(Some(EncodeSigned(v, 4)));
    }

    /** addDouble, with the double given by its IEEE 754 bit pattern. */
    method AddDouble(bits: uint64) returns (r: Result<()>)
      requires Valid()
      modifies this`currentSize, payload
      ensures Valid()
      ensures AddedAs(r, old(Contents()), Contents(), Some(EncodeLE(bits, 8)))
    {
      Pow256Values();
      r := AddPayload(Some(EncodeLE(bits, 8)));
    }

    /** addString: the string's length is taken as a uint32_t, so only length mod 2^32 bytes are added. */
    method AddString(s: seq<byte>) returns (r: Result<()>)
      requires Valid()
      modifies this`currentSize, payload
      ensures Valid()
      ensures AddedAs(r, old(Contents()), Contents(), Some(s[..|s| % UINT32_LIMIT]))
    {
      r := AddPayload(Some(s[..|s| % UINT32_LIMIT]));
    }

    method SetErrorCode(e: ErrorCode)
      requires Valid() && IsFrameworkError(e)
      modifies this`errorCode
      ensures Valid()
      ensures State() == old(State()).(errorCode := ErrorValue(e))
    {
      errorCode := ErrorValue(e);
    }

    method BeginResponse(client: uint32, sequence: uint32, sig: uint32)
      requires Valid()
      modifies this
      ensures Valid()
      ensures State() == ResponseState(sig, client, sequence, 0, [])
    {
      clientId := client;
      sequenceId := sequence;
      currentSize := 0;
      signature := sig;
      errorCode := 0;
    }

    method ClearPayload()
      requires Valid()
      modifies this`currentSize
      ensures Valid()
      ensures State() == old(State()).(contents := [])
    {
      currentSize := 0;
    }
  }

  // ---------------------------------------------------------------------
  // Payload readers
  // ---------------------------------------------------------------------

  /** readUint8FromPayload. */
  function ReadUint8FromPayload(payload: seq<byte>, offset: uint32): (r: Result<byte>)
    requires |payload| == PAYLOAD_SIZE
    ensures r.Ok? <==> offset < PAYLOAD_SIZE
    ensures r.Ok? ==> r.value == payload[offset]
    ensures r.Err? ==> r.error == InvalidPayloadOffset
  {
    if offset >= PAYLOAD_SIZE then Err(InvalidPayloadOffset) else Ok(payload[offset])
  }

  /** readUint16FromPayload, with the bound checked without wrap-around (see RejectsOffsetAsWritten). */
  function ReadUint16FromPayload(payload: seq<byte>, offset: uint32): (r: Result<uint16>)
    requires |payload| == PAYLOAD_SIZE
    ensures r.Ok? <==> offset + 2 <= PAYLOAD_SIZE
    ensures r.Ok? ==> EncodeUint16(r.value) == payload[offset..offset + 2]
    ensures r.Err? ==> r.error == InvalidPayloadOffset
  {
    if offset + 2 > PAYLOAD_SIZE then Err(InvalidPayloadOffset)
    else
      var v := DecodeLE(payload[offset..offset + 2]);
      Pow256Values();
      EncodeDecode(payload[offset..offset + 2]);
      DecodeEncode(v, 2);
      Ok(v)
  }

  /** readUint32FromPayload, with the bound checked without wrap-around (see RejectsOffsetAsWritten). */
  function ReadUint32FromPayload(payload: seq<byte>, offset: uint32): (r: Result<uint32>)
    requires |payload| == PAYLOAD_SIZE
    ensures r.Ok? <==> offset + 4 <= PAYLOAD_SIZE
    ensures r.Ok? ==> EncodeUint32(r.value) == payload[offset..offset + 4]
    ensures r.Err? ==> r.error == InvalidPayloadOffset
  {
    if offset + 4 > PAYLOAD_SIZE then Err(InvalidPayloadOffset)
    else
      EncodeDecodeUint32(payload[offset..offset + 4]);
      Ok(DecodeUint32(payload[offset..offset + 4]))
  }

  /**
   * The guard of readUint16FromPayload and readUint32FromPayload as written:
   * `nOffset + sizeof (T)` is computed in size_t, which is 32 bits wide on
   * the controller, so the sum wraps around for offsets near 2^32.
   */
  predicate RejectsOffsetAsWritten(offset: uint32, width: nat)
  {
    (offset + width) % UINT32_LIMIT > PAYLOAD_SIZE
  }

  /** The guard as written lets through an offset far past the 24 payload bytes. */
  lemma WrappedOffsetPassesCheck()
    ensures !RejectsOffsetAsWritten(0xFFFF_FFFF, 4) && !RejectsOffsetAsWritten(0xFFFF_FFFF, 2)
    ensures 0xFFFF_FFFF >= PAYLOAD_SIZE
  {
  }

  /** The corrected readers refuse every offset the wrapped guard gets wrong. */
  lemma CorrectedReadersRefuseWrappedOffset(payload: seq<byte>, offset: uint32)
    requires |payload| == PAYLOAD_SIZE && offset + 4 > PAYLOAD_SIZE && !RejectsOffsetAsWritten(offset, 4)
    ensures ReadUint32FromPayload(payload, offset) == Err(InvalidPayloadOffset)
    ensures offset >= UINT32_LIMIT - 4
  {
  }

  // ---------------------------------------------------------------------
  // Incoming messages and the registry
  // ---------------------------------------------------------------------

  datatype IncomingMessage = IncomingMessage(
    signature: uint32, clientId: uint32, sequenceId: uint32, commandId: uint32,
    payload: seq<byte>, checksum: uint32)

  /** The fields of a 44-byte TcpIncomingMessage. */
  function ParseMessage(data: seq<byte>): (m: IncomingMessage)
    requires |data| == MESSAGE_SIZE
    ensures |m.payload| == PAYLOAD_SIZE
  {
    IncomingMessage(DecodeUint32(data[0..4]), DecodeUint32(data[4..8]), DecodeUint32(data[8..12]),
                    DecodeUint32(data[12..16]), data[16..40], DecodeUint32(data[40..44]))
  }

  /** The 44 bytes a client sends for a message. */
  function EncodeMessage(m: IncomingMessage): (r: seq<byte>)
    requires |m.payload| == PAYLOAD_SIZE
    ensures |r| == MESSAGE_SIZE
  {
    EncodeUint32(m.signature) + EncodeUint32(m.clientId) + EncodeUint32(m.sequenceId)
    + EncodeUint32(m.commandId) + m.payload + EncodeUint32(m.checksum)
  }

  lemma ParseEncode(m: IncomingMessage)
    requires |m.payload| == PAYLOAD_SIZE
    ensures ParseMessage(EncodeMessage(m)) == m
  {
    var s := EncodeMessage(m);
    assert s[0..4] == EncodeUint32(m.signature);
    assert s[4..8] == EncodeUint32(m.clientId);
    assert s[8..12] == EncodeUint32(m.sequenceId);
    assert s[12..16] == EncodeUint32(m.commandId);
    assert s[16..40] == m.payload;
    assert s[40..44] == EncodeUint32(m.checksum);
  }

  lemma EncodeParse(data: seq<byte>)
    requires |data| == MESSAGE_SIZE
    ensures EncodeMessage(ParseMessage(data)) == data
  {
    EncodeDecodeUint32(data[0..4]);
    EncodeDecodeUint32(data[4..8]);
    EncodeDecodeUint32(data[8..12]);
    EncodeDecodeUint32(data[12..16]);
    EncodeDecodeUint32(data[40..44]);
    assert data == data[0..4] + data[4..8] + data[8..12] + data[12..16] + data[16..40] + data[40..44];
  }

  /** A registered handler: its command id and whether it is a buffered (list) command. */
  datatype PacketHandler = PacketHandler(commandId: uint32, buffered: bool)

  /**
   * What the handler's handlePacket does: it returns normally after adding
   * `written` to the response, or it throws. A CException carries a
   * framework code; `Failed(OutOfRange)` is a std::out_of_range.
   */
  datatype HandlerOutcome = Completed(written: seq<byte>) | Failed(error: ErrorCode)

  datatype Dispatch = Dispatch(handled: Result<bool>, response: ResponseState)

  /**
   * CTcpPacketRegistry::handlePacket on a response in state `s`, with the
   * handler's exception caught and answered: the function returns true after
   * the catch (see HandlePacketReturnAsWritten for the code as written).
   */
  function Dispatched(signature: uint32, checksumCheck: bool, handlers: map<uint32, PacketHandler>,
                      data: seq<byte>, outcome: HandlerOutcome, crc: seq<byte> -> uint32,
                      s: ResponseState): (d: Dispatch)
    ensures |s.contents| <= MAX_RESPONSE_SIZE ==> |d.response.contents| <= MAX_RESPONSE_SIZE
  {
    if |data| != MESSAGE_SIZE then Dispatch(Err(InvalidParam), s)
    else
      var m := ParseMessage(data);
      if m.signature != signature then Dispatch(Ok(false), s)
      else if checksumCheck && m.checksum != crc(data[..MESSAGE_SIZE - 4]) then Dispatch(Ok(false), s)
      else if m.commandId !in handlers then Dispatch(Ok(false), s)
      else
        var begun := ResponseState(m.signature, m.clientId, m.sequenceId, 0, []);
        match outcome
        case Completed(w) =>
          (match Appended([], Some(w))
           case Ok(c) => Dispatch(Ok(true), begun.(contents := c))
           case Err(e) => Dispatch(Ok(true), begun.(errorCode := ErrorValue(e))))
        case Failed(e) =>
          if IsFrameworkError(e) then Dispatch(Ok(true), begun.(errorCode := ErrorValue(e)))
          else Dispatch(Err(e), begun)
  }

  /**
   * What dispatching promises: a message of the wrong size is refused; a
   * message is ignored exactly when its signature or checksum is wrong or no
   * handler is registered for its command, and an ignored message leaves the
   * response alone; a handled message has the response begun for its
   * client, with the handler's payload or an error code; only a handler's
   * non-framework exception escapes.
   */
  lemma DispatchedMeans(signature: uint32, checksumCheck: bool, handlers: map<uint32, PacketHandler>,
                        data: seq<byte>, outcome: HandlerOutcome, crc: seq<byte> -> uint32, s: ResponseState)
    ensures var d := Dispatched(signature, checksumCheck, handlers, data, outcome, crc, s);
            |data| != MESSAGE_SIZE ==> d == Dispatch(Err(InvalidParam), s)
    ensures var d := Dispatched(signature, checksumCheck, handlers, data, outcome, crc, s);
            |data| == MESSAGE_SIZE ==>
              (d.handled == Ok(false) <==>
                 ParseMessage(data).signature != signature
                 || (checksumCheck && ParseMessage(data).checksum != crc(data[..MESSAGE_SIZE - 4]))
                 || ParseMessage(data).commandId !in handlers)
    ensures var d := Dispatched(signature, checksumCheck, handlers, data, outcome, crc, s);
            d.handled.Ok? && !d.handled.value ==> d.response == s
    ensures var d := Dispatched(signature, checksumCheck, handlers, data, outcome, crc, s);
            d.handled.Ok? && d.handled.value ==>
              var m := ParseMessage(data);
              d.response.signature == m.signature && d.response.clientId == m.clientId
              && d.response.sequenceId == m.sequenceId
              && (d.response.errorCode == 0 <==> outcome.Completed? && |outcome.written| <= MAX_RESPONSE_SIZE)
              && (d.response.errorCode == 0 ==> d.response.contents == outcome.written)
              && (d.response.errorCode != 0 ==> d.response.contents == [])
    ensures var d := Dispatched(signature, checksumCheck, handlers, data, outcome, crc, s);
            d.handled.Err? && |data| == MESSAGE_SIZE ==> outcome.Failed? && !IsFrameworkError(outcome.error)
  {
  }

  /**
   * The value handlePacket returns as written: after the catch block control
   * reaches the end of the bool function without a return statement, which
   * is undefined behaviour; `Ok(None)` stands for that missing value.
   */
  function HandlePacketReturnAsWritten(signature: uint32, checksumCheck: bool, handlers: map<uint32, PacketHandler>,
                                       data: seq<byte>, outcome: HandlerOutcome, crc: seq<byte> -> uint32): (r: Result<Option<bool>>)
    ensures r.Ok? && r.value.Some? && r.value.value ==> outcome.Completed? && |outcome.written| <= MAX_RESPONSE_SIZE
  {
    if |data| != MESSAGE_SIZE then Err(InvalidParam)
    else
      var m := ParseMessage(data);
      if m.signature != signature then Ok(Some(false))
      else if checksumCheck && m.checksum != crc(data[..MESSAGE_SIZE - 4]) then Ok(Some(false))
      else if m.commandId !in handlers then Ok(Some(false))
      else
        match outcome
        case Completed(w) => if |w| <= MAX_RESPONSE_SIZE then Ok(Some(true)) else Ok(None)
        case Failed(e) => if IsFrameworkError(e) then Ok(None) else Err(e)
  }

  /**
   * Every request whose handler throws a CException is answered with an
   * error response by the corrected registry, while the code as written
   * returns no value for it.
   */
  lemma CaughtFailureHasNoReturnValue(signature: uint32, checksumCheck: bool, handlers: map<uint32, PacketHandler>,
                                      data: seq<byte>, outcome: HandlerOutcome, crc: seq<byte> -> uint32, s: ResponseState)
    requires Dispatched(signature, checksumCheck, handlers, data, outcome, crc, s).handled == Ok(true)
    requires Dispatched(signature, checksumCheck, handlers, data, outcome, crc, s).response.errorCode != 0
    ensures HandlePacketReturnAsWritten(signature, checksumCheck, handlers, data, outcome, crc) == Ok(None)
  {
  }

  /** A concrete such request: command 1 registered, its handler throws INVALIDPARAM. */
  lemma FailingHandlerExample(crc: seq<byte> -> uint32)
    ensures var data := EncodeMessage(IncomingMessage(7, 1, 2, 1, seq(PAYLOAD_SIZE, _ => 0), 0));
            var handlers := map[1 := PacketHandler(1, false)];
            HandlePacketReturnAsWritten(7, false, handlers, data, Failed(InvalidParam), crc) == Ok(None)
            && Dispatched(7, false, handlers, data, Failed(InvalidParam), crc, ResponseState(0, 0, 0, 0, []))
               == Dispatch(Ok(true), ResponseState(7, 1, 2, 1, []))
  {
    var m := IncomingMessage(7, 1, 2, 1, seq(PAYLOAD_SIZE, _ => 0), 0);
    ParseEncode(m);
  }

  class CTcpPacketRegistry {
    const packetSignature: uint32
    /** m_bPerformChecksumCheck: the constructor sets it to false and nothing changes it. */
    const performChecksumCheck: bool
    var handlers: map<uint32, PacketHandler>

    constructor (sig: uint32)
      ensures packetSignature == sig && !performChecksumCheck && handlers == map[]
    {
      packetSignature := sig;
      performChecksumCheck := false;
      handlers := map[];
    }

    /** canHandlePacket. */
    predicate CanHandlePacket(commandId: uint32)
      reads this
    {
      commandId in handlers
    }

    /** registerHandler: a command id can be registered once. */
    method RegisterHandler(h: PacketHandler) returns (r: Result<()>)
      modifies this`handlers
      ensures old(CanHandlePacket(h.commandId)) ==> r == Err(PacketHandlerAlreadyRegistered) && handlers == old(handlers)
      ensures !old(CanHandlePacket(h.commandId)) ==> r == Ok(()) && handlers == old(handlers)[h.commandId := h]
    {
      if CanHandlePacket(h.commandId) {
        return Err(PacketHandlerAlreadyRegistered);
      }
      handlers := handlers[h.commandId := h];
      r := Ok(());
    }

    /** handlePacket, with `outcome` what the handler registered for the message's command does. */
    method HandlePacket(data: seq<byte>, response: CTcpPacketResponse, outcome: HandlerOutcome,
                        crc: seq<byte> -> uint32) returns (r: Result<bool>)
      requires response.Valid()
      modifies response, response.payload
      ensures response.Valid()
      ensures Dispatch(r, response.State())
              == Dispatched(packetSignature, performChecksumCheck, handlers, data, outcome, crc, old(response.State()))
    {
      if |data| != MESSAGE_SIZE {
        return Err(InvalidParam);
      }
      var m := ParseMessage(data);
      if m.signature != packetSignature {
        return Ok(false);
      }
      if performChecksumCheck && m.checksum != crc(data[..MESSAGE_SIZE - 4]) {
        return Ok(false);
      }
      if m.commandId !in handlers {
        return Ok(false);
      }
      response.BeginResponse(m.clientId, m.sequenceId, m.signature);
      match outcome {
        case Completed(w) =>
          var added := response.AddPayload(Some(w));
          if added.Err? {
            response.SetErrorCode(added.error);
            response.ClearPayload();
          }
          r := Ok(true);
        case Failed(e) =>
          if IsFrameworkError(e) {
            response.SetErrorCode(e);
            response.ClearPayload();
            r := Ok(true);
          } else {
            r := Err(e);
          }
      }
    }
  }
}
