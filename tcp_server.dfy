/**
 * CTcpConnection and CTcpServer (TcpServer.cpp): a connection receives
 * 44-byte request messages, hands each to the packet registry and queues
 * the answers in one of two send buffers while the other is on the wire;
 * the server opens a socket, listens and hands each new client to the
 * first inactive connection.
 *
 * The TCP function blocks (TcpOpen, TcpServer, TcpRecv, TcpSend, TcpClose)
 * are foreign: what they report in a cycle is a parameter. Each reports a
 * status word, 0 when it has finished and 65535 (ERR_FUB_BUSY) while it is
 * at work; any other value is an error code.
 */
module TcpServer {
  import opened Wrappers
  import opened Bytes
  import opened TcpPacket

  /** TCPMINBUFFERSIZE and TCPMAXBUFFERSIZE. */
  const TCP_MIN_BUFFER_SIZE: nat := 1024
  const TCP_MAX_BUFFER_SIZE: nat := 16 * 1024 * 1024

  /** ERR_FUB_BUSY. */
  const FUB_BUSY: uint32 := 65535
  /** The second status TcpRecv reports while it waits for data. */
  const RECV_NO_DATA: uint32 := 32605

  /** The buffer sizes a server gives every connection it creates. */
  const SERVER_RECEIVE_BUFFER_SIZE: nat := 1024
  const SERVER_SEND_BUFFER_SIZE: nat := 1024 * 1024

  datatype RecvState =
    | RecvUnknown | RecvInactive | RecvWaitingForData | RecvResetConnection | RecvClosingConnection | RecvError

  datatype SendState =
    | SendUnknown | SendInactive | SendWaitingForData | SendClosingConnection | Sending | SendError

  datatype ServerState =
    | ServerUnknown | ServerInactive | ServerInit | ServerInitializing | ServerListening
    | ServerClosingConnection | ServerError

  predicate IsFinished(status: uint32) { status == 0 }
  predicate IsBusy(status: uint32) { status == FUB_BUSY }
  predicate RecvIsBusy(status: uint32) { status == FUB_BUSY || status == RECV_NO_DATA }

  // ---------------------------------------------------------------------
  // A connection as a value
  // ---------------------------------------------------------------------

  /**
   * What a CTcpConnection holds: its two states, the client it serves, its
   * last error, the bytes of the send buffer on the wire (`sending`), the
   * bytes queued in the other one (`queue`) and its scratch response.
   */
  datatype Connection = Connection(
    recv: RecvState, send: SendState, clientIdent: uint32, lastError: uint32,
    sending: seq<byte>, queue: seq<byte>, response: ResponseState)

  /** The fields of the registry a connection hands its messages to. */
  datatype Registry = Registry(signature: uint32, checksumCheck: bool, handlers: map<uint32, PacketHandler>)

  /** canSendData: `n` more bytes fit behind the `queued` ones in a buffer of `memorySize` bytes. */
  predicate CanSend(queued: nat, n: nat, memorySize: nat)
  {
    n <= memorySize && queued + n <= memorySize
  }

  /**
   * sendData of `data` on a queue: nothing for no bytes; refused with
   * TCPSENDBUFFERSIZEEXCEEDED for more bytes than a buffer holds, with
   * TCPSENDBUFFERISFULL when they do not fit behind the queued ones;
   * otherwise appended.
   */
  function Queued(queue: seq<byte>, data: seq<byte>, memorySize: nat): (r: Result<seq<byte>>)
    ensures data == [] ==> r == Ok(queue)
    ensures data != [] ==> (r.Ok? <==> CanSend(|queue|, |data|, memorySize))
    ensures r.Ok? ==> r.value == queue + data
    ensures r.Err? ==> r.error == (if |data| > memorySize then TcpSendBufferSizeExceeded else TcpSendBufferIsFull)
  {
    if data == [] then Ok(queue)
    else if |data| > memorySize then Err(TcpSendBufferSizeExceeded)
    else if |queue| + |data| > memorySize then Err(TcpSendBufferIsFull)
    else Ok(queue + data)
  }

  /** A queue that fits its buffer still fits it after sendData. */
  lemma QueuedFits(queue: seq<byte>, data: seq<byte>, memorySize: nat)
    requires |queue| <= memorySize
    ensures Queued(queue, data, memorySize).Ok? ==> |Queued(queue, data, memorySize).value| <= memorySize
  {
  }

  /** What queueing an answer did: its result and the queue it left. */
  datatype Sent = Sent(r: Result<()>, queue: seq<byte>)

  /**
   * The answer to a handled message: its header, then its payload when the
   * payload is not empty. A refused header leaves the queue as it was; a
   * refused payload leaves the header queued.
   */
  function Respond(queue: seq<byte>, s: ResponseState, crc: seq<byte> -> uint32, memorySize: nat): (o: Sent)
    requires |s.contents| <= MAX_RESPONSE_SIZE
    ensures o.r.Ok? <==> CanSend(|queue|, HEADER_SIZE + |s.contents|, memorySize)
    ensures o.r.Ok? ==> |o.queue| == |queue| + HEADER_SIZE + |s.contents|
    ensures o.r.Err? ==> o.r.error.TcpSendBufferSizeExceeded? || o.r.error.TcpSendBufferIsFull?
    ensures |queue| <= memorySize ==> |o.queue| <= memorySize
  {
    var header := HeaderBytes(HeaderOf(s, crc));
    var q1 := Queued(queue, header, memorySize);
    if q1.Err? then Sent(Err(q1.error), queue)
    else if |s.contents| > 0 then
      var q2 := Queued(q1.value, s.contents, memorySize);
      if q2.Err? then Sent(Err(q2.error), q1.value) else Sent(Ok(()), q2.value)
    else Sent(Ok(()), q1.value)
  }

  /** A queued answer is the header built for the response followed by the response's payload. */
  lemma RespondQueuesAnswer(queue: seq<byte>, s: ResponseState, crc: seq<byte> -> uint32, memorySize: nat)
    requires |s.contents| <= MAX_RESPONSE_SIZE
    ensures var o := Respond(queue, s, crc, memorySize);
            o.r.Ok? ==> o.queue == queue + HeaderBytes(HeaderOf(s, crc)) + s.contents
  {
  }

  /** What one received message did: handled or not (or an exception), and the queue and response it left. */
  datatype Answered = Answered(r: Result<bool>, queue: seq<byte>, response: ResponseState)

  /**
   * One message of the receive loop: the registry handles it; a handled
   * message has its answer queued.
   */
  function Answer(reg: Registry, msg: seq<byte>, outcome: HandlerOutcome, crc: seq<byte> -> uint32,
                  memorySize: nat, queue: seq<byte>, s: ResponseState): (a: Answered)
    requires |msg| == MESSAGE_SIZE && |s.contents| <= MAX_RESPONSE_SIZE
    ensures |a.response.contents| <= MAX_RESPONSE_SIZE
    ensures a.r.Err? ==> a.r.error.OutOfRange? || a.r.error.TcpSendBufferSizeExceeded? || a.r.error.TcpSendBufferIsFull?
    ensures a.r == Ok(false) ==> a.queue == queue
    ensures a.r == Ok(true) ==> |a.queue| == |queue| + HEADER_SIZE + |a.response.contents|
  {
    AnswerTo(Dispatched(reg.signature, reg.checksumCheck, reg.handlers, msg, outcome, crc, s), crc, memorySize, queue)
  }

  /** The answer once the registry has dispatched the message to `d`. */
  function AnswerTo(d: Dispatch, crc: seq<byte> -> uint32, memorySize: nat, queue: seq<byte>): Answered
    requires |d.response.contents| <= MAX_RESPONSE_SIZE
  {
    if d.handled.Err? then Answered(Err(d.handled.error), queue, d.response)
    else if !d.handled.value then Answered(Ok(false), queue, d.response)
    else
      var o := Respond(queue, d.response, crc, memorySize);
      if o.r.Err? then Answered(Err(o.r.error), o.queue, d.response)
      else Answered(Ok(true), o.queue, d.response)
  }

  /** A message that was handled has the header and payload of its response queued. */
  lemma AnswerQueuesAnswer(reg: Registry, msg: seq<byte>, outcome: HandlerOutcome, crc: seq<byte> -> uint32,
                           memorySize: nat, queue: seq<byte>, s: ResponseState)
    requires |msg| == MESSAGE_SIZE && |s.contents| <= MAX_RESPONSE_SIZE
    ensures var a := Answer(reg, msg, outcome, crc, memorySize, queue, s);
            a.r == Ok(true) ==> a.queue == queue + HeaderBytes(HeaderOf(a.response, crc)) + a.response.contents
  {
    var d := Dispatched(reg.signature, reg.checksumCheck, reg.handlers, msg, outcome, crc, s);
    if d.handled == Ok(true) {
      RespondQueuesAnswer(queue, d.response, crc, memorySize);
    }
  }

  /** What the receive loop did: the next recv state (or an exception), and the queue and response it left. */
  datatype Received = Received(r: Result<RecvState>, queue: seq<byte>, response: ResponseState)

  /**
   * The receive loop on the bytes `data` still to handle, `k` the number of
   * messages before them: whole messages are handled one after the other
   * until one is not handled; then a not handled message or bytes left over
   * give the ERROR state, and a buffer consumed to its end RESETCONNECTION.
   */
  function Consume(reg: Registry, data: seq<byte>, k: nat, outcome: nat -> HandlerOutcome, crc: seq<byte> -> uint32,
                   memorySize: nat, queue: seq<byte>, s: ResponseState): (x: Received)
    requires |s.contents| <= MAX_RESPONSE_SIZE
    ensures |x.response.contents| <= MAX_RESPONSE_SIZE
    ensures x.r.Ok? ==> x.r.value == RecvResetConnection || x.r.value == RecvError
    ensures x.r.Err? ==> x.r.error.OutOfRange? || x.r.error.TcpSendBufferSizeExceeded? || x.r.error.TcpSendBufferIsFull?
    decreases |data|
  {
    if |data| < MESSAGE_SIZE then Received(Ok(if |data| > 0 then RecvError else RecvResetConnection), queue, s)
    else
      var a := Answer(reg, data[..MESSAGE_SIZE], outcome(k), crc, memorySize, queue, s);
      if a.r.Err? then Received(Err(a.r.error), a.queue, a.response)
      else if !a.r.value then Received(Ok(RecvError), a.queue, a.response)
      else Consume(reg, data[MESSAGE_SIZE..], k + 1, outcome, crc, memorySize, a.queue, a.response)
  }

  /** The receive loop on at least one whole message: that message's answer, then the rest. */
  lemma ConsumeOneMessage(reg: Registry, data: seq<byte>, k: nat, outcome: nat -> HandlerOutcome, crc: seq<byte> -> uint32,
                          memorySize: nat, queue: seq<byte>, s: ResponseState)
    requires |s.contents| <= MAX_RESPONSE_SIZE && |data| >= MESSAGE_SIZE
    ensures var a := Answer(reg, data[..MESSAGE_SIZE], outcome(k), crc, memorySize, queue, s);
            var x := Consume(reg, data, k, outcome, crc, memorySize, queue, s);
            (a.r.Err? ==> x == Received(Err(a.r.error), a.queue, a.response))
            && (a.r == Ok(false) ==> x == Received(Ok(RecvError), a.queue, a.response))
            && (a.r == Ok(true) ==> x == Consume(reg, data[MESSAGE_SIZE..], k + 1, outcome, crc, memorySize, a.queue, a.response))
  {
  }

  /** The receive loop ends in RESETCONNECTION only when the bytes were whole messages. */
  lemma {:induction false} ResetOnlyOnWholeMessages(reg: Registry, data: seq<byte>, k: nat, outcome: nat -> HandlerOutcome,
                                                    crc: seq<byte> -> uint32, memorySize: nat, queue: seq<byte>, s: ResponseState)
    requires |s.contents| <= MAX_RESPONSE_SIZE
    ensures Consume(reg, data, k, outcome, crc, memorySize, queue, s).r == Ok(RecvResetConnection) ==> |data| % MESSAGE_SIZE == 0
    decreases |data|
  {
    if |data| >= MESSAGE_SIZE {
      var a := Answer(reg, data[..MESSAGE_SIZE], outcome(k), crc, memorySize, queue, s);
      if a.r == Ok(true) {
        var rest := data[MESSAGE_SIZE..];
        assert Consume(reg, data, k, outcome, crc, memorySize, queue, s)
               == Consume(reg, rest, k + 1, outcome, crc, memorySize, a.queue, a.response);
        ResetOnlyOnWholeMessages(reg, rest, k + 1, outcome, crc, memorySize, a.queue, a.response);
        if Consume(reg, rest, k + 1, outcome, crc, memorySize, a.queue, a.response).r == Ok(RecvResetConnection) {
          OneMoreMessage(|rest|);
          assert |data| == |rest| + MESSAGE_SIZE;
        }
      }
    }
  }

  lemma OneMoreMessage(n: nat)
    requires n % MESSAGE_SIZE == 0
    ensures (n + MESSAGE_SIZE) % MESSAGE_SIZE == 0
  {
  }

  /** The receive loop only adds to the queue, and keeps it within its buffer. */
  lemma {:induction false} ConsumeExtendsQueue(reg: Registry, data: seq<byte>, k: nat, outcome: nat -> HandlerOutcome,
                                               crc: seq<byte> -> uint32, memorySize: nat, queue: seq<byte>, s: ResponseState)
    requires |queue| <= memorySize && |s.contents| <= MAX_RESPONSE_SIZE
    ensures var x := Consume(reg, data, k, outcome, crc, memorySize, queue, s);
            |queue| <= |x.queue| <= memorySize && x.queue[..|queue|] == queue
    decreases |data|
  {
    if |data| >= MESSAGE_SIZE {
      var a := Answer(reg, data[..MESSAGE_SIZE], outcome(k), crc, memorySize, queue, s);
      var d := Dispatched(reg.signature, reg.checksumCheck, reg.handlers, data[..MESSAGE_SIZE], outcome(k), crc, s);
      assert |a.queue| <= memorySize && a.queue[..|queue|] == queue;
      if a.r == Ok(true) {
        ConsumeExtendsQueue(reg, data[MESSAGE_SIZE..], k + 1, outcome, crc, memorySize, a.queue, a.response);
      }
    }
  }

  /** A single request its handler completes, with room in the queue, is answered and the receive block re-armed. */
  lemma OneRequestAnswered(reg: Registry, data: seq<byte>, outcome: nat -> HandlerOutcome, crc: seq<byte> -> uint32,
                           memorySize: nat, queue: seq<byte>, s: ResponseState)
    requires |data| == MESSAGE_SIZE && |s.contents| <= MAX_RESPONSE_SIZE
    requires Dispatched(reg.signature, reg.checksumCheck, reg.handlers, data, outcome(0), crc, s).handled == Ok(true)
    requires |queue| + HEADER_SIZE + MAX_RESPONSE_SIZE <= memorySize
    ensures var x := Consume(reg, data, 0, outcome, crc, memorySize, queue, s);
            x.r == Ok(RecvResetConnection) && x.queue == queue + HeaderBytes(HeaderOf(x.response, crc)) + x.response.contents
  {
    assert data[..MESSAGE_SIZE] == data;
    var a := Answer(reg, data, outcome(0), crc, memorySize, queue, s);
    assert a.r == Ok(true);
    assert data[MESSAGE_SIZE..] == [];
  }

  /** What a cycle of a connection did: normal return or an exception, and the connection it left. */
  datatype ConnStep = ConnStep(r: Result<()>, after: Connection)

  /**
   * The recv half of CTcpConnection::handleCyclic, with `recvStatus` and
   * `received` what TcpRecv reports.
   */
  function RecvCycle(c: Connection, reg: Registry, memorySize: nat, recvStatus: uint32, received: seq<byte>,
                     outcome: nat -> HandlerOutcome, crc: seq<byte> -> uint32): (s: ConnStep)
    requires |c.response.contents| <= MAX_RESPONSE_SIZE
    ensures |s.after.response.contents| <= MAX_RESPONSE_SIZE
    ensures s.after.send == c.send && s.after.clientIdent == c.clientIdent && s.after.sending == c.sending
    ensures s.r.Err? ==> s.after.recv == c.recv
    ensures c.recv != RecvWaitingForData ==> s.after.queue == c.queue && s.after.response == c.response
    ensures s.after.lastError != c.lastError ==> s.after.recv == RecvError && s.after.lastError == recvStatus
  {
    match c.recv
    case RecvWaitingForData =>
      if IsFinished(recvStatus) then
        var x := Consume(reg, received, 0, outcome, crc, memorySize, c.queue, c.response);
        if x.r.Err? then ConnStep(Err(x.r.error), c.(queue := x.queue, response := x.response))
        else ConnStep(Ok(()), c.(recv := x.r.value, queue := x.queue, response := x.response))
      else if RecvIsBusy(recvStatus) then ConnStep(Ok(()), c)
      else ConnStep(Ok(()), c.(recv := RecvError, lastError := recvStatus))
    case RecvResetConnection => ConnStep(Ok(()), c.(recv := RecvWaitingForData))
    case RecvInactive => ConnStep(Ok(()), c)
    case RecvError => ConnStep(Ok(()), c)
    case _ => ConnStep(Err(UnknownTcpRecvState), c)
  }

  /**
   * The send half of CTcpConnection::handleCyclic, with `sendStatus` what
   * TcpSend reports: a waiting connection with queued bytes swaps its
   * buffers and starts sending them.
   */
  function SendCycle(c: Connection, sendStatus: uint32): (s: ConnStep)
    ensures s.after.recv == c.recv && s.after.lastError == c.lastError && s.after.response == c.response
    ensures s.after.clientIdent == c.clientIdent
    ensures c.send == SendWaitingForData && c.queue != [] ==>
              s == ConnStep(Ok(()), c.(send := Sending, sending := c.queue, queue := []))
    ensures s.after.queue != c.queue ==> s.after.queue == [] && s.after.sending == c.queue
  {
    match c.send
    case SendWaitingForData =>
      if |c.queue| > 0 then ConnStep(Ok(()), c.(send := Sending, sending := c.queue, queue := []))
      else ConnStep(Ok(()), c)
    case Sending =>
      if IsFinished(sendStatus) then ConnStep(Ok(()), c.(send := SendWaitingForData))
      else if IsBusy(sendStatus) then ConnStep(Ok(()), c)
      else ConnStep(Ok(()), c.(send := SendError))
    case SendInactive => ConnStep(Ok(()), c)
    case SendError => ConnStep(Ok(()), c)
    case _ => ConnStep(Err(UnknownTcpSendState), c)
  }

  /** CTcpConnection::handleCyclic: the recv half, then (unless it threw) the send half. */
  function ConnectionCycle(c: Connection, reg: Registry, memorySize: nat, recvStatus: uint32, received: seq<byte>,
                           sendStatus: uint32, outcome: nat -> HandlerOutcome, crc: seq<byte> -> uint32): ConnStep
    requires |c.response.contents| <= MAX_RESPONSE_SIZE
  {
    var a := RecvCycle(c, reg, memorySize, recvStatus, received, outcome, crc);
    if a.r.Err? then a else SendCycle(a.after, sendStatus)
  }

  /** The states a connection is ever put in: neither UNKNOWN nor CLOSINGCONNECTION. */
  predicate KnownStates(c: Connection)
  {
    !c.recv.RecvUnknown? && !c.recv.RecvClosingConnection?
    && !c.send.SendUnknown? && !c.send.SendClosingConnection?
  }

  /** Both send buffers hold no more than they can. */
  predicate Fits(c: Connection, memorySize: nat)
  {
    |c.sending| <= memorySize && |c.queue| <= memorySize && |c.response.contents| <= MAX_RESPONSE_SIZE
  }

  /**
   * A cycle keeps a connection in known states and within its buffers, and
   * it throws only what a handler or sendData throws: never the unknown
   * state errors.
   */
  lemma CycleKeepsConnection(c: Connection, reg: Registry, memorySize: nat, recvStatus: uint32, received: seq<byte>,
                             sendStatus: uint32, outcome: nat -> HandlerOutcome, crc: seq<byte> -> uint32)
    requires KnownStates(c) && Fits(c, memorySize)
    ensures var s := ConnectionCycle(c, reg, memorySize, recvStatus, received, sendStatus, outcome, crc);
            KnownStates(s.after) && Fits(s.after, memorySize)
            && (s.r.Err? ==> s.r.error != UnknownTcpRecvState && s.r.error != UnknownTcpSendState)
  {
    var a := RecvCycle(c, reg, memorySize, recvStatus, received, outcome, crc);
    if c.recv == RecvWaitingForData && IsFinished(recvStatus) {
      RecvLoopKeepsConnection(c, reg, memorySize, received, outcome, crc);
    }
    assert KnownStates(a.after) && Fits(a.after, memorySize);
    assert a.r.Err? ==> a.r.error != UnknownTcpRecvState && a.r.error != UnknownTcpSendState;
  }

  /** The receive loop's part of CycleKeepsConnection. */
  lemma RecvLoopKeepsConnection(c: Connection, reg: Registry, memorySize: nat, received: seq<byte>,
                                outcome: nat -> HandlerOutcome, crc: seq<byte> -> uint32)
    requires KnownStates(c) && Fits(c, memorySize)
    ensures var x := Consume(reg, received, 0, outcome, crc, memorySize, c.queue, c.response);
            |x.queue| <= memorySize
            && (x.r.Ok? ==> x.r.value == RecvResetConnection || x.r.value == RecvError)
            && (x.r.Err? ==> x.r.error != UnknownTcpRecvState && x.r.error != UnknownTcpSendState)
  {
    ConsumeExtendsQueue(reg, received, 0, outcome, crc, memorySize, c.queue, c.response);
  }

  /** initialize: the connection serves `ident`, waits for data on both sides and has nothing to send. */
  function Initialized(c: Connection, ident: uint32): (d: Connection)
    ensures KnownStates(d) && d.sending == [] && d.queue == []
    ensures d.response == c.response
  {
    c.(recv := RecvWaitingForData, send := SendWaitingForData, clientIdent := ident, lastError := 0,
       sending := [], queue := [])
  }

  ghost function RegistryValue(reg: CTcpPacketRegistry): Registry
    reads reg
  {
    Registry(reg.packetSignature, reg.performChecksumCheck, reg.handlers)
  }

  /** A send or receive buffer size the constructor accepts. */
  predicate BufferSizeOk(n: nat)
  {
    TCP_MIN_BUFFER_SIZE <= n <= TCP_MAX_BUFFER_SIZE
  }

  // ---------------------------------------------------------------------
  // CTcpConnection
  // ---------------------------------------------------------------------

  class CTcpConnection {
    /** The size of m_ReceiveBuffer, which TcpRecv fills. */
    const receiveBufferSize: uint32
    /** m_SendBufferMemorySize: the size of each send buffer. */
    const memorySize: uint32
    /** m_SendBuffer1 and m_SendBuffer2. */
    const sendBuffer1: array<byte>
    const sendBuffer2: array<byte>
    /** m_pSendBufferInProcess and m_pSendBufferNextInQueue: one of the two buffers each. */
    var inProcess: array<byte>
    var nextInQueue: array<byte>
    var inProcessSize: uint32
    var nextInQueueSize: uint32
    const registry: CTcpPacketRegistry
    /** m_TempResponse: the response every message is answered into. */
    const tempResponse: CTcpPacketResponse
    var recvState: RecvState
    var sendState: SendState
    var clientIdent: uint32
    var lastError: uint32

    /** The objects the connection owns. */
    ghost function Repr(): set<object>
    {
      {this, sendBuffer1, sendBuffer2, tempResponse, tempResponse.payload}
    }

    ghost predicate Valid()
      reads this, tempResponse
    {
      BufferSizeOk(memorySize) && BufferSizeOk(receiveBufferSize)
      && sendBuffer1 != sendBuffer2
      && sendBuffer1.Length == memorySize && sendBuffer2.Length == memorySize
      && ((inProcess == sendBuffer1 && nextInQueue == sendBuffer2) || (inProcess == sendBuffer2 && nextInQueue == sendBuffer1))
      && inProcessSize <= memorySize && nextInQueueSize <= memorySize
      && tempResponse.Valid()
      && tempResponse.payload != sendBuffer1 && tempResponse.payload != sendBuffer2
    }

    /** The connection as a value. */
    ghost function Conn(): (c: Connection)
      reads this, sendBuffer1, sendBuffer2, tempResponse, tempResponse.payload
      requires Valid()
      ensures Fits(c, memorySize)
    {
      Connection(recvState, sendState, clientIdent, lastError,
                 inProcess[..inProcessSize], nextInQueue[..nextInQueueSize], tempResponse.State())
    }

    ghost function RegistryOf(): Registry
      reads registry
    {
      RegistryValue(registry)
    }

    /** The constructor once the buffer sizes are known to be in range. */
    constructor (nReceive: uint32, nSend: uint32, reg: CTcpPacketRegistry)
      requires BufferSizeOk(nReceive) && BufferSizeOk(nSend)
      ensures Valid() && fresh(sendBuffer1) && fresh(sendBuffer2) && fresh(tempResponse) && fresh(tempResponse.payload)
      ensures registry == reg && receiveBufferSize == nReceive && memorySize == nSend
      ensures Conn() == Connection(RecvInactive, SendInactive, 0, 0, [], [], ResponseState(0, 0, 0, 0, []))
    {
      receiveBufferSize := nReceive;
      memorySize := nSend;
      registry := reg;
      sendBuffer1 := new byte[nSend](_ => 0);
      sendBuffer2 := new byte[nSend](_ => 0);
      tempResponse := new CTcpPacketResponse();
      recvState, sendState := RecvInactive, SendInactive;
      clientIdent, lastError := 0, 0;
      inProcessSize, nextInQueueSize := 0, 0;
      new;
      inProcess := sendBuffer1;
      nextInQueue := sendBuffer2;
    }

    /**
     * CTcpConnection::CTcpConnection: buffer sizes outside 1 KiB .. 16 MiB
     * are refused with INVALIDTCPBUFFERSIZE.
     */
    static method New(nReceive: uint32, nSend: uint32, reg: CTcpPacketRegistry) returns (r: Result<CTcpConnection>)
      ensures r.Ok? <==> BufferSizeOk(nReceive) && BufferSizeOk(nSend)
      ensures r.Err? ==> r.error == InvalidTcpBufferSize
      ensures r.Ok? ==> fresh(r.value.Repr()) && r.value.Valid() && r.value.registry == reg
                        && r.value.receiveBufferSize == nReceive && r.value.memorySize == nSend
                        && r.value.Conn() == Connection(RecvInactive, SendInactive, 0, 0, [], [], ResponseState(0, 0, 0, 0, []))
    {
      if !BufferSizeOk(nReceive) || !BufferSizeOk(nSend) {
        return Err(InvalidTcpBufferSize);
      }
      var c := new CTcpConnection(nReceive, nSend, reg);
      r := Ok(c);
    }

    /** initialize: serve the client `ident` with empty send buffers. */
    method Initialize(ident: uint32)
      requires Valid()
      modifies this
      ensures Valid()
      ensures Conn() == Initialized(old(Conn()), ident)
    {
      clientIdent := ident;
      recvState := RecvWaitingForData;
      sendState := SendWaitingForData;
      lastError := 0;
      inProcessSize := 0;
      nextInQueueSize := 0;
    }

    /** canSendData. */
    function CanSendData(n: uint32): (b: bool)
      reads this
      ensures b <==> CanSend(nextInQueueSize, n, memorySize)
    {
      if n > memorySize then false
      else if nextInQueueSize + n > memorySize then false
      else true
    }

    /** sendData: throws exactly when canSendData is false, and otherwise appends to the queue. */
    method SendData(data: seq<byte>) returns (r: Result<()>)
      requires Valid() && |data| < UINT32_LIMIT
      modifies this`nextInQueueSize, nextInQueue
      ensures Valid()
      ensures data != [] ==> (r.Ok? <==> old(CanSendData(|data|)))
      ensures var q := Queued(old(Conn()).queue, data, memorySize);
              (q.Ok? ==> r == Ok(()) && Conn() == old(Conn()).(queue := q.value))
              && (q.Err? ==> r == Err(q.error) && Conn() == old(Conn()))
    {
      if |data| == 0 {
        return Ok(());
      }
      if |data| > memorySize {
        return Err(TcpSendBufferSizeExceeded);
      }
      if nextInQueueSize + |data| > memorySize {
        return Err(TcpSendBufferIsFull);
      }
      ghost var before := nextInQueue[..];
      CopyInto(nextInQueue, nextInQueueSize, data);
      assert nextInQueue[..nextInQueueSize + |data|] == before[..nextInQueueSize] + data;
      nextInQueueSize := nextInQueueSize + |data|;
      r := Ok(());
    }

    /** Queues the answer to the message the response was built for: its header, then its payload. */
    method SendResponse(crc: seq<byte> -> uint32) returns (r: Result<()>)
      requires Valid()
      modifies this`nextInQueueSize, nextInQueue
      ensures Valid()
      ensures var o := Respond(old(Conn()).queue, old(Conn()).response, crc, memorySize);
              r == o.r && Conn() == old(Conn()).(queue := o.queue)
    {
      var header := HeaderOf(tempResponse.State(), crc);
      r := SendData(HeaderBytes(header));
      if r.Err? {
        return;
      }
      if tempResponse.currentSize > 0 {
        r := SendData(tempResponse.Contents());
      }
    }

    /** The registry handles one message into the connection's response. */
    method HandleMessage(msg: seq<byte>, outcome: HandlerOutcome, crc: seq<byte> -> uint32) returns (r: Result<bool>)
      requires Valid()
      modifies tempResponse, tempResponse.payload
      ensures Valid()
      ensures Dispatch(r, Conn().response)
              == Dispatched(RegistryOf().signature, RegistryOf().checksumCheck, RegistryOf().handlers, msg, outcome, crc, old(Conn()).response)
      ensures Conn() == old(Conn()).(response := Conn().response)
    {
      r := registry.HandlePacket(msg, tempResponse, outcome, crc);
    }

    /** One message of the receive loop: handle it and queue its answer. */
    method AnswerMessage(msg: seq<byte>, outcome: HandlerOutcome, crc: seq<byte> -> uint32) returns (r: Result<bool>)
      requires Valid() && |msg| == MESSAGE_SIZE
      modifies this`nextInQueueSize, nextInQueue, tempResponse, tempResponse.payload
      ensures Valid()
      ensures var a := Answer(RegistryOf(), msg, outcome, crc, memorySize, old(Conn()).queue, old(Conn()).response);
              r == a.r && Conn() == old(Conn()).(queue := a.queue, response := a.response)
    {
      ghost var before := Conn();
      var handled := HandleMessage(msg, outcome, crc);
      assert Answer(RegistryOf(), msg, outcome, crc, memorySize, before.queue, before.response)
             == AnswerTo(Dispatch(handled, Conn().response), crc, memorySize, before.queue);
      if handled.Err? {
        return Err(handled.error);
      }
      if !handled.value {
        return Ok(false);
      }
      var sent := SendResponse(crc);
      if sent.Err? {
        return Err(sent.error);
      }
      r := Ok(true);
    }

    /** The first message of `data` in the receive loop, and what the loop then does with the rest. */
    method ReceiveOne(data: seq<byte>, k: nat, outcome: nat -> HandlerOutcome, crc: seq<byte> -> uint32) returns (r: Result<bool>)
      requires Valid() && |data| >= MESSAGE_SIZE
      modifies this`nextInQueueSize, nextInQueue, tempResponse, tempResponse.payload
      ensures Valid()
      ensures Conn() == old(Conn()).(queue := Conn().queue, response := Conn().response)
      ensures var x := Consume(RegistryOf(), data, k, outcome, crc, memorySize, old(Conn()).queue, old(Conn()).response);
              if r.Err? then x == Received(Err(r.error), Conn().queue, Conn().response)
              else if !r.value then x == Received(Ok(RecvError), Conn().queue, Conn().response)
              else x == Consume(RegistryOf(), data[MESSAGE_SIZE..], k + 1, outcome, crc, memorySize, Conn().queue, Conn().response)
    {
      ConsumeOneMessage(RegistryOf(), data, k, outcome, crc, memorySize, Conn().queue, Conn().response);
      r := AnswerMessage(data[..MESSAGE_SIZE], outcome(k), crc);
    }

    /** The receive loop of handleCyclic over the `received` bytes; its result is the next recv state. */
    method ReceiveMessages(received: seq<byte>, outcome: nat -> HandlerOutcome, crc: seq<byte> -> uint32)
      returns (r: Result<RecvState>)
      requires Valid()
      modifies this`nextInQueueSize, nextInQueue, tempResponse, tempResponse.payload
      ensures Valid()
      ensures var x := Consume(RegistryOf(), received, 0, outcome, crc, memorySize, old(Conn()).queue, old(Conn()).response);
              r == x.r && Conn() == old(Conn()).(queue := x.queue, response := x.response)
    {
      ghost var target := Consume(RegistryOf(), received, 0, outcome, crc, memorySize, Conn().queue, Conn().response);
      var hadError := false;
      var pos := 0;
      var k := 0;
      while !hadError && |received| - pos >= MESSAGE_SIZE
        invariant Valid() && pos <= |received|
        invariant Conn() == old(Conn()).(queue := Conn().queue, response := Conn().response)
        invariant !hadError ==>
                    Consume(RegistryOf(), received[pos..], k, outcome, crc, memorySize, Conn().queue, Conn().response) == target
        invariant hadError ==> target == Received(Ok(RecvError), Conn().queue, Conn().response)
      {
        var handled := ReceiveOne(received[pos..], k, outcome, crc);
        if handled.Err? {
          return Err(handled.error);
        }
        if handled.value {
          assert received[pos..][MESSAGE_SIZE..] == received[pos + MESSAGE_SIZE..];
          pos := pos + MESSAGE_SIZE;
          k := k + 1;
        } else {
          hadError := true;
        }
      }
      if hadError || |received| - pos > 0 {
        r := Ok(RecvError);
      } else {
        r := Ok(RecvResetConnection);
      }
    }

    /** The recv half of handleCyclic. */
    method HandleRecv(recvStatus: uint32, received: seq<byte>, outcome: nat -> HandlerOutcome, crc: seq<byte> -> uint32)
      returns (r: Result<()>)
      requires Valid()
      modifies this, nextInQueue, tempResponse, tempResponse.payload
      ensures Valid()
      ensures ConnStep(r, Conn()) == RecvCycle(old(Conn()), RegistryOf(), memorySize, recvStatus, received, outcome, crc)
    {
      match recvState {
        case RecvWaitingForData =>
          if IsFinished(recvStatus) {
            var next := ReceiveMessages(received, outcome, crc);
            if next.Err? {
              return Err(next.error);
            }
            recvState := next.value;
          } else if RecvIsBusy(recvStatus) {
            recvState := RecvWaitingForData;
          } else {
            recvState := RecvError;
            lastError := recvStatus;
          }
          r := Ok(());
        case RecvResetConnection =>
          recvState := RecvWaitingForData;
          r := Ok(());
        case RecvInactive =>
          r := Ok(());
        case RecvError =>
          r := Ok(());
        case _ =>
          r := Err(UnknownTcpRecvState);
      }
    }

    /** The send half of handleCyclic: a waiting connection with queued bytes swaps its buffers. */
    method HandleSend(sendStatus: uint32) returns (r: Result<()>)
      requires Valid()
      modifies this
      ensures Valid()
      ensures ConnStep(r, Conn()) == SendCycle(old(Conn()), sendStatus)
    {
      match sendState {
        case SendWaitingForData =>
          if nextInQueueSize > 0 {
            inProcessSize := nextInQueueSize;
            nextInQueueSize := 0;
            inProcess, nextInQueue := nextInQueue, inProcess;
            sendState := Sending;
          } else {
            sendState := SendWaitingForData;
          }
          r := Ok(());
        case Sending =>
          if IsFinished(sendStatus) {
            sendState := SendWaitingForData;
          } else if IsBusy(sendStatus) {
            sendState := Sending;
          } else {
            sendState := SendError;
          }
          r := Ok(());
        case SendInactive =>
          r := Ok(());
        case SendError =>
          r := Ok(());
        case _ =>
          r := Err(UnknownTcpSendState);
      }
    }

    /**
     * handleCyclic, with `recvStatus` and `received` what TcpRecv reports,
     * `sendStatus` what TcpSend reports and `outcome(k)` what the handler
     * of the k-th received message does.
     */
    method HandleCyclic(recvStatus: uint32, received: seq<byte>, sendStatus: uint32,
                        outcome: nat -> HandlerOutcome, crc: seq<byte> -> uint32) returns (r: Result<()>)
      requires Valid() && |received| <= receiveBufferSize
      modifies Repr()
      ensures Valid()
      ensures ConnStep(r, Conn())
              == ConnectionCycle(old(Conn()), RegistryOf(), memorySize, recvStatus, received, sendStatus, outcome, crc)
    {
      r := HandleRecv(recvStatus, received, outcome, crc);
      if r.Err? {
        return;
      }
      r := HandleSend(sendStatus);
    }
  }

  // ---------------------------------------------------------------------
  // CTcpServer
  // ---------------------------------------------------------------------

  /** What the server's function blocks report in a cycle: TcpOpen, TcpServer (with the new client) and TcpClose. */
  datatype ServerInput = ServerInput(openStatus: uint32, listenStatus: uint32, clientIdent: uint32, closeStatus: uint32)

  /** What a connection's function blocks and message handlers do in a cycle. */
  datatype ConnectionInput = ConnectionInput(
    recvStatus: uint32, received: seq<byte>, sendStatus: uint32, outcome: nat -> HandlerOutcome)

  /**
   * The server state machine of handleServer: its result, the next state
   * and last error, the client to hand to a connection (`enable`) and the
   * client to turn away (`close`).
   */
  datatype ServerStep = ServerStep(r: Result<()>, state: ServerState, lastError: uint32,
                                   enable: Option<uint32>, close: Option<uint32>)

  /** The switch of handleServer on the state `st`; `anyInactive` says whether a connection is free for a new client. */
  function ServerTransition(st: ServerState, lastError: uint32, inp: ServerInput, anyInactive: bool): (s: ServerStep)
    ensures s.enable.Some? ==> st == ServerListening && anyInactive && s.enable.value == inp.clientIdent
    ensures s.close.Some? ==> st == ServerListening && !anyInactive && s.close.value == inp.clientIdent
    ensures s.enable.None? || s.close.None?
    ensures s.r.Err? <==> st == ServerUnknown
    ensures st == ServerInactive || st == ServerError ==> s == ServerStep(Ok(()), st, lastError, None, None)
    ensures s.lastError != lastError ==> s.state == ServerError
  {
    match st
    case ServerInit => ServerStep(Ok(()), ServerInitializing, lastError, None, None)
    case ServerInitializing =>
      if IsFinished(inp.openStatus) then ServerStep(Ok(()), ServerListening, lastError, None, None)
      else if IsBusy(inp.openStatus) then ServerStep(Ok(()), ServerInitializing, lastError, None, None)
      else ServerStep(Ok(()), ServerError, inp.openStatus, None, None)
    case ServerListening =>
      if IsFinished(inp.listenStatus) then
        if anyInactive then ServerStep(Ok(()), ServerListening, lastError, Some(inp.clientIdent), None)
        else ServerStep(Ok(()), ServerClosingConnection, lastError, None, Some(inp.clientIdent))
      else if IsBusy(inp.listenStatus) then ServerStep(Ok(()), ServerListening, lastError, None, None)
      else ServerStep(Ok(()), ServerError, inp.listenStatus, None, None)
    case ServerClosingConnection =>
      if IsFinished(inp.closeStatus) then ServerStep(Ok(()), ServerListening, lastError, None, None)
      else if IsBusy(inp.closeStatus) then ServerStep(Ok(()), ServerClosingConnection, lastError, None, None)
      else ServerStep(Ok(()), ServerError, inp.closeStatus, None, None)
    case ServerInactive => ServerStep(Ok(()), st, lastError, None, None)
    case ServerError => ServerStep(Ok(()), st, lastError, None, None)
    case ServerUnknown => ServerStep(Err(UnknownTcpServerState), st, lastError, None, None)
  }

  /** The server is never put in the UNKNOWN state, so handleServer never throws UNKNOWNTCPSERVERSTATE. */
  lemma ServerNeverUnknown(st: ServerState, lastError: uint32, inp: ServerInput, anyInactive: bool)
    requires st != ServerUnknown
    ensures var s := ServerTransition(st, lastError, inp, anyInactive);
            s.r.Ok? && s.state != ServerUnknown
  {
  }

  /**
   * The server state machine over successive cycles: `steps` are each
   * cycle's statuses together with whether a connection was free.
   */
  function ServerRun(st: ServerState, lastError: uint32, steps: seq<(ServerInput, bool)>): (s: ServerStep)
    decreases |steps|
  {
    if steps == [] then ServerStep(Ok(()), st, lastError, None, None)
    else
      var t := ServerTransition(st, lastError, steps[0].0, steps[0].1);
      if t.r.Err? then t else ServerRun(t.state, t.lastError, steps[1..])
  }

  /** However many cycles a started server runs, handleServer never throws and never reaches UNKNOWN. */
  lemma {:induction false} ServerRunNeverUnknown(st: ServerState, lastError: uint32, steps: seq<(ServerInput, bool)>)
    requires st != ServerUnknown
    ensures ServerRun(st, lastError, steps).r.Ok? && ServerRun(st, lastError, steps).state != ServerUnknown
    decreases |steps|
  {
    if steps != [] {
      ServerNeverUnknown(st, lastError, steps[0].0, steps[0].1);
      var t := ServerTransition(st, lastError, steps[0].0, steps[0].1);
      ServerRunNeverUnknown(t.state, t.lastError, steps[1..]);
    }
  }

  /** Once in ERROR or INACTIVE, the server stays there with the same last error. */
  lemma {:induction false} ServerRunStaysStopped(st: ServerState, lastError: uint32, steps: seq<(ServerInput, bool)>)
    requires st == ServerError || st == ServerInactive
    ensures ServerRun(st, lastError, steps) == ServerStep(Ok(()), st, lastError, None, None)
    decreases |steps|
  {
    if steps != [] {
      ServerRunStaysStopped(st, lastError, steps[1..]);
    }
  }

  /** A client that connects while every connection is in use is turned away and the server closes it. */
  lemma FullServerTurnsClientAway(lastError: uint32, inp: ServerInput)
    requires IsFinished(inp.listenStatus)
    ensures ServerTransition(ServerListening, lastError, inp, false)
            == ServerStep(Ok(()), ServerClosingConnection, lastError, None, Some(inp.clientIdent))
  {
  }

  /** A connection cycle of a server connection. */
  function CycleOf(c: Connection, reg: Registry, inp: ConnectionInput, crc: seq<byte> -> uint32): ConnStep
    requires |c.response.contents| <= MAX_RESPONSE_SIZE
  {
    ConnectionCycle(c, reg, SERVER_SEND_BUFFER_SIZE, inp.recvStatus, inp.received, inp.sendStatus, inp.outcome, crc)
  }

  /** `after` and result `r` are what a server connection's cycle makes of `before`. */
  predicate Cycled(r: Result<()>, before: Connection, after: Connection, reg: Registry, inp: ConnectionInput, crc: seq<byte> -> uint32)
    requires |before.response.contents| <= MAX_RESPONSE_SIZE
  {
    ConnStep(r, after) == CycleOf(before, reg, inp, crc)
  }

  /**
   * The connection loop of handleServer on connections `before`, with
   * result `r`: the first `stopped` connections cycle and come out as
   * `after`, connection `stopped` throws (when `r` is an error), and the
   * rest are not reached.
   */
  predicate CycledAll(r: Result<()>, stopped: nat, before: seq<Connection>, after: seq<Connection>,
                      reg: Registry, ins: seq<ConnectionInput>, crc: seq<byte> -> uint32)
  {
    |before| == |after| && |before| <= |ins| && stopped <= |before| && (r.Ok? <==> stopped == |before|)
    && forall j :: 0 <= j < |before| ==>
         |before[j].response.contents| <= MAX_RESPONSE_SIZE
         && if j < stopped then Cycled(Ok(()), before[j], after[j], reg, ins[j], crc)
            else if j == stopped then Cycled(r, before[j], after[j], reg, ins[j], crc)
            else after[j] == before[j]
  }

  /** A connection the server owns: valid, on the server's registry, with the server's buffer sizes. */
  ghost predicate Owned(c: CTcpConnection, reg: CTcpPacketRegistry)
    reads c, c.tempResponse
  {
    c.Valid() && c.registry == reg
    && c.receiveBufferSize == SERVER_RECEIVE_BUFFER_SIZE && c.memorySize == SERVER_SEND_BUFFER_SIZE
  }

  /** Every connection of `cs` is owned by a server on `reg`. */
  ghost predicate AllOwned(cs: seq<CTcpConnection>, reg: CTcpPacketRegistry)
    reads set j | 0 <= j < |cs| :: cs[j] as object, set j | 0 <= j < |cs| :: cs[j].tempResponse as object
  {
    forall j :: 0 <= j < |cs| ==> Owned(cs[j], reg)
  }

  /** The connections `cs` as values. */
  ghost function ConnsOf(cs: seq<CTcpConnection>, reg: CTcpPacketRegistry): (r: seq<Connection>)
    requires AllOwned(cs, reg)
    reads (set j | 0 <= j < |cs| :: cs[j] as object), (set j | 0 <= j < |cs| :: cs[j].tempResponse as object), ObjectsOf(cs)
    ensures |r| == |cs| && forall j :: 0 <= j < |cs| ==> r[j] == cs[j].Conn()
  {
    seq(|cs|, j requires 0 <= j < |cs| && cs[j].Valid()
                reads if 0 <= j < |cs| then {cs[j], cs[j].tempResponse, cs[j].tempResponse.payload, cs[j].sendBuffer1, cs[j].sendBuffer2} else {}
                => cs[j].Conn())
  }

  /** The objects of the connections `cs`, component by component. */
  ghost function ObjectsOf(cs: seq<CTcpConnection>): set<object>
  {
    (set j | 0 <= j < |cs| :: cs[j] as object) + (set j | 0 <= j < |cs| :: cs[j].tempResponse as object)
    + (set j | 0 <= j < |cs| :: cs[j].tempResponse.payload as object)
    + (set j | 0 <= j < |cs| :: cs[j].sendBuffer1 as object) + (set j | 0 <= j < |cs| :: cs[j].sendBuffer2 as object)
  }

  /** The objects of the connections `cs`. */
  ghost function ReprOf(cs: seq<CTcpConnection>): set<object>
  {
    set i, o | 0 <= i < |cs| && o in cs[i].Repr() :: o
  }

  lemma ReprOfAppend(cs: seq<CTcpConnection>, c: CTcpConnection)
    ensures ReprOf(cs + [c]) == ReprOf(cs) + c.Repr()
  {
    var ds := cs + [c];
    forall o | o in ReprOf(ds)
      ensures o in ReprOf(cs) + c.Repr()
    {
      var i :| 0 <= i < |ds| && o in ds[i].Repr();
      if i < |cs| {
        assert ds[i] == cs[i];
      }
    }
    forall o | o in ReprOf(cs) + c.Repr()
      ensures o in ReprOf(ds)
    {
      if o in c.Repr() {
        assert ds[|cs|] == c;
      } else {
        var i :| 0 <= i < |cs| && o in cs[i].Repr();
        assert ds[i] == cs[i];
      }
    }
  }

  /** The connections `cs` own pairwise disjoint objects. */
  ghost predicate Disjoint(cs: seq<CTcpConnection>)
  {
    forall i, j :: 0 <= i < j < |cs| ==> cs[i].Repr() !! cs[j].Repr()
  }

  /** Every connection of `xs` owns objects apart from those of every connection of `ys`. */
  ghost predicate Apart(xs: seq<CTcpConnection>, ys: seq<CTcpConnection>)
  {
    forall i, j :: 0 <= i < |xs| && 0 <= j < |ys| ==> xs[i].Repr() !! ys[j].Repr()
  }

  /** No connection of `cs` owns `o`. */
  ghost predicate Outside(o: object, cs: seq<CTcpConnection>)
  {
    forall i :: 0 <= i < |cs| ==> o !in cs[i].Repr()
  }

  /** Moving the first of one group of connections to the end of another keeps `o` outside both. */
  lemma OutsideMove(o: object, c: CTcpConnection, rest: seq<CTcpConnection>, act: seq<CTcpConnection>)
    requires Outside(o, [c] + rest) && Outside(o, act)
    ensures Outside(o, rest) && Outside(o, act + [c])
  {
    assert ([c] + rest)[0] == c;
    forall i | 0 <= i < |rest|
      ensures o !in rest[i].Repr()
    {
      assert ([c] + rest)[i + 1] == rest[i];
    }
  }

  /** The rest of disjoint connections is disjoint, and apart from the first. */
  lemma DisjointTail(c: CTcpConnection, rest: seq<CTcpConnection>)
    requires Disjoint([c] + rest)
    ensures Disjoint(rest)
    ensures forall j :: 0 <= j < |rest| ==> c.Repr() !! rest[j].Repr()
  {
    var cs := [c] + rest;
    forall j | 0 <= j < |rest|
      ensures c.Repr() !! rest[j].Repr()
    {
      assert cs[0] == c && cs[j + 1] == rest[j];
    }
    forall i, j | 0 <= i < j < |rest|
      ensures rest[i].Repr() !! rest[j].Repr()
    {
      assert cs[i + 1] == rest[i] && cs[j + 1] == rest[j];
    }
  }

  /** Moving the first of one group of connections to the end of another keeps the groups apart. */
  lemma ApartMove(c: CTcpConnection, rest: seq<CTcpConnection>, act: seq<CTcpConnection>)
    requires Apart([c] + rest, act)
    requires forall j :: 0 <= j < |rest| ==> c.Repr() !! rest[j].Repr()
    ensures Apart(rest, act + [c])
    ensures forall j :: 0 <= j < |act| ==> act[j].Repr() !! c.Repr()
  {
    var cs := [c] + rest;
    forall j | 0 <= j < |act|
      ensures act[j].Repr() !! c.Repr()
    {
      assert cs[0] == c;
    }
    forall i, j | 0 <= i < |rest| && 0 <= j < |act| + 1
      ensures rest[i].Repr() !! (act + [c])[j].Repr()
    {
      assert cs[i + 1] == rest[i];
    }
  }

  /** Connections with pairwise disjoint objects stay so when one with new objects joins them. */
  lemma DisjointAppend(cs: seq<CTcpConnection>, c: CTcpConnection)
    requires Disjoint(cs)
    requires forall i :: 0 <= i < |cs| ==> cs[i].Repr() !! c.Repr()
    ensures Disjoint(cs + [c])
  {
  }

  /** The constructor's loop: `n` new inactive server connections on `reg`. */
  method MakeConnections(n: uint32, reg: CTcpPacketRegistry) returns (conns: seq<CTcpConnection>)
    ensures |conns| == n && Disjoint(conns)
    ensures forall i :: 0 <= i < |conns| ==>
              Owned(conns[i], reg) && fresh(conns[i].Repr())
              && conns[i].Conn() == Connection(RecvInactive, SendInactive, 0, 0, [], [], ResponseState(0, 0, 0, 0, []))
  {
    conns := [];
    var index := 0;
    while index < n
      invariant 0 <= index <= n && |conns| == index
      invariant Disjoint(conns)
      invariant forall i :: 0 <= i < |conns| ==>
                  Owned(conns[i], reg) && fresh(conns[i].Repr())
                  && conns[i].Conn() == Connection(RecvInactive, SendInactive, 0, 0, [], [], ResponseState(0, 0, 0, 0, []))
    {
      var c := new CTcpConnection(SERVER_RECEIVE_BUFFER_SIZE, SERVER_SEND_BUFFER_SIZE, reg);
      DisjointAppend(conns, c);
      conns := conns + [c];
      index := index + 1;
    }
  }

  /** One cycle of connection `i` of the server connections `act`; the others stay as they are. */
  method CycleOne(act: seq<CTcpConnection>, i: nat, reg: CTcpPacketRegistry, inp: ConnectionInput, crc: seq<byte> -> uint32)
    returns (r: Result<()>)
    requires i < |act| && Disjoint(act) && Outside(reg, act) && |inp.received| <= SERVER_RECEIVE_BUFFER_SIZE
    requires AllOwned(act, reg)
    modifies act[i].Repr()
    ensures AllOwned(act, reg)
    ensures Cycled(r, old(act[i].Conn()), act[i].Conn(), RegistryValue(reg), inp, crc)
    ensures forall k :: 0 <= k < |act| && k != i ==> act[k].Conn() == old(act[k].Conn())
  {
    var c := act[i];
    assert forall k :: 0 <= k < |act| && k != i ==> act[k].Repr() !! c.Repr();
    r := c.HandleCyclic(inp.recvStatus, inp.received, inp.sendStatus, inp.outcome, crc);
  }

  /**
   * The connection loop of handleServer: every connection runs its cycle
   * with its own inputs, until one of them throws; `stopped` is the
   * connection that threw, or the number of connections.
   */
  method CycleAll(act: seq<CTcpConnection>, reg: CTcpPacketRegistry, ins: seq<ConnectionInput>, crc: seq<byte> -> uint32)
    returns (r: Result<()>, ghost stopped: nat)
    requires Disjoint(act) && Outside(reg, act) && |ins| >= |act|
    requires AllOwned(act, reg)
    requires forall j :: 0 <= j < |act| ==> |ins[j].received| <= SERVER_RECEIVE_BUFFER_SIZE
    modifies ReprOf(act)
    ensures AllOwned(act, reg)
    ensures stopped <= |act| && (r.Ok? <==> stopped == |act|)
    ensures forall j :: 0 <= j < |act| ==>
              if j < stopped then Cycled(Ok(()), old(act[j].Conn()), act[j].Conn(), RegistryValue(reg), ins[j], crc)
              else if j == stopped then Cycled(r, old(act[j].Conn()), act[j].Conn(), RegistryValue(reg), ins[j], crc)
              else act[j].Conn() == old(act[j].Conn())
  {
    var i := 0;
    while i < |act|
      invariant 0 <= i <= |act|
      invariant AllOwned(act, reg)
      invariant forall j :: 0 <= j < i ==>
                  Cycled(Ok(()), old(act[j].Conn()), act[j].Conn(), RegistryValue(reg), ins[j], crc)
      invariant forall j :: i <= j < |act| ==> act[j].Conn() == old(act[j].Conn())
    {
      var res := CycleOne(act, i, reg, ins[i], crc);
      if res.Err? {
        return res, i;
      }
      assert res.value == ();
      i := i + 1;
    }
    return Ok(()), |act|;
  }

  class CTcpServer {
    const registry: CTcpPacketRegistry
    const port: uint32
    const maxConnections: uint32
    var state: ServerState
    var lastError: uint32
    /** m_InactiveConnections and m_ActiveConnections. */
    var inactive: seq<CTcpConnection>
    var active: seq<CTcpConnection>

    ghost function Connections(): seq<CTcpConnection>
      reads this
    {
      inactive + active
    }

    ghost function Footprint(): set<object>
      reads this
    {
      (set i | 0 <= i < |inactive| :: inactive[i] as object) + (set i | 0 <= i < |inactive| :: inactive[i].tempResponse as object)
      + (set i | 0 <= i < |active| :: active[i] as object) + (set i | 0 <= i < |active| :: active[i].tempResponse as object)
    }

    ghost predicate Valid()
      reads this, Footprint()
    {
      |inactive| + |active| == maxConnections
      && AllOwned(inactive, registry) && AllOwned(active, registry)
      && Disjoint(inactive) && Disjoint(active) && Apart(inactive, active)
      && Outside(this, inactive) && Outside(this, active) && Outside(registry, inactive) && Outside(registry, active)
    }

    /**
     * CTcpServer::CTcpServer: inactive, on a new registry for the
     * signature, with maxConnections inactive connections of 1 KiB receive
     * and 1 MiB send buffers.
     */
    constructor (p: uint32, maxConn: uint32, signature: uint32)
      ensures Valid() && state == ServerInactive && lastError == 0 && port == p && maxConnections == maxConn
      ensures fresh(registry) && registry.packetSignature == signature && registry.handlers == map[]
      ensures active == [] && |inactive| == maxConn
      ensures forall i :: 0 <= i < |inactive| ==>
                fresh(inactive[i].Repr())
                && inactive[i].Conn() == Connection(RecvInactive, SendInactive, 0, 0, [], [], ResponseState(0, 0, 0, 0, []))
    {
      var reg := new CTcpPacketRegistry(signature);
      var conns := MakeConnections(maxConn, reg);
      registry := reg;
      port := p;
      maxConnections := maxConn;
      state := ServerInactive;
      lastError := 0;
      inactive := conns;
      active := [];
    }

    /** serverRunning. */
    predicate ServerRunning()
      reads this
    {
      state != ServerInactive
    }

    /** startServer: only an inactive server starts, into INIT. */
    method StartServer() returns (r: Result<()>)
      modifies this`state
      ensures old(state) != ServerInactive ==> r == Err(ServerIsAlreadyRunning) && state == old(state)
      ensures old(state) == ServerInactive ==> r == Ok(()) && state == ServerInit
    {
      if state != ServerInactive {
        return Err(ServerIsAlreadyRunning);
      }
      state := ServerInit;
      r := Ok(());
    }

    /** stopServer: a running server stops; stopping a stopped one throws SERVERISALREADYRUNNING, as the code does. */
    method StopServer() returns (r: Result<()>)
      modifies this`state
      ensures old(state) == ServerInactive ==> r == Err(ServerIsAlreadyRunning) && state == old(state)
      ensures old(state) != ServerInactive ==> r == Ok(()) && state == ServerInactive
    {
      if state == ServerInactive {
        return Err(ServerIsAlreadyRunning);
      }
      state := ServerInactive;
      r := Ok(());
    }

    /** Moves the first inactive connection to the end of the active ones. */
    method Activate()
      requires Valid() && inactive != []
      modifies this`inactive, this`active
      ensures Valid()
      ensures inactive == old(inactive[1..]) && active == old(active) + [old(inactive[0])]
      ensures ReprOf(active) == old(ReprOf(active)) + old(inactive[0].Repr())
      ensures ConnsOf(active, registry) == old(ConnsOf(active, registry)) + [old(inactive[0].Conn())]
    {
      var c := inactive[0];
      ReprOfAppend(active, c);
      var rest := inactive[1..];
      assert inactive == [c] + rest;
      DisjointTail(c, rest);
      ApartMove(c, rest, active);
      DisjointAppend(active, c);
      OutsideMove(this, c, rest, active);
      OutsideMove(registry, c, rest, active);
      inactive := rest;
      active := active + [c];
    }

    /** Initializes the first inactive connection for the client; the active ones stay as they are. */
    method InitializeFirst(ident: uint32)
      requires Valid() && inactive != []
      modifies inactive[0]
      ensures Valid()
      ensures inactive[0].Conn() == Initialized(old(inactive[0].Conn()), ident)
      ensures ConnsOf(active, registry) == old(ConnsOf(active, registry))
    {
      var c := inactive[0];
      assert forall j :: 0 < j < |inactive| ==> inactive[j].Repr() !! c.Repr();
      c.Initialize(ident);
    }

    /** enableConnection: the first inactive connection is initialized for the client and becomes the last active one. */
    method EnableConnection(ident: uint32) returns (enabled: bool)
      requires Valid()
      modifies this`inactive, this`active, if inactive == [] then {} else {inactive[0]}
      ensures Valid()
      ensures enabled <==> old(inactive) != []
      ensures !enabled ==> inactive == old(inactive) && active == old(active)
      ensures enabled ==> inactive == old(inactive[1..]) && active == old(active) + [old(inactive[0])]
      ensures !enabled ==> ConnsOf(active, registry) == old(ConnsOf(active, registry))
      ensures enabled ==> ConnsOf(active, registry) == old(ConnsOf(active, registry)) + [Initialized(old(inactive[0].Conn()), ident)]
      ensures enabled ==> ReprOf(active) == old(ReprOf(active)) + old(inactive[0].Repr())
    {
      if inactive == [] {
        return false;
      }
      InitializeFirst(ident);
      Activate();
      enabled := true;
    }

    /** registerPacketHandler: registration on the server's registry. */
    method RegisterPacketHandler(h: PacketHandler) returns (r: Result<()>)
      modifies registry`handlers
      ensures old(registry.CanHandlePacket(h.commandId)) ==> r == Err(PacketHandlerAlreadyRegistered) && registry.handlers == old(registry.handlers)
      ensures !old(registry.CanHandlePacket(h.commandId)) ==> r == Ok(()) && registry.handlers == old(registry.handlers)[h.commandId := h]
    {
      r := registry.RegisterHandler(h);
    }

    /** The connection loop of handleServer, on the active connections. */
    method CycleConnections(ins: seq<ConnectionInput>, crc: seq<byte> -> uint32) returns (r: Result<()>, ghost stopped: nat)
      requires Valid() && |ins| >= |active|
      requires forall j :: 0 <= j < |active| ==> |ins[j].received| <= SERVER_RECEIVE_BUFFER_SIZE
      modifies ReprOf(active)
      ensures Valid() && inactive == old(inactive) && active == old(active)
      ensures CycledAll(r, stopped, old(ConnsOf(active, registry)), ConnsOf(active, registry), RegistryValue(registry), ins, crc)
    {
      r, stopped := CycleAll(active, registry, ins, crc);
    }

    /** The switch of handleServer: the state machine on the statuses of the server's function blocks. */
    method StepServer(inp: ServerInput) returns (r: Result<()>)
      requires Valid()
      modifies this`state, this`lastError, this`inactive, this`active
      modifies if inactive == [] then {} else {inactive[0]}
      ensures Valid()
      ensures var t := ServerTransition(old(state), old(lastError), inp, old(inactive) != []);
              r == t.r && state == t.state && lastError == t.lastError
      ensures var t := ServerTransition(old(state), old(lastError), inp, old(inactive) != []);
              t.enable.Some? ==>
                inactive == old(inactive[1..]) && active == old(active) + [old(inactive[0])]
      ensures var t := ServerTransition(old(state), old(lastError), inp, old(inactive) != []);
              t.enable.None? ==> inactive == old(inactive) && active == old(active)
      ensures var t := ServerTransition(old(state), old(lastError), inp, old(inactive) != []);
              t.enable.None? ==> ConnsOf(active, registry) == old(ConnsOf(active, registry))
      ensures var t := ServerTransition(old(state), old(lastError), inp, old(inactive) != []);
              t.enable.Some? ==>
                ConnsOf(active, registry) == old(ConnsOf(active, registry)) + [Initialized(old(inactive[0].Conn()), inp.clientIdent)]
      ensures ReprOf(active) <= old(ReprOf(active)) + if old(inactive) == [] then {} else old(inactive[0].Repr())
    {
      r := Ok(());
      var next, error := state, lastError;
      match state {
        case ServerInit =>
          next := ServerInitializing;
        case ServerInitializing =>
          if IsFinished(inp.openStatus) {
            next := ServerListening;
          } else if !IsBusy(inp.openStatus) {
            next, error := ServerError, inp.openStatus;
          }
        case ServerListening =>
          if IsFinished(inp.listenStatus) {
            var enabled := EnableConnection(inp.clientIdent);
            if !enabled {
              next := ServerClosingConnection;
            }
          } else if !IsBusy(inp.listenStatus) {
            next, error := ServerError, inp.listenStatus;
          }
        case ServerClosingConnection =>
          if IsFinished(inp.closeStatus) {
            next := ServerListening;
          } else if !IsBusy(inp.closeStatus) {
            next, error := ServerError, inp.closeStatus;
          }
        case ServerInactive =>
        case ServerError =>
        case ServerUnknown =>
          r := Err(UnknownTcpServerState);
      }
      SetState(next, error);
    }

    /** Sets the state and last error; the connections stay as they are. */
    method SetState(next: ServerState, error: uint32)
      requires Valid()
      modifies this`state, this`lastError
      ensures Valid() && state == next && lastError == error
      ensures inactive == old(inactive) && active == old(active)
      ensures ConnsOf(active, registry) == old(ConnsOf(active, registry))
    {
      state, lastError := next, error;
    }

    /**
     * handleServer: the server state machine on the statuses of its
     * function blocks (`inp`), then one cycle of every active connection on
     * its own inputs (`ins`), in order, until one throws. `mid` are the
     * active connections as the state machine left them.
     */
    method HandleServer(inp: ServerInput, ins: seq<ConnectionInput>, crc: seq<byte> -> uint32)
      returns (r: Result<()>, ghost stopped: nat, ghost mid: seq<Connection>)
      requires Valid() && |ins| == maxConnections
      requires forall j :: 0 <= j < |ins| ==> |ins[j].received| <= SERVER_RECEIVE_BUFFER_SIZE
      modifies this`state, this`lastError, this`inactive, this`active
      modifies ReprOf(active), if inactive == [] then {} else inactive[0].Repr()
      ensures Valid()
      ensures var t := ServerTransition(old(state), old(lastError), inp, old(inactive) != []);
              state == t.state && lastError == t.lastError
              && (t.enable.Some? ==> inactive == old(inactive[1..]) && active == old(active) + [old(inactive[0])])
              && (t.enable.None? ==> inactive == old(inactive) && active == old(active))
      ensures ServerTransition(old(state), old(lastError), inp, old(inactive) != []).r.Err? ==>
                r == Err(UnknownTcpServerState) && ConnsOf(active, registry) == old(ConnsOf(active, registry))
      ensures var t := ServerTransition(old(state), old(lastError), inp, old(inactive) != []);
              t.r.Ok? ==>
                (t.enable.None? ==> mid == old(ConnsOf(active, registry)))
                && (t.enable.Some? ==> mid == old(ConnsOf(active, registry)) + [Initialized(old(inactive[0].Conn()), inp.clientIdent)])
                && CycledAll(r, stopped, mid, ConnsOf(active, registry), RegistryValue(registry), ins, crc)
    {
      stopped, mid := 0, [];
      r := StepServer(inp);
      if r.Err? {
        return;
      }
      mid := ConnsOf(active, registry);
      r, stopped := CycleConnections(ins, crc);
    }
  }
}
