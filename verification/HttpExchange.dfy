/**
 One HTTP exchange of the client: what the handler of each asynchronous operation does next,
 as a function of how the operation ended and of what came in.
 */
module HttpExchange {

  datatype Error = Success | NotFound | Aborted | Eof | OtherError | BrokenPipe | MessageSize | ProtocolError

  const ULONG_RANGE := 0x1_0000_0000_0000_0000

  /** `unsigned long`; what strtoul reads for a negative numeral is wrapped into it. */
  type Ulong = n: int | 0 <= n < ULONG_RANGE

  /** The asynchronous operation that is outstanding. */
  datatype Phase =
    | Resolving | Connecting | Writing | ReadingHead
    | ReadingBody | ReadingRest | ReadingSize | ReadingChunk(length: Ulong)

  /** What the head says about the body; `missing` when not all of it is in the buffer. A length
      is unreadable when stoull throws: it is no numeral, or too large a one. */
  datatype Body = Malformed | UnreadableLength | Sized(missing: bool) | Chunked | UntilClose | NoBody

  /** A chunk's size line; the last chunk has length 0, and `additional` bytes behind the line
      are in the buffer already. */
  datatype Chunk = BadSize | Chunk(length: Ulong, additional: nat)

  /** How an operation ended; `full` when the buffer it read into has its largest size. */
  datatype Outcome = Outcome(error: Error, full: bool, body: Body, chunk: Chunk)

  /** `room` is what the collected chunks may still grow by. With `Escape` an exception leaves
      the handler. */
  datatype Action = Start(phase: Phase, room: nat) | Reply(error: Error) | Reconnect(error: Error) | Escape

  function Connect(open: bool): Phase { if open then Writing else Resolving }

  function ReadChunked(room: nat): Action {
    if room == 0 then Reply(MessageSize) else Start(ReadingSize, room)
  }

  /** The length with its line end does not fit: no chunk of this size can arrive, but the wrapped
      sum lets the handler go on, and the allocation of its buffer throws. */
  predicate Wraps(length: Ulong) { 2 + length >= ULONG_RANGE }

  /** The chunk in hand is taken to be complete. */
  function PostProcess(length: Ulong, room: nat): Action {
    if length == 0 then Reply(Success)
    else if Wraps(length) then Escape
    else ReadChunked(if length < room then room - length else 0)
  }

  /** What is compared with the bytes behind the size line. */
  function Needed(length: Ulong): Ulong { (2 + length) % ULONG_RANGE }

  function OnBody(body: Body, room: nat): Action {
    match body
    case Malformed => Reply(ProtocolError)
    case UnreadableLength => Escape
    case Sized(missing) => if missing then Start(ReadingBody, room) else Reply(Success)
    case Chunked => ReadChunked(room)
    case UntilClose => Start(ReadingRest, room)
    case NoBody => Reply(Success)
  }

  function OnHead(o: Outcome, attemptReconnect: bool, room: nat): Action {
    if (o.error.Success? || o.error.NotFound?) && o.full then Reply(MessageSize)
    else if o.error.Success? then OnBody(o.body, room)
    else if attemptReconnect && !o.error.Aborted? then Reconnect(o.error)
    else Reply(o.error)
  }

  function OnSize(o: Outcome, room: nat): Action {
    if (o.error.Success? || o.error.NotFound?) && o.full then Reply(MessageSize)
    else if !o.error.Success? then Reply(o.error)
    else
      match o.chunk
      case BadSize => Reply(ProtocolError)
      case Chunk(length, additional) =>
        if Needed(length) > additional then Start(ReadingChunk(length), room) else PostProcess(length, room)
  }

  function OnChunk(o: Outcome, length: Ulong, room: nat): Action {
    if !o.error.Success? then Reply(o.error)
    else if o.full then Reply(MessageSize)
    else PostProcess(length, room)
  }

  /** The handler of an operation; `locked` when the runner lets it continue. */
  function React(p: Phase, o: Outcome, locked: bool, attemptReconnect: bool, room: nat): Action {
    if !locked then Reply(BrokenPipe)
    else
      match p
      case Resolving => if o.error.Success? then Start(Connecting, room) else Reply(o.error)
      case Connecting => if o.error.Success? then Start(Writing, room) else Reply(o.error)
      case Writing => if o.error.Success? then Start(ReadingHead, room) else Reply(o.error)
      case ReadingHead => OnHead(o, attemptReconnect, room)
      case ReadingBody => if o.error.Success? && o.full then Reply(MessageSize) else Reply(o.error)
      case ReadingRest =>
        if o.error.Success? && o.full then Reply(MessageSize)
        else Reply(if o.error.Eof? then Success else o.error)
      case ReadingSize => OnSize(o, room)
      case ReadingChunk(length) => OnChunk(o, length, room)
  }

  /** The head came in: from now on the connection may be tried again. */
  predicate Heard(p: Phase, o: Outcome, locked: bool) {
    locked && p.ReadingHead? && o.error.Success? && !o.full
  }

  predicate Early(p: Phase) { p.Resolving? || p.Connecting? || p.Writing? || p.ReadingHead? }

  /** At most so many operations end before the exchange does, this one included. */
  function Rank(p: Phase, limit: nat, room: nat, reconnects: nat): nat {
    match p
    case Resolving => 2 * limit + 5 + Spare(reconnects)
    case Connecting => 2 * limit + 4 + Spare(reconnects)
    case Writing => 2 * limit + 3 + Spare(reconnects)
    case ReadingHead => 2 * limit + 2 + Spare(reconnects)
    case ReadingBody => 1
    case ReadingRest => 1
    case ReadingSize => 2 * room
    case ReadingChunk(_) => if room > 0 then 2 * room - 1 else 0
  }

  function Spare(reconnects: nat): nat { if reconnects == 0 then 4 else 0 }

  /** The operation ended well, within the size of its buffer. */
  predicate Clear(o: Outcome, locked: bool) { locked && o.error.Success? && !o.full }

  /** What came in is beyond what the handlers can take: a Content-Length that cannot be read, or
      a chunk whose size wraps, as soon as it seems complete. */
  predicate Overtaxing(p: Phase, o: Outcome) {
    match p
    case ReadingHead => o.body.UnreadableLength?
    case ReadingSize => o.chunk.Chunk? && Wraps(o.chunk.length) && Needed(o.chunk.length) <= o.chunk.additional
    case ReadingChunk(length) => Wraps(length)
    case _ => false
  }

  /** Exactly when an exception leaves a handler. */
  lemma EscapeIff(p: Phase, o: Outcome, locked: bool, attemptReconnect: bool, room: nat)
    ensures React(p, o, locked, attemptReconnect, room).Escape? <==> Clear(o, locked) && Overtaxing(p, o)
  {
  }

  /** Chunks are only read while there is room. */
  predicate Fits(p: Phase, limit: nat, room: nat) {
    room <= limit && (p.ReadingSize? || p.ReadingChunk? ==> room > 0)
  }

  /** Each handler brings the exchange closer to its end. */
  lemma ReactProgresses(p: Phase, o: Outcome, locked: bool, attemptReconnect: bool, limit: nat, room: nat, reconnects: nat)
    requires Fits(p, limit, room)
    ensures Rank(p, limit, room, reconnects) > 0
    ensures var a := React(p, o, locked, attemptReconnect, room);
            && (a.Start? ==>
                  && Fits(a.phase, limit, a.room)
                  && Rank(a.phase, limit, a.room, reconnects) < Rank(p, limit, room, reconnects)
                  && (Early(a.phase) ==> Early(p) && !Heard(p, o, locked)))
            && (a.Reconnect? ==>
                  && attemptReconnect && !Heard(p, o, locked) && Early(p)
                  && (reconnects == 0 ==> Rank(Resolving, limit, room, 1) < Rank(p, limit, room, 0)))
  {
  }
}
