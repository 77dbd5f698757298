/**
  Value model of one connection of the demo streaming endpoint
  (DemoConsumeSocket): the client control protocol, the per-connection
  MessageController with its MessageSender (dispatcher) and KafkaConsumer
  (ingester) flags, the queue they share, and one atomic step per
  iteration of each background loop.

  Every event is a total function from the connection state to the next
  state. A loop step taken when its thread is not at that point of its
  loop leaves the state unchanged. The histories that the running system
  leaves only as side effects (the records returned by the broker, the
  records written to the store, the records offered to and polled from the
  queue, the records pushed to the client, the close requests) are kept as
  append-only sequences so that the properties can be stated.
 */
module StreamProtocol {
  import opened Sequences

  datatype Option<T> = None | Some(value: T)

  /** A record consumed from the broker (DemoConsumedMessage). */
  datatype Record = Record(topic: string, partition: int, offset: int, value: string, timestamp: int)

  /** The inbound text message as the JSON reader sees it. */
  datatype Inbound =
    | Action(name: string)            // an object whose "action" member is a JSON string
    | MissingAction                   // an object without an "action" member
    | NonStringAction                 // an "action" member that is not a JSON string
    | Unparsable(description: string) // the reader throws JsonException or IllegalStateException

  /** Exceptions that escape onMessage because no catch clause names them. */
  datatype Escaped = NullPointer | ClassCast | IllegalArgument

  datatype Outcome = Handled | Uncaught(exception: Escaped)

  /** CloseReason.CloseCodes used by the endpoint. */
  datatype CloseCode = UnexpectedCondition

  /** Numeric value of a close code (section 7.4.1 of RFC 6455). */
  function CodeValue(code: CloseCode): int
  {
    match code
    case UnexpectedCondition => 1011
  }

  datatype CloseReason = CloseReason(code: CloseCode, phrase: string)

  /**
    The longest reason phrase a close frame carries, in UTF-8 bytes: a
    control frame payload is at most 125 bytes (section 5.5 of RFC 6455),
    two of which are the status code (section 5.5.1). The CloseReason
    constructor rejects a longer phrase with IllegalArgumentException.
   */
  const MaxReasonBytes: nat := 123

  /** Bytes of the UTF-8 encoding of one character (section 3 of RFC 3629). */
  function CharUtf8Bytes(ch: char): nat
  {
    if ch as int < 0x80 then 1
    else if ch as int < 0x800 then 2
    else if ch as int < 0x1_0000 then 3
    else 4
  }

  /** Bytes of the UTF-8 encoding of a string. */
  function Utf8Length(s: string): nat
  {
    if s == [] then 0 else CharUtf8Bytes(s[0]) + Utf8Length(s[1..])
  }

  /** `new CloseReason(code, phrase)` accepts the phrase. */
  predicate ReasonFits(phrase: string)
  {
    Utf8Length(phrase) <= MaxReasonBytes
  }

  /** Where the dispatcher thread (MessageSender.run) stands. */
  datatype SenderPc =
    | SenderNotSpawned   // the thread was never started
    | SenderOuterCheck   // about to test `while (!exit)`
    | SenderInner        // about to test `while (!exit && sendMessages)`
    | SenderPolling      // the inner test passed: in `messageQueue.poll(1, SECONDS)`, then the push
    | SenderFinished     // run() has returned
    | SenderDied         // run() ended by an exception no catch clause names

  /** Where the ingester thread (KafkaConsumer.run) stands. */
  datatype ConsumerPc =
    | ConsumerNotSpawned
    | ConsumerTop                                // about to test `while (!exit)`
    | InBatch(rest: seq<Record>)                 // at the head of the for loop over a batch
    | Offering(message: Record, rest: seq<Record>) // in the `while (!exit && !offer(...))` retry loop
    | ConsumerFinished                           // consumer.shutdown() has been called

  /** A MessageController together with its sender's and consumer's fields and the queue. */
  datatype Controller = Controller(
    sendMessages: bool,
    senderExit: bool,
    senderPc: SenderPc,
    consumerExit: bool,
    consumerPc: ConsumerPc,
    queue: seq<Record>)

  /** One endpoint instance (one client connection). */
  datatype Connection = Connection(
    controller: Option<Controller>, // messageController, None for null
    storeHandle: bool,              // MONGO_CONNECTOR != null
    controllersCreated: nat,        // `new MessageController()` evaluations
    threadsStarted: nat,            // `thread.start()` calls
    consumed: seq<Record>,          // records returned by consume(), in order
    persisted: seq<Record>,         // records passed to insertStockPurchase, in order
    enqueued: seq<Record>,          // records accepted by offer, in order
    dequeued: seq<Record>,          // records returned by poll, in order
    sent: seq<Record>,              // records pushed to the client by sendObject, in order
    sendErrors: nat,                // sendObject calls that threw
    shutdownCalls: nat,             // consumer.shutdown() calls
    closeRequests: seq<CloseReason>)// currentSession.close(reason) calls

  /** The capacity of `new LinkedBlockingQueue<>()`: Integer.MAX_VALUE. */
  const QueueCapacity: nat := 0x7fff_ffff

  /** The state right after onOpen; the store handle is whatever an earlier connection left. */
  function Initial(storeHandle: bool): Connection
  {
    Connection(None, storeHandle, 0, 0, [], [], [], [], [], 0, 0, [])
  }

  // ---------------------------------------------------------------- MessageController

  /** Field initialisers of MessageSender and KafkaConsumer: `sendMessages = true`, `exit = false`. */
  function NewController(): Controller
  {
    Controller(true, false, SenderNotSpawned, false, ConsumerNotSpawned, [])
  }

  /** MessageController.stop: both `exit` flags set. */
  function Stop(ctl: Controller): Controller
  {
    ctl.(consumerExit := true, senderExit := true)
  }

  /**
    MessageController.start: with a store handle both loops are started
    (each then sits at its outer loop test); without one, stop().
   */
  function Start(ctl: Controller, storeHandle: bool): Controller
  {
    if storeHandle then ctl.(senderPc := SenderOuterCheck, consumerPc := ConsumerTop)
    else Stop(ctl)
  }

  /** MessageController.pause. */
  function Pause(ctl: Controller): Controller
  {
    ctl.(sendMessages := false)
  }

  /** MessageController.resume. */
  function Resume(ctl: Controller): Controller
  {
    ctl.(sendMessages := true)
  }

  // ---------------------------------------------------------------- Session events

  datatype Reaction = Reaction(next: Connection, outcome: Outcome)

  /**
    onError: close the session with UNEXPECTED_CONDITION and the error's
    message. When the message does not fit in a close frame, the
    CloseReason constructor throws IllegalArgumentException, which the
    `catch (IOException e)` does not cover: nothing is closed and the
    exception leaves onError (see OnErrorEscapes).
   */
  function OnError(c: Connection, description: string): Connection
  {
    if ReasonFits(description) then
      c.(closeRequests := c.closeRequests + [CloseReason(UnexpectedCondition, description)])
    else c
  }

  /** Whether onError with this message ends in an exception. */
  predicate OnErrorEscapes(description: string)
  {
    !ReasonFits(description)
  }

  /**
    onMessage. `storeReachable` is whether `new MongoConnector()` succeeds
    when a controller is constructed (the KafkaConsumer constructor assigns
    the result to MONGO_CONNECTOR).
   */
  function OnMessage(c: Connection, msg: Inbound, storeReachable: bool): Reaction
  {
    match msg
    case Action(name) =>
      if name == "start" then
        (match c.controller
         case None =>
           Reaction(c.(controller := Some(Start(NewController(), storeReachable)),
                       storeHandle := storeReachable,
                       controllersCreated := c.controllersCreated + 1,
                       threadsStarted := c.threadsStarted + (if storeReachable then 2 else 0)),
                    Handled)
         case Some(ctl) =>
           Reaction(c.(controller := Some(Resume(ctl))), Handled))
      else if name == "stop" then
        (match c.controller
         case None => Reaction(c, Uncaught(NullPointer))
         case Some(ctl) => Reaction(c.(controller := Some(Pause(ctl))), Handled))
      else
        Reaction(c, Handled)
    case MissingAction => Reaction(c, Uncaught(NullPointer))
    case NonStringAction => Reaction(c, Uncaught(ClassCast))
    case Unparsable(description) =>
      if OnErrorEscapes(description) then Reaction(c, Uncaught(IllegalArgument))
      else Reaction(OnError(c, description), Handled)
  }

  /** onClose: stop the controller if there is one. */
  function OnClose(c: Connection): Connection
  {
    match c.controller
    case None => c
    case Some(ctl) => c.(controller := Some(Stop(ctl)))
  }

  // ---------------------------------------------------------------- Dispatcher (MessageSender.run)

  /** The test of the inner loop, `!exit && sendMessages`. */
  predicate DeliveryActive(ctl: Controller)
  {
    !ctl.senderExit && ctl.sendMessages
  }

  /** The outer loop test `while (!exit)`. */
  function DispatcherCheck(c: Connection): Connection
  {
    match c.controller
    case Some(ctl) =>
      if ctl.senderPc == SenderOuterCheck then
        c.(controller := Some(ctl.(senderPc := if ctl.senderExit then SenderFinished else SenderInner)))
      else c
    case None => c
  }

  /** The inner loop test `while (!exit && sendMessages)` when it holds: the body begins with a poll. */
  function InnerLoopCheck(c: Connection): Connection
  {
    match c.controller
    case Some(ctl) =>
      if ctl.senderPc == SenderInner && DeliveryActive(ctl) then
        c.(controller := Some(ctl.(senderPc := SenderPolling)))
      else c
    case None => c
  }

  /**
    The rest of one iteration of the inner loop, after its test: the poll
    returns the head of the queue, or times out on an empty queue, and the
    record polled is pushed. The flags are not looked at again, so a `stop`
    or a close that lands during the poll does not hold back this push.
    `sendError` is the message of the exception sendObject throws, if it
    throws; the record is then consumed but not delivered, and onError runs.
    If onError itself throws, the exception leaves run() and the dispatcher
    thread is gone, with `exit` unset.
   */
  function DispatchOne(c: Connection, sendError: Option<string>): Connection
  {
    match c.controller
    case Some(ctl) =>
      if ctl.senderPc == SenderPolling then
        if ctl.queue == [] then
          c.(controller := Some(ctl.(senderPc := SenderInner)))
        else
          var m := ctl.queue[0];
          var polled := c.(controller := Some(ctl.(queue := ctl.queue[1..], senderPc := SenderInner)),
                           dequeued := c.dequeued + [m]);
          (match sendError
           case None => polled.(sent := c.sent + [m])
           case Some(description) =>
             var failed := polled.(sendErrors := c.sendErrors + 1);
             if OnErrorEscapes(description) then
               failed.(controller := Some(ctl.(queue := ctl.queue[1..], senderPc := SenderDied)))
             else OnError(failed, description))
      else c
    case None => c
  }

  /** The inner loop test when it fails: `sendMessages = false`, then back to the outer test. */
  function EndInnerLoop(c: Connection): Connection
  {
    match c.controller
    case Some(ctl) =>
      if ctl.senderPc == SenderInner && !DeliveryActive(ctl) then
        c.(controller := Some(ctl.(sendMessages := false, senderPc := SenderOuterCheck)))
      else c
    case None => c
  }

  // ---------------------------------------------------------------- Ingester (KafkaConsumer.run)

  /**
    The outer loop test `while (!exit)`: on exit the broker client is shut
    down; otherwise consume() returns `batch`.
   */
  function IngesterCheck(c: Connection, batch: seq<Record>): Connection
  {
    match c.controller
    case Some(ctl) =>
      if ctl.consumerPc == ConsumerTop then
        if ctl.consumerExit then
          c.(controller := Some(ctl.(consumerPc := ConsumerFinished)), shutdownCalls := c.shutdownCalls + 1)
        else
          c.(controller := Some(ctl.(consumerPc := InBatch(batch))), consumed := c.consumed + batch)
      else c
    case None => c
  }

  /** The for loop over a batch: persist the next record, or go back to the outer test. */
  function IngestOne(c: Connection): Connection
  {
    match c.controller
    case Some(ctl) =>
      (match ctl.consumerPc
       case InBatch(rest) =>
         if rest == [] then
           c.(controller := Some(ctl.(consumerPc := ConsumerTop)))
         else
           c.(controller := Some(ctl.(consumerPc := Offering(rest[0], rest[1..]))),
              persisted := c.persisted + [rest[0]])
       case _ => c)
    case None => c
  }

  /**
    One test of `while (!exit && !offer(message))`: with exit set the
    record is abandoned; otherwise the offer succeeds unless the queue is
    full, in which case it times out and is retried.
   */
  function OfferOne(c: Connection): Connection
  {
    match c.controller
    case Some(ctl) =>
      (match ctl.consumerPc
       case Offering(m, rest) =>
         if ctl.consumerExit then
           c.(controller := Some(ctl.(consumerPc := InBatch(rest))))
         else if |ctl.queue| < QueueCapacity then
           c.(controller := Some(ctl.(consumerPc := InBatch(rest), queue := ctl.queue + [m])),
              enqueued := c.enqueued + [m])
         else c
       case _ => c)
    case None => c
  }

  // ---------------------------------------------------------------- Interleavings

  /** Everything that can happen next on a connection. */
  datatype Event =
    | Message(msg: Inbound, storeReachable: bool)
    | Close
    | TransportError(description: string)
    | DispatcherTurn
    | InnerTurn
    | Dispatch(sendError: Option<string>)
    | EndInner
    | IngesterTurn(batch: seq<Record>)
    | Ingest
    | Offer

  function Step(c: Connection, e: Event): Connection
  {
    match e
    case Message(msg, storeReachable) => OnMessage(c, msg, storeReachable).next
    case Close => OnClose(c)
    case TransportError(description) => OnError(c, description)
    case DispatcherTurn => DispatcherCheck(c)
    case InnerTurn => InnerLoopCheck(c)
    case Dispatch(sendError) => DispatchOne(c, sendError)
    case EndInner => EndInnerLoop(c)
    case IngesterTurn(batch) => IngesterCheck(c, batch)
    case Ingest => IngestOne(c)
    case Offer => OfferOne(c)
  }

  function Run(c: Connection, events: seq<Event>): Connection
    decreases |events|
  {
    if events == [] then c else Run(Step(c, events[0]), events[1..])
  }

  // ---------------------------------------------------------------- Invariant

  /**
    What the ingester has done with the records consumed so far: all of
    them but the ones still ahead in the batch are persisted, in order, and
    the records offered to the queue are drawn in order from those already
    persisted (a record under offer is persisted and not yet enqueued).
   */
  predicate IngestionInv(consumed: seq<Record>, persisted: seq<Record>, enqueued: seq<Record>, pc: ConsumerPc)
  {
    match pc
    case InBatch(rest) =>
      persisted + rest == consumed && IsSubsequence(enqueued, persisted)
    case Offering(m, rest) =>
      && |persisted| > 0 && persisted[|persisted| - 1] == m
      && persisted + rest == consumed
      && IsSubsequence(enqueued, persisted[..|persisted| - 1])
    case _ =>
      persisted == consumed && IsSubsequence(enqueued, persisted)
  }

  /**
    Until `exit` is set the ingester loses nothing: every record persisted
    has been offered successfully, except the one under offer.
   */
  predicate NoLossWhileRunning(persisted: seq<Record>, enqueued: seq<Record>, pc: ConsumerPc)
  {
    if pc.Offering? then enqueued + [pc.message] == persisted else enqueued == persisted
  }

  predicate ControllerInv(c: Connection, ctl: Controller)
  {
    && (ctl.senderPc == SenderNotSpawned <==> ctl.consumerPc == ConsumerNotSpawned)
    && (c.storeHandle <==> ctl.senderPc != SenderNotSpawned)
    && c.threadsStarted == (if ctl.senderPc == SenderNotSpawned then 0 else 2)
    && (ctl.senderPc == SenderNotSpawned ==> ctl.senderExit && ctl.consumerExit && c.consumed == [])
    && (ctl.senderPc == SenderFinished ==> ctl.senderExit)
    && (ctl.consumerPc == ConsumerFinished ==> ctl.consumerExit)
    && c.shutdownCalls == (if ctl.consumerPc == ConsumerFinished then 1 else 0)
    && c.dequeued + ctl.queue == c.enqueued
    && |ctl.queue| <= QueueCapacity
    && IngestionInv(c.consumed, c.persisted, c.enqueued, ctl.consumerPc)
    && (!ctl.consumerExit ==> NoLossWhileRunning(c.persisted, c.enqueued, ctl.consumerPc))
  }

  /** The invariant every reachable connection state satisfies. */
  predicate Inv(c: Connection)
  {
    && c.controllersCreated == (if c.controller.Some? then 1 else 0)
    && |c.sent| + c.sendErrors == |c.dequeued|
    && (c.sendErrors == 0 ==> c.sent == c.dequeued)
    && IsSubsequence(c.sent, c.dequeued)
    && match c.controller
       case None =>
         && c.threadsStarted == 0 && c.shutdownCalls == 0
         && c.consumed == [] && c.persisted == [] && c.enqueued == [] && c.dequeued == []
       case Some(ctl) => ControllerInv(c, ctl)
  }
}
