/**
  Properties of the connection model: what each control message and each
  loop step does, that every step keeps the invariant, and what follows
  for every interleaving of client events and loop steps.
 */
module StreamProperties {
  import opened Sequences
  import opened StreamProtocol

  // ================================================================ Control protocol

  /**
    `start` with no controller constructs exactly one and starts it: with a
    store handle both loops are spawned and delivery is active at once;
    without one no thread is started and both `exit` flags are set.
   */
  lemma StartCreatesOneController(c: Connection, storeReachable: bool)
    requires c.controller.None?
    ensures var r := OnMessage(c, Action("start"), storeReachable);
      && r.outcome == Handled
      && r.next.controller.Some?
      && r.next.controllersCreated == c.controllersCreated + 1
      && r.next.storeHandle == storeReachable
      && r.next.threadsStarted == c.threadsStarted + (if storeReachable then 2 else 0)
      && r.next.controller.value.queue == []
      && (storeReachable ==>
            && DeliveryActive(r.next.controller.value)
            && !r.next.controller.value.consumerExit
            && r.next.controller.value.senderPc == SenderOuterCheck
            && r.next.controller.value.consumerPc == ConsumerTop)
      && (!storeReachable ==>
            && r.next.controller.value.senderExit
            && r.next.controller.value.consumerExit
            && r.next.controller.value.senderPc == SenderNotSpawned
            && r.next.controller.value.consumerPc == ConsumerNotSpawned)
      && r.next.(controller := None, storeHandle := c.storeHandle,
                 controllersCreated := c.controllersCreated, threadsStarted := c.threadsStarted) == c
  {
  }

  /** `start` with a controller only sets `sendMessages`: no second controller, no new thread. */
  lemma StartOnlyResumes(c: Connection, storeReachable: bool)
    requires c.controller.Some?
    ensures var r := OnMessage(c, Action("start"), storeReachable);
      && r.outcome == Handled
      && r.next.controller.Some?
      && r.next.controller.value.sendMessages
      && r.next.controller.value.(sendMessages := c.controller.value.sendMessages) == c.controller.value
      && r.next.(controller := c.controller) == c
  {
  }

  /** `stop` with a controller only clears `sendMessages`; the exit flags and the queue stay. */
  lemma StopOnlyPauses(c: Connection, storeReachable: bool)
    requires c.controller.Some?
    ensures var r := OnMessage(c, Action("stop"), storeReachable);
      && r.outcome == Handled
      && r.next.controller.Some?
      && !r.next.controller.value.sendMessages
      && r.next.controller.value.senderExit == c.controller.value.senderExit
      && r.next.controller.value.consumerExit == c.controller.value.consumerExit
      && r.next.controller.value.queue == c.controller.value.queue
      && r.next.controller.value.(sendMessages := c.controller.value.sendMessages) == c.controller.value
      && r.next.(controller := c.controller) == c
  {
  }

  /** `stop` before any `start` dereferences null, and the exception escapes onMessage. */
  lemma StopWithoutControllerEscapes(c: Connection, storeReachable: bool)
    requires c.controller.None?
    ensures OnMessage(c, Action("stop"), storeReachable) == Reaction(c, Uncaught(NullPointer))
  {
  }

  /** An action other than `start` and `stop` is logged and changes nothing. */
  lemma UnknownActionIgnored(c: Connection, name: string, storeReachable: bool)
    requires name != "start" && name != "stop"
    ensures OnMessage(c, Action(name), storeReachable) == Reaction(c, Handled)
  {
  }

  /**
    A message that the JSON reader rejects goes to onError, which asks for
    the session to be closed with UNEXPECTED_CONDITION (1011) and the
    error's message; nothing else changes. An error message too long for a
    close frame makes the CloseReason constructor throw: nothing is closed
    and IllegalArgumentException leaves onMessage.
   */
  lemma MalformedClosesSession(c: Connection, description: string, storeReachable: bool)
    ensures var r := OnMessage(c, Unparsable(description), storeReachable);
      if Utf8Length(description) <= MaxReasonBytes then
        && r.outcome == Handled
        && r.next.closeRequests == c.closeRequests + [CloseReason(UnexpectedCondition, description)]
        && CodeValue(r.next.closeRequests[|c.closeRequests|].code) == 1011
        && r.next.(closeRequests := c.closeRequests) == c
      else
        r == Reaction(c, Uncaught(IllegalArgument))
  {
  }

  /**
    The UTF-8 length of a phrase is between one and four bytes per
    character; for ASCII text it is the number of characters. So every
    phrase of at most 30 characters fits in a close frame, and none of more
    than 123 does.
   */
  lemma {:induction false} Utf8LengthBounds(s: string)
    ensures |s| <= Utf8Length(s) <= 4 * |s|
    ensures (forall i :: 0 <= i < |s| ==> s[i] as int < 0x80) ==> Utf8Length(s) == |s|
    ensures |s| <= 30 ==> ReasonFits(s)
    ensures |s| > MaxReasonBytes ==> !ReasonFits(s)
    decreases |s|
  {
    if s != [] {
      Utf8LengthBounds(s[1..]);
      if forall i :: 0 <= i < |s| ==> s[i] as int < 0x80 {
        assert forall i :: 0 <= i < |s[1..]| ==> s[1..][i] as int < 0x80 by {
          forall i | 0 <= i < |s[1..]| ensures s[1..][i] as int < 0x80 {
            assert s[1..][i] == s[i + 1];
          }
        }
      }
    }
  }

  /**
    An object without an `action` string makes getString throw, and the
    catch clause does not cover that exception: onMessage itself changes
    nothing and requests no close. The container then passes the exception
    to onError, which is not part of this model.
   */
  lemma BadActionEscapes(c: Connection, storeReachable: bool)
    ensures OnMessage(c, MissingAction, storeReachable) == Reaction(c, Uncaught(NullPointer))
    ensures OnMessage(c, NonStringAction, storeReachable) == Reaction(c, Uncaught(ClassCast))
  {
  }

  /** Close sets both exit flags when there is a controller and does nothing otherwise. */
  lemma CloseStopsController(c: Connection)
    ensures c.controller.None? ==> OnClose(c) == c
    ensures c.controller.Some? ==>
      && OnClose(c).controller.Some?
      && OnClose(c).controller.value.senderExit
      && OnClose(c).controller.value.consumerExit
      && OnClose(c).controller.value.(senderExit := c.controller.value.senderExit,
                                      consumerExit := c.controller.value.consumerExit) == c.controller.value
      && OnClose(c).(controller := c.controller) == c
  {
  }

  // ================================================================ Loop steps

  /** The inner loop's test lets the dispatcher poll only while `!exit && sendMessages`. */
  lemma InnerCheckPollsOnlyWhileActive(c: Connection)
    ensures var r := InnerLoopCheck(c);
      if c.controller.Some? && c.controller.value.senderPc == SenderInner && DeliveryActive(c.controller.value)
      then r == c.(controller := Some(c.controller.value.(senderPc := SenderPolling)))
      else r == c
  {
  }

  /**
    A poll removes only the head of the queue, which is pushed to the
    client unless the push throws, in which case onError runs; on an empty
    queue the poll times out. The flags are not consulted: the test was
    made before the poll. The dispatcher is then back at the inner test,
    unless onError itself threw on a message too long for a close frame:
    then nothing is closed and run() has ended. Outside a poll the step
    changes nothing.
   */
  lemma PollTakesHead(c: Connection, sendError: Option<string>)
    ensures var r := DispatchOne(c, sendError);
      if c.controller.Some? && c.controller.value.senderPc == SenderPolling then
        var ctl := c.controller.value;
        if ctl.queue == [] then
          r == c.(controller := Some(ctl.(senderPc := SenderInner)))
        else
          var m := ctl.queue[0];
          var escapes := sendError.Some? && Utf8Length(sendError.value) > MaxReasonBytes;
          && r.controller == Some(ctl.(queue := ctl.queue[1..],
                                       senderPc := if escapes then SenderDied else SenderInner))
          && r.dequeued == c.dequeued + [m]
          && (sendError.None? ==>
                && r.sent == c.sent + [m]
                && r.sendErrors == c.sendErrors
                && r.closeRequests == c.closeRequests)
          && (sendError.Some? ==>
                && r.sent == c.sent
                && r.sendErrors == c.sendErrors + 1
                && r.closeRequests == c.closeRequests +
                     (if escapes then [] else [CloseReason(UnexpectedCondition, sendError.value)]))
          && r.(controller := c.controller, dequeued := c.dequeued, sent := c.sent,
                sendErrors := c.sendErrors, closeRequests := c.closeRequests) == c
      else r == c
  {
  }

  /**
    Leaving the inner loop forces `sendMessages` to false and returns to
    the outer test; for a sender already paused, only the loop position
    changes.
   */
  lemma EndInnerLoopForcesPause(c: Connection)
    requires c.controller.Some? && c.controller.value.senderPc == SenderInner
    requires !DeliveryActive(c.controller.value)
    ensures var r := EndInnerLoop(c);
      && r.controller.Some?
      && !r.controller.value.sendMessages
      && r.controller.value.senderPc == SenderOuterCheck
      && r.controller.value.(sendMessages := c.controller.value.sendMessages, senderPc := SenderInner) == c.controller.value
      && (!c.controller.value.sendMessages ==>
            r.controller.value == c.controller.value.(senderPc := SenderOuterCheck))
      && r.(controller := c.controller) == c
  {
  }

  /** The ingester persists a record before it tries to offer it; persisting touches nothing else. */
  lemma IngestPersistsFirst(c: Connection)
    requires c.controller.Some? && c.controller.value.consumerPc.InBatch?
    requires c.controller.value.consumerPc.rest != []
    ensures var rest := c.controller.value.consumerPc.rest;
      var r := IngestOne(c);
      && r.persisted == c.persisted + [rest[0]]
      && r.controller.Some?
      && r.controller.value == c.controller.value.(consumerPc := Offering(rest[0], rest[1..]))
      && r.(persisted := c.persisted, controller := c.controller) == c
  {
  }

  /**
    An offer enqueues exactly the record persisted last; once `exit` is
    set the record is abandoned: it stays persisted and is never queued.
   */
  lemma OfferAfterPersist(c: Connection)
    requires Inv(c)
    requires c.controller.Some? && c.controller.value.consumerPc.Offering?
    ensures var ctl := c.controller.value;
      var m := ctl.consumerPc.message;
      var r := OfferOne(c);
      && |c.persisted| > 0 && c.persisted[|c.persisted| - 1] == m
      && r.persisted == c.persisted
      && (ctl.consumerExit ==>
            && r.enqueued == c.enqueued
            && r.controller.value.queue == ctl.queue
            && r.controller.value.consumerPc == InBatch(ctl.consumerPc.rest))
      && (!ctl.consumerExit && |ctl.queue| < QueueCapacity ==>
            && r.enqueued == c.enqueued + [m]
            && r.controller.value.queue == ctl.queue + [m]
            && r.controller.value.consumerPc == InBatch(ctl.consumerPc.rest))
      && (!ctl.consumerExit && |ctl.queue| >= QueueCapacity ==> r == c)
  {
  }

  /** Ingester steps do not read `sendMessages`: a pause never holds up ingestion. */
  lemma IngestionIgnoresPause(c: Connection, e: Event, b: bool)
    requires c.controller.Some?
    requires e.IngesterTurn? || e.Ingest? || e.Offer?
    ensures Step(c, e).controller.Some?
    ensures Step(WithSendMessages(c, b), e) == WithSendMessages(Step(c, e), b)
  {
  }

  function WithSendMessages(c: Connection, b: bool): Connection
    requires c.controller.Some?
  {
    c.(controller := Some(c.controller.value.(sendMessages := b)))
  }

  // ================================================================ Monotonicity

  /**
    One step never removes the controller, never creates another, never
    starts more threads once there is one, never clears an `exit` flag, and
    only appends to the histories.
   */
  lemma {:induction false} StepKeepsControllerAndExit(c: Connection, e: Event)
    requires c.controller.Some?
    ensures var r := Step(c, e);
      && r.controller.Some?
      && r.controllersCreated == c.controllersCreated
      && r.threadsStarted == c.threadsStarted
      && r.storeHandle == c.storeHandle
      && (c.controller.value.senderExit ==> r.controller.value.senderExit)
      && (c.controller.value.consumerExit ==> r.controller.value.consumerExit)
      && c.consumed <= r.consumed && c.persisted <= r.persisted && c.enqueued <= r.enqueued
      && c.dequeued <= r.dequeued && c.sent <= r.sent && c.closeRequests <= r.closeRequests
  {
    match e
    case Message(msg, s) =>
    case Close =>
    case TransportError(d) =>
    case DispatcherTurn =>
    case InnerTurn =>
    case Dispatch(err) =>
    case EndInner =>
    case IngesterTurn(batch) =>
    case Ingest =>
    case Offer =>
  }

  lemma {:induction false} RunKeepsControllerAndExit(c: Connection, events: seq<Event>)
    requires c.controller.Some?
    ensures var r := Run(c, events);
      && r.controller.Some?
      && r.controllersCreated == c.controllersCreated
      && r.threadsStarted == c.threadsStarted
      && (c.controller.value.senderExit ==> r.controller.value.senderExit)
      && (c.controller.value.consumerExit ==> r.controller.value.consumerExit)
      && c.persisted <= r.persisted && c.enqueued <= r.enqueued && c.sent <= r.sent
    decreases |events|
  {
    if events != [] {
      StepKeepsControllerAndExit(c, events[0]);
      RunKeepsControllerAndExit(Step(c, events[0]), events[1..]);
    }
  }

  // ================================================================ The invariant is kept

  lemma OnMessageKeepsInv(c: Connection, msg: Inbound, storeReachable: bool)
    requires Inv(c)
    ensures Inv(OnMessage(c, msg, storeReachable).next)
  {
  }

  lemma OnCloseKeepsInv(c: Connection)
    requires Inv(c)
    ensures Inv(OnClose(c))
  {
  }

  lemma OnErrorKeepsInv(c: Connection, description: string)
    requires Inv(c)
    ensures Inv(OnError(c, description))
  {
  }

  lemma DispatcherCheckKeepsInv(c: Connection)
    requires Inv(c)
    ensures Inv(DispatcherCheck(c))
  {
  }

  lemma InnerLoopCheckKeepsInv(c: Connection)
    requires Inv(c)
    ensures Inv(InnerLoopCheck(c))
  {
  }

  lemma EndInnerLoopKeepsInv(c: Connection)
    requires Inv(c)
    ensures Inv(EndInnerLoop(c))
  {
  }

  lemma DispatchOneKeepsInv(c: Connection, sendError: Option<string>)
    requires Inv(c)
    ensures Inv(DispatchOne(c, sendError))
  {
    if c.controller.Some? {
      var ctl := c.controller.value;
      if ctl.senderPc == SenderPolling && ctl.queue != [] {
        var m := ctl.queue[0];
        assert (c.dequeued + [m]) + ctl.queue[1..] == c.dequeued + ctl.queue;
        if sendError.None? {
          SubsequenceAppend(c.sent, c.dequeued, m);
        } else {
          SubsequenceExtend(c.sent, c.dequeued, m);
        }
      }
    }
  }

  lemma IngesterCheckKeepsInv(c: Connection, batch: seq<Record>)
    requires Inv(c)
    ensures Inv(IngesterCheck(c, batch))
  {
  }

  lemma IngestOneKeepsInv(c: Connection)
    requires Inv(c)
    ensures Inv(IngestOne(c))
  {
    if c.controller.Some? && c.controller.value.consumerPc.InBatch? {
      var rest := c.controller.value.consumerPc.rest;
      if rest == [] {
        assert c.persisted + rest == c.persisted;
      } else {
        var p := c.persisted + [rest[0]];
        assert p[..|p| - 1] == c.persisted;
        assert p + rest[1..] == c.persisted + rest;
      }
    }
  }

  lemma OfferOneKeepsInv(c: Connection)
    requires Inv(c)
    ensures Inv(OfferOne(c))
  {
    if c.controller.Some? && c.controller.value.consumerPc.Offering? {
      var ctl := c.controller.value;
      var m := ctl.consumerPc.message;
      var p := c.persisted;
      assert p[..|p| - 1] + [m] == p;
      if ctl.consumerExit {
        SubsequenceExtend(c.enqueued, p[..|p| - 1], m);
      } else if |ctl.queue| < QueueCapacity {
        SubsequenceAppend(c.enqueued, p[..|p| - 1], m);
        assert c.dequeued + (ctl.queue + [m]) == c.enqueued + [m];
      }
    }
  }

  lemma StepKeepsInv(c: Connection, e: Event)
    requires Inv(c)
    ensures Inv(Step(c, e))
  {
    match e
    case Message(msg, s) => OnMessageKeepsInv(c, msg, s);
    case Close => OnCloseKeepsInv(c);
    case TransportError(d) => OnErrorKeepsInv(c, d);
    case DispatcherTurn => DispatcherCheckKeepsInv(c);
    case InnerTurn => InnerLoopCheckKeepsInv(c);
    case Dispatch(err) => DispatchOneKeepsInv(c, err);
    case EndInner => EndInnerLoopKeepsInv(c);
    case IngesterTurn(batch) => IngesterCheckKeepsInv(c, batch);
    case Ingest => IngestOneKeepsInv(c);
    case Offer => OfferOneKeepsInv(c);
  }

  lemma {:induction false} RunKeepsInv(c: Connection, events: seq<Event>)
    requires Inv(c)
    ensures Inv(Run(c, events))
    decreases |events|
  {
    if events != [] {
      StepKeepsInv(c, events[0]);
      RunKeepsInv(Step(c, events[0]), events[1..]);
    }
  }

  lemma InitialInv(storeHandle: bool)
    ensures Inv(Initial(storeHandle))
  {
  }

  // ================================================================ Consequences of the invariant

  /**
    Every record offered to the queue was persisted first, in order, and
    the persisted records are the ones the broker returned, in order.
   */
  lemma PersistedBeforeEnqueued(c: Connection)
    requires Inv(c)
    ensures IsSubsequence(c.enqueued, c.persisted)
    ensures c.persisted <= c.consumed
  {
    if c.controller.Some? {
      var pc := c.controller.value.consumerPc;
      if pc.Offering? {
        var p := c.persisted;
        assert p[..|p| - 1] + [pc.message] == p;
        SubsequenceExtend(c.enqueued, p[..|p| - 1], pc.message);
      }
      if pc.Offering? || pc.InBatch? {
        assert c.persisted + pc.rest == c.consumed;
      }
    }
  }

  /**
    FIFO delivery: the records polled followed by the queue are the records
    enqueued; with no failed push, the records sent are exactly the records
    polled, so sent ++ queue == enqueued. In any case the client sees the
    records in enqueue order, some perhaps missing.
   */
  lemma FifoDelivery(c: Connection)
    requires Inv(c) && c.controller.Some?
    ensures c.dequeued + c.controller.value.queue == c.enqueued
    ensures c.sendErrors == 0 ==> c.sent + c.controller.value.queue == c.enqueued
    ensures IsSubsequence(c.sent, c.dequeued)
  {
  }

  /**
    End to end: every record the client received was returned by the broker,
    in broker order. The chain is sent ⊑ dequeued ≤ enqueued ⊑ persisted ≤
    consumed, where ⊑ is "subsequence of" and ≤ is "prefix of".
   */
  lemma SentDrawnFromConsumed(c: Connection)
    requires Inv(c)
    ensures IsSubsequence(c.sent, c.consumed)
  {
    PersistedBeforeEnqueued(c);
    if c.controller.Some? {
      var q := c.controller.value.queue;
      assert c.dequeued + q == c.enqueued;
      assert c.dequeued <= c.enqueued;
      PrefixIsSubsequence(c.dequeued, c.enqueued);
      PrefixIsSubsequence(c.persisted, c.consumed);
      SubsequenceTransitive(c.sent, c.dequeued, c.enqueued);
      SubsequenceTransitive(c.sent, c.enqueued, c.persisted);
      SubsequenceTransitive(c.sent, c.persisted, c.consumed);
    } else {
      PrefixIsSubsequence(c.sent, c.consumed);
    }
  }

  /**
    For every interleaving of client events and loop steps after onOpen:
    at most one controller and one pair of loops, at most one broker
    shutdown (exactly one once the ingester has finished), FIFO delivery
    persistence before enqueue, every record sent drawn in order from the
    records consumed, and, until the ingester is told to exit, every
    persisted record but the one under offer enqueued.
   */
  lemma {:induction false} ReachableStates(storeHandle: bool, events: seq<Event>)
    ensures var r := Run(Initial(storeHandle), events);
      && Inv(r)
      && r.controllersCreated <= 1
      && r.threadsStarted <= 2
      && r.shutdownCalls <= 1
      && (r.controller.Some? ==>
            (r.shutdownCalls == 1 <==> r.controller.value.consumerPc == ConsumerFinished))
      && (r.controller.Some? && r.sendErrors == 0 ==> r.sent + r.controller.value.queue == r.enqueued)
      && IsSubsequence(r.sent, r.dequeued)
      && IsSubsequence(r.enqueued, r.persisted)
      && r.persisted <= r.consumed
      && IsSubsequence(r.sent, r.consumed)
      && (r.controller.Some? && !r.controller.value.consumerExit ==>
            NoLossWhileRunning(r.persisted, r.enqueued, r.controller.value.consumerPc))
  {
    InitialInv(storeHandle);
    RunKeepsInv(Initial(storeHandle), events);
    PersistedBeforeEnqueued(Run(Initial(storeHandle), events));
    SentDrawnFromConsumed(Run(Initial(storeHandle), events));
  }

  // ================================================================ Unavailable store

  /** A controller whose start found no store handle: no thread was ever spawned. */
  predicate Unavailable(c: Connection)
  {
    c.controller.Some? && c.controller.value.senderPc == SenderNotSpawned
  }

  lemma {:induction false} UnavailableIsSilent(c: Connection, events: seq<Event>)
    requires Inv(c) && Unavailable(c)
    ensures Inv(Run(c, events)) && Unavailable(Run(c, events))
    ensures Run(c, events).sent == [] && Run(c, events).enqueued == []
    decreases |events|
  {
    if events != [] {
      StepKeepsInv(c, events[0]);
      UnavailableIsSilent(Step(c, events[0]), events[1..]);
    }
  }

  /**
    If the store handle is null when the first `start` arrives, no loop is
    ever spawned, both exit flags stay set, every later `start` only
    resumes, and no record is ever delivered on that connection.
   */
  lemma {:induction false} UnavailableStoreNeverDelivers(c: Connection, events: seq<Event>)
    requires Inv(c) && c.controller.None?
    ensures var r := Run(OnMessage(c, Action("start"), false).next, events);
      && r.sent == []
      && r.threadsStarted == 0
      && r.controllersCreated == 1
      && r.controller.Some?
      && r.controller.value.senderExit && r.controller.value.consumerExit
      && r.controller.value.senderPc == SenderNotSpawned
      && r.controller.value.consumerPc == ConsumerNotSpawned
  {
    var s := OnMessage(c, Action("start"), false).next;
    OnMessageKeepsInv(c, Action("start"), false);
    UnavailableIsSilent(s, events);
    RunKeepsControllerAndExit(s, events);
  }

  // ================================================================ Pause

  /** The client asks for delivery to start or resume. */
  predicate Resumes(e: Event)
  {
    e.Message? && e.msg.Action? && e.msg.name == "start"
  }

  /**
    One step of a connection whose inner-loop test fails: no new poll can
    start, so at most the one poll already under way completes, and it
    pushes at most one record.
   */
  lemma InactiveStep(c: Connection, e: Event)
    requires c.controller.Some? && !DeliveryActive(c.controller.value)
    ensures var r := Step(c, e);
      && r.controller.Some?
      && c.sent <= r.sent && |r.sent| <= |c.sent| + 1
      && c.dequeued <= r.dequeued && |r.dequeued| <= |c.dequeued| + 1
      && (c.controller.value.senderPc != SenderPolling ==> r.controller.value.senderPc != SenderPolling)
      && (r.controller.value.senderPc == SenderPolling ==> r.sent == c.sent && r.dequeued == c.dequeued)
  {
    match e
    case Message(msg, s) =>
    case Close =>
    case TransportError(d) =>
    case DispatcherTurn =>
    case InnerTurn =>
    case Dispatch(err) =>
    case EndInner =>
    case IngesterTurn(batch) =>
    case Ingest =>
    case Offer =>
  }

  /**
    While paused and until the next `start`, nothing is polled or pushed,
    except that a poll already under way when the pause began completes
    and may push one record.
   */
  lemma {:induction false} PausedStaysSilent(c: Connection, events: seq<Event>)
    requires c.controller.Some? && !c.controller.value.sendMessages
    requires forall i :: 0 <= i < |events| ==> !Resumes(events[i])
    ensures var r := Run(c, events);
      && r.controller.Some? && !r.controller.value.sendMessages
      && c.sent <= r.sent && |r.sent| <= |c.sent| + 1
      && c.dequeued <= r.dequeued && |r.dequeued| <= |c.dequeued| + 1
      && (c.controller.value.senderPc != SenderPolling ==> r.sent == c.sent && r.dequeued == c.dequeued)
    decreases |events|
  {
    if events != [] {
      var e := events[0];
      assert !Resumes(e);
      var s := Step(c, e);
      InactiveStep(c, e);
      StepKeepsControllerAndExit(c, e);
      assert s.controller.Some? && !s.controller.value.sendMessages;
      assert forall i :: 0 <= i < |events[1..]| ==> !Resumes(events[1..][i]) by {
        forall i | 0 <= i < |events[1..]| ensures !Resumes(events[1..][i]) {
          assert events[1..][i] == events[i + 1];
        }
      }
      PausedStaysSilent(s, events[1..]);
    }
  }

  // ================================================================ Shutdown

  /** How far an ingester still is from the end of its run, once `exit` is set. */
  function Pending(pc: ConsumerPc): nat
  {
    match pc
    case InBatch(rest) => 2 * |rest| + 1
    case Offering(_, rest) => 2 * |rest| + 2
    case _ => 0
  }

  /**
    The ingester's own steps from `pc` to the end of its run once `exit` is
    set: finish the pending offer, persist and abandon the rest of the
    batch, then leave the outer loop.
   */
  function DrainSchedule(pc: ConsumerPc): seq<Event>
    decreases Pending(pc)
  {
    match pc
    case ConsumerTop => [IngesterTurn([])]
    case InBatch(rest) =>
      if rest == [] then [Ingest, IngesterTurn([])]
      else [Ingest, Offer] + DrainSchedule(InBatch(rest[1..]))
    case Offering(_, rest) => [Offer] + DrainSchedule(InBatch(rest))
    case _ => []
  }

  lemma {:induction false} RunAppend(c: Connection, a: seq<Event>, b: seq<Event>)
    ensures Run(c, a + b) == Run(Run(c, a), b)
    decreases |a|
  {
    if a == [] {
      assert a + b == b;
    } else {
      assert (a + b)[0] == a[0] && (a + b)[1..] == a[1..] + b;
      RunAppend(Step(c, a[0]), a[1..], b);
    }
  }

  /** The state after the ingester's own step `e`, when that is a clean hand-over for the drain. */
  predicate DrainStep(c: Connection, s: Connection, pc: ConsumerPc)
  {
    && Inv(s) && s.controller.Some? && s.controller.value.consumerExit
    && s.controller.value.consumerPc == pc
    && s.consumed == c.consumed && s.enqueued == c.enqueued && s.sent == c.sent
  }

  /** With `exit` set, the next record of a batch is persisted and then abandoned. */
  lemma DrainRecord(c: Connection)
    requires Inv(c) && c.controller.Some? && c.controller.value.consumerExit
    requires c.controller.value.consumerPc.InBatch? && c.controller.value.consumerPc.rest != []
    ensures var rest := c.controller.value.consumerPc.rest;
      && DrainStep(c, OfferOne(IngestOne(c)), InBatch(rest[1..]))
      && Run(c, DrainSchedule(InBatch(rest))) == Run(OfferOne(IngestOne(c)), DrainSchedule(InBatch(rest[1..])))
  {
    var rest := c.controller.value.consumerPc.rest;
    var tail := DrainSchedule(InBatch(rest[1..]));
    assert DrainSchedule(InBatch(rest)) == [Ingest] + ([Offer] + tail);
    var s1 := IngestOne(c);
    RunCons(c, Ingest, [Offer] + tail);
    RunCons(s1, Offer, tail);
    IngestOneKeepsInv(c);
    OfferOneKeepsInv(s1);
  }

  /** With `exit` set, a pending offer gives up on its record. */
  lemma DrainOffer(c: Connection)
    requires Inv(c) && c.controller.Some? && c.controller.value.consumerExit
    requires c.controller.value.consumerPc.Offering?
    ensures var pc := c.controller.value.consumerPc;
      && DrainStep(c, OfferOne(c), InBatch(pc.rest))
      && Run(c, DrainSchedule(pc)) == Run(OfferOne(c), DrainSchedule(InBatch(pc.rest)))
  {
    var pc := c.controller.value.consumerPc;
    var tail := DrainSchedule(InBatch(pc.rest));
    assert DrainSchedule(pc) == [Offer] + tail;
    OfferOneKeepsInv(c);
    RunCons(c, Offer, tail);
  }

  /**
    Bounded shutdown of the ingester: once `exit` is set, at most
    2 * |batch rest| + 2 of its own steps take it out of its loop; it calls
    the broker's shutdown exactly once, persists the rest of its batch and
    queues none of it.
   */
  lemma {:induction false} StoppedIngesterFinishes(c: Connection)
    requires Inv(c) && c.controller.Some? && c.controller.value.consumerExit
    requires c.controller.value.consumerPc.ConsumerTop? || c.controller.value.consumerPc.InBatch?
          || c.controller.value.consumerPc.Offering?
    ensures var r := Run(c, DrainSchedule(c.controller.value.consumerPc));
      && |DrainSchedule(c.controller.value.consumerPc)| <= Pending(c.controller.value.consumerPc) + 1
      && r.controller.Some?
      && r.controller.value.consumerPc == ConsumerFinished
      && r.shutdownCalls == 1
      && r.consumed == c.consumed
      && r.persisted == r.consumed
      && r.enqueued == c.enqueued
      && r.sent == c.sent
    decreases Pending(c.controller.value.consumerPc)
  {
    var pc := c.controller.value.consumerPc;
    match pc
    case ConsumerTop =>
      RunCons(c, IngesterTurn([]), []);
    case InBatch(rest) =>
      if rest == [] {
        var s1 := IngestOne(c);
        RunCons(c, Ingest, [IngesterTurn([])]);
        RunCons(s1, IngesterTurn([]), []);
        assert c.persisted + rest == c.persisted;
      } else {
        DrainRecord(c);
        StoppedIngesterFinishes(OfferOne(IngestOne(c)));
      }
    case Offering(_, rest) =>
      DrainOffer(c);
      StoppedIngesterFinishes(OfferOne(c));
  }

  /**
    Bounded shutdown of the dispatcher: once `exit` is set its run() ends
    within three of its own steps, and the only record it can still push is
    the one a poll already under way returns.
   */
  lemma StoppedDispatcherFinishes(c: Connection, sendError: Option<string>)
    requires c.controller.Some? && c.controller.value.senderExit
    ensures c.controller.value.senderPc == SenderOuterCheck ==>
      DispatcherCheck(c).controller.value.senderPc == SenderFinished
    ensures c.controller.value.senderPc == SenderInner ==>
      && InnerLoopCheck(c) == c
      && DispatcherCheck(EndInnerLoop(c)).controller.value.senderPc == SenderFinished
      && DispatcherCheck(EndInnerLoop(c)).sent == c.sent
    ensures c.controller.value.senderPc == SenderPolling ==>
      var d := DispatchOne(c, sendError);
      && (d.controller.value.senderPc == SenderInner || d.controller.value.senderPc == SenderDied)
      && (d.controller.value.senderPc == SenderInner ==>
            DispatcherCheck(EndInnerLoop(d)).controller.value.senderPc == SenderFinished)
      && c.sent <= DispatcherCheck(EndInnerLoop(d)).sent
      && |DispatcherCheck(EndInnerLoop(d)).sent| <= |c.sent| + 1
  {
  }

  /**
    After `exit` is set, whatever happens next, at most one more record is
    pushed (by a poll already under way), and none at all if the
    dispatcher was not polling.
   */
  lemma {:induction false} StoppedDispatcherSendsAtMostOne(c: Connection, events: seq<Event>)
    requires c.controller.Some? && c.controller.value.senderExit
    ensures var r := Run(c, events);
      && c.sent <= r.sent && |r.sent| <= |c.sent| + 1
      && (c.controller.value.senderPc != SenderPolling ==> r.sent == c.sent)
    decreases |events|
  {
    if events != [] {
      InactiveStep(c, events[0]);
      StepKeepsControllerAndExit(c, events[0]);
      StoppedDispatcherSendsAtMostOne(Step(c, events[0]), events[1..]);
    }
  }

  lemma RunCons(c: Connection, e: Event, rest: seq<Event>)
    ensures Run(c, [e] + rest) == Run(Step(c, e), rest)
  {
    assert ([e] + rest)[1..] == rest;
  }

  // ================================================================ Scenarios

  const V1 := Record("topicA", 0, 0, "v1", 100)
  const V2 := Record("topicA", 0, 1, "v2", 101)
  const StartMessage := Message(Action("start"), true)
  const StopMessage := Message(Action("stop"), true)

  /** The streaming scenario below, in three stretches. */
  const StreamStart: seq<Event> := [StartMessage, DispatcherTurn, IngesterTurn([V1, V2])]
  const IngestTwo: seq<Event> := [Ingest, Offer, Ingest, Offer]
  const DeliverTwo: seq<Event> := [InnerTurn, Dispatch(None), InnerTurn, Dispatch(None)]
  const StreamingEvents: seq<Event> := StreamStart + IngestTwo + DeliverTwo

  lemma StreamStartState()
    ensures var r := Run(Initial(true), StreamStart);
      && r.sent == [] && r.persisted == [] && r.enqueued == []
      && r.controller == Some(Controller(true, false, SenderInner, false, InBatch([V1, V2]), []))
  {
    var c0 := Initial(true);
    var c1 := Step(c0, StartMessage);
    var c2 := Step(c1, DispatcherTurn);
    var c3 := Step(c2, IngesterTurn([V1, V2]));
    RunCons(c2, IngesterTurn([V1, V2]), []);
    RunCons(c1, DispatcherTurn, StreamStart[2..]);
    RunCons(c0, StartMessage, StreamStart[1..]);
  }

  /** The ingester persists the next record of its batch and offers it to a queue with room. */
  lemma IngestOfferState(c: Connection, sendMessages: bool, m: Record, rest: seq<Record>, queue: seq<Record>)
    requires c.controller == Some(Controller(sendMessages, false, SenderInner, false, InBatch([m] + rest), queue))
    requires |queue| < QueueCapacity
    ensures var r := Run(c, [Ingest, Offer]);
      && r.sent == c.sent && r.persisted == c.persisted + [m]
      && r.controller == Some(Controller(sendMessages, false, SenderInner, false, InBatch(rest), queue + [m]))
  {
    var c1 := Step(c, Ingest);
    assert c1.controller.value.consumerPc == Offering(m, rest);
    RunCons(c1, Offer, []);
    RunCons(c, Ingest, [Offer]);
  }

  lemma IngestTwoState(c: Connection, sendMessages: bool)
    requires c.controller == Some(Controller(sendMessages, false, SenderInner, false, InBatch([V1, V2]), []))
    ensures var r := Run(c, IngestTwo);
      && r.sent == c.sent && r.persisted == c.persisted + [V1, V2]
      && r.controller == Some(Controller(sendMessages, false, SenderInner, false, InBatch([]), [V1, V2]))
  {
    assert [V1, V2] == [V1] + [V2] && [V2] == [V2] + [] && [] + [V1] == [V1];
    IngestOfferState(c, sendMessages, V1, [V2], []);
    var c2 := Run(c, [Ingest, Offer]);
    IngestOfferState(c2, sendMessages, V2, [], [V1]);
    assert IngestTwo == [Ingest, Offer] + [Ingest, Offer];
    RunAppend(c, [Ingest, Offer], [Ingest, Offer]);
    assert c.persisted + [V1] + [V2] == c.persisted + [V1, V2];
  }

  lemma DeliverTwoState(c: Connection)
    requires c.controller == Some(Controller(true, false, SenderInner, false, InBatch([]), [V1, V2]))
    ensures Run(c, DeliverTwo).sent == c.sent + [V1, V2]
  {
    var c1 := Step(c, InnerTurn);
    assert c1.controller.value.senderPc == SenderPolling;
    var c2 := Step(c1, Dispatch(None));
    assert c2.controller.value.queue == [V2] && c2.controller.value.senderPc == SenderInner;
    var c3 := Step(c2, InnerTurn);
    assert c3.controller.value.senderPc == SenderPolling;
    var c4 := Step(c3, Dispatch(None));
    assert c4.sent == c.sent + [V1] + [V2] == c.sent + [V1, V2];
    RunCons(c3, Dispatch(None), []);
    RunCons(c2, InnerTurn, DeliverTwo[3..]);
    RunCons(c1, Dispatch(None), DeliverTwo[2..]);
    RunCons(c, InnerTurn, DeliverTwo[1..]);
  }

  /**
    Two records arrive while delivery is active after `start`: the client
    receives both, in broker order, and both are persisted under topicA.
   */
  lemma StreamingScenario()
    ensures var r := Run(Initial(true), StreamingEvents);
      && r.sent == [V1, V2]
      && r.persisted == [V1, V2]
      && forall i :: 0 <= i < |r.persisted| ==> r.persisted[i].topic == "topicA"
  {
    StreamStartState();
    var s1 := Run(Initial(true), StreamStart);
    IngestTwoState(s1, true);
    var s2 := Run(s1, IngestTwo);
    DeliverTwoState(s2);
    RunAppend(Initial(true), StreamStart, IngestTwo);
    RunAppend(Initial(true), StreamStart + IngestTwo, DeliverTwo);
  }

  /** The pause part of the scenario below, up to the second `start`, in three stretches. */
  const PauseStart: seq<Event> := [StartMessage, DispatcherTurn, StopMessage, IngesterTurn([V1, V2])]
  const IdleDispatcher: seq<Event> := [InnerTurn, Dispatch(None), EndInner, DispatcherTurn, InnerTurn, Dispatch(None)]
  const PausePhase: seq<Event> := PauseStart + IngestTwo + IdleDispatcher

  lemma PauseStartState()
    ensures var r := Run(Initial(true), PauseStart);
      && r.sent == [] && r.persisted == [] && r.enqueued == []
      && r.controller == Some(Controller(false, false, SenderInner, false, InBatch([V1, V2]), []))
  {
    var c0 := Initial(true);
    var c1 := Step(c0, StartMessage);
    var c2 := Step(c1, DispatcherTurn);
    var c3 := Step(c2, StopMessage);
    var c4 := Step(c3, IngesterTurn([V1, V2]));
    RunCons(c3, IngesterTurn([V1, V2]), []);
    RunCons(c2, StopMessage, PauseStart[3..]);
    RunCons(c1, DispatcherTurn, PauseStart[2..]);
    RunCons(c0, StartMessage, PauseStart[1..]);
  }

  lemma IdleDispatcherState(c: Connection)
    requires c.controller.Some? && c.controller.value.senderPc == SenderInner
    requires !c.controller.value.sendMessages && !c.controller.value.senderExit
    ensures Run(c, IdleDispatcher) == c
  {
    var c1 := Step(c, InnerTurn);
    var c2 := Step(c1, Dispatch(None));
    var c3 := Step(c2, EndInner);
    var c4 := Step(c3, DispatcherTurn);
    var c5 := Step(c4, InnerTurn);
    var c6 := Step(c5, Dispatch(None));
    RunCons(c5, Dispatch(None), []);
    RunCons(c4, InnerTurn, IdleDispatcher[5..]);
    RunCons(c3, DispatcherTurn, IdleDispatcher[4..]);
    RunCons(c2, EndInner, IdleDispatcher[3..]);
    RunCons(c1, Dispatch(None), IdleDispatcher[2..]);
    RunCons(c, InnerTurn, IdleDispatcher[1..]);
  }

  /** Up to the second `start`: the records are queued and nothing is pushed. */
  lemma PausePhaseQueues()
    ensures var r := Run(Initial(true), PausePhase);
      && r.sent == [] && r.persisted == [V1, V2]
      && r.controller == Some(Controller(false, false, SenderInner, false, InBatch([]), [V1, V2]))
  {
    PauseStartState();
    var s1 := Run(Initial(true), PauseStart);
    IngestTwoState(s1, false);
    var s2 := Run(s1, IngestTwo);
    IdleDispatcherState(s2);
    RunAppend(Initial(true), PauseStart, IngestTwo);
    RunAppend(Initial(true), PauseStart + IngestTwo, IdleDispatcher);
  }

  /**
    `start`, then `stop` while the dispatcher is at its inner test, then
    two records arrive, then `start` again: along this schedule no push
    happens between the two control messages (PauseScenarioAllSchedules
    covers every other one), and the two pushes after the second `start`
    are in ingestion order.
   */
  lemma PauseResumeScenario()
    ensures var paused := Run(Initial(true), PausePhase);
      && paused.sent == []
      && Run(paused, [StartMessage] + DeliverTwo).sent == [V1, V2]
  {
    PausePhaseQueues();
    var paused := Run(Initial(true), PausePhase);
    DeliverTwoState(Step(paused, StartMessage));
    RunCons(paused, StartMessage, DeliverTwo);
  }

  /** The race scenario below, in three stretches. */
  const StopDuringPoll: seq<Event> := [StartMessage, DispatcherTurn, InnerTurn, StopMessage]
  const IngestOneRecord: seq<Event> := [IngesterTurn([V1]), Ingest, Offer]

  lemma StopDuringPollState()
    ensures var r := Run(Initial(true), StopDuringPoll);
      && r.sent == []
      && r.controller == Some(Controller(false, false, SenderPolling, false, ConsumerTop, []))
  {
    var c0 := Initial(true);
    var c1 := Step(c0, StartMessage);
    var c2 := Step(c1, DispatcherTurn);
    var c3 := Step(c2, InnerTurn);
    var c4 := Step(c3, StopMessage);
    RunCons(c3, StopMessage, []);
    RunCons(c2, InnerTurn, StopDuringPoll[3..]);
    RunCons(c1, DispatcherTurn, StopDuringPoll[2..]);
    RunCons(c0, StartMessage, StopDuringPoll[1..]);
  }

  lemma IngestOneRecordState(c: Connection)
    requires c.controller == Some(Controller(false, false, SenderPolling, false, ConsumerTop, []))
    ensures var r := Run(c, IngestOneRecord);
      && r.sent == c.sent
      && r.controller == Some(Controller(false, false, SenderPolling, false, InBatch([]), [V1]))
  {
    var c1 := Step(c, IngesterTurn([V1]));
    assert c1.controller.value.consumerPc == InBatch([V1]);
    var c2 := Step(c1, Ingest);
    assert c2.controller.value.consumerPc == Offering(V1, []);
    var c3 := Step(c2, Offer);
    assert c3.controller.value.queue == [V1];
    RunCons(c2, Offer, []);
    RunCons(c1, Ingest, IngestOneRecord[2..]);
    RunCons(c, IngesterTurn([V1]), IngestOneRecord[1..]);
  }

  /**
    A `stop` that lands while the dispatcher is waiting in its poll does
    not hold back that poll: a record the ingester offers in the meantime
    is pushed although delivery is paused.
   */
  lemma PushAcrossStop()
    ensures var r := Run(Initial(true), StopDuringPoll + IngestOneRecord + [Dispatch(None)]);
      && r.controller.Some? && !r.controller.value.sendMessages
      && r.sent == [V1]
  {
    StopDuringPollState();
    var s1 := Run(Initial(true), StopDuringPoll);
    IngestOneRecordState(s1);
    var s2 := Run(s1, IngestOneRecord);
    RunAppend(Initial(true), StopDuringPoll, IngestOneRecord);
    RunAppend(Initial(true), StopDuringPoll + IngestOneRecord, [Dispatch(None)]);
    RunCons(s2, Dispatch(None), []);
  }

  /**
    After the `stop` of the scenario above, no interleaving of background
    steps and client events other than `start` pushes anything.
   */
  lemma PauseScenarioAllSchedules(events: seq<Event>)
    requires forall i :: 0 <= i < |events| ==> !Resumes(events[i])
    ensures Run(Run(Initial(true), PauseStart), events).sent == []
  {
    PauseStartState();
    PausedStaysSilent(Run(Initial(true), PauseStart), events);
  }
}
