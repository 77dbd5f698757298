/**
  The endpoint as objects whose fields its event handlers and background
  loops update in place: DemoConsumeSocket holds the (nullable)
  MessageController, which owns a MessageSender, a KafkaConsumer and the
  queue they share. Each method is one client event or one atomic step of
  a background loop, and its postcondition ties the new state to the
  transition function of StreamProtocol applied to the old state, so
  every property proved there holds of these objects.

  The `pc` fields stand for where each background thread is in its loop;
  the ghost fields are the side effects the program only leaves in the
  store and on the wire.
 */
module Socket {
  import opened StreamProtocol
  import StreamProperties

  class MessageSender {
    var exit: bool
    var sendMessages: bool
    var pc: SenderPc

    constructor ()
      ensures !exit && sendMessages && pc == SenderNotSpawned
    {
      exit := false;
      sendMessages := true;
      pc := SenderNotSpawned;
    }
  }

  class KafkaConsumer {
    var exit: bool
    var pc: ConsumerPc

    constructor ()
      ensures !exit && pc == ConsumerNotSpawned
    {
      exit := false;
      pc := ConsumerNotSpawned;
    }
  }

  class MessageController {
    const sender: MessageSender
    const consumer: KafkaConsumer
    var queue: seq<Record>

    ghost function Value(): Controller
      reads this, sender, consumer
    {
      Controller(sender.sendMessages, sender.exit, sender.pc, consumer.exit, consumer.pc, queue)
    }

    constructor ()
      ensures fresh(sender) && fresh(consumer)
      ensures Value() == NewController()
    {
      sender := new MessageSender();
      consumer := new KafkaConsumer();
      queue := [];
    }

    /** Spawn both loops when the store handle is set; otherwise stop. */
    method Start(storeHandle: bool)
      modifies sender, consumer
      ensures Value() == StreamProtocol.Start(old(Value()), storeHandle)
    {
      if storeHandle {
        sender.pc := SenderOuterCheck;  // new Thread(sender).start()
        consumer.pc := ConsumerTop;     // new Thread(consumer).start()
      } else {
        Stop();
      }
    }

    method Pause()
      modifies sender
      ensures Value() == StreamProtocol.Pause(old(Value()))
    {
      sender.sendMessages := false;
    }

    method Resume()
      modifies sender
      ensures Value() == StreamProtocol.Resume(old(Value()))
    {
      sender.sendMessages := true;
    }

    method Stop()
      modifies sender, consumer
      ensures Value() == StreamProtocol.Stop(old(Value()))
    {
      consumer.exit := true;
      sender.exit := true;
    }
  }

  class DemoConsumeSocket {
    var messageController: MessageController?
    /** MONGO_CONNECTOR != null; the field is static in the program. */
    var mongoConnector: bool

    ghost var controllersCreated: nat
    ghost var threadsStarted: nat
    ghost var consumed: seq<Record>
    ghost var persisted: seq<Record>
    ghost var enqueued: seq<Record>
    ghost var dequeued: seq<Record>
    ghost var sent: seq<Record>
    ghost var sendErrors: nat
    ghost var shutdownCalls: nat
    ghost var closeRequests: seq<CloseReason>
    ghost var Repr: set<object>

    ghost predicate Footprint()
      reads this, Repr
    {
      && this in Repr
      && (messageController == null ==> Repr == {this})
      && (messageController != null ==>
            Repr == {this, messageController, messageController.sender, messageController.consumer})
    }

    /** The connection state these objects represent. */
    ghost function Model(): Connection
      reads this, Repr
      requires Footprint()
    {
      Connection(
        if messageController == null then None else Some(messageController.Value()),
        mongoConnector, controllersCreated, threadsStarted, consumed, persisted, enqueued,
        dequeued, sent, sendErrors, shutdownCalls, closeRequests)
    }

    ghost predicate Valid()
      reads this, Repr
    {
      Footprint() && Inv(Model())
    }

    /** onOpen; `mongoConnector` is the store handle left by earlier connections. */
    constructor (mongoConnector: bool)
      ensures Valid() && fresh(Repr)
      ensures Model() == Initial(mongoConnector)
    {
      messageController := null;
      this.mongoConnector := mongoConnector;
      controllersCreated, threadsStarted := 0, 0;
      consumed, persisted, enqueued, dequeued, sent := [], [], [], [], [];
      sendErrors, shutdownCalls := 0, 0;
      closeRequests := [];
      Repr := {this};
      new;
      StreamProperties.InitialInv(mongoConnector);
    }

    method OnMessage(msg: Inbound, storeReachable: bool) returns (outcome: Outcome)
      requires Valid()
      modifies Repr
      ensures Valid() && fresh(Repr - old(Repr))
      ensures StreamProtocol.OnMessage(old(Model()), msg, storeReachable) == Reaction(Model(), outcome)
    {
      ghost var before := Model();
      match msg {
        case Action(name) =>
          if name == "start" {
            if messageController == null {
              CreateController(storeReachable);
            } else {
              messageController.Resume();
            }
            outcome := Handled;
          } else if name == "stop" {
            if messageController == null {
              outcome := Uncaught(NullPointer);
            } else {
              messageController.Pause();
              outcome := Handled;
            }
          } else {
            outcome := Handled;
          }
        case MissingAction =>
          outcome := Uncaught(NullPointer);
        case NonStringAction =>
          outcome := Uncaught(ClassCast);
        case Unparsable(description) =>
          OnError(description);
          outcome := if ReasonFits(description) then Handled else Uncaught(IllegalArgument);
      }
      StreamProperties.OnMessageKeepsInv(before, msg, storeReachable);
    }

    /** `messageController = new MessageController(); messageController.start();` */
    method CreateController(storeReachable: bool)
      requires Valid() && messageController == null
      modifies this
      ensures Valid() && fresh(Repr - old(Repr))
      ensures Model() == StreamProtocol.OnMessage(old(Model()), Action("start"), storeReachable).next
    {
      ghost var before := Model();
      var mc := new MessageController();
      mongoConnector := storeReachable;  // assigned by the KafkaConsumer constructor
      messageController := mc;
      controllersCreated := controllersCreated + 1;
      Repr := {this, mc, mc.sender, mc.consumer};
      mc.Start(mongoConnector);
      if mongoConnector {
        threadsStarted := threadsStarted + 2;
      }
      StreamProperties.OnMessageKeepsInv(before, Action("start"), storeReachable);
    }

    method OnClose()
      requires Valid()
      modifies Repr
      ensures Valid() && Repr == old(Repr)
      ensures Model() == StreamProtocol.OnClose(old(Model()))
    {
      ghost var before := Model();
      if messageController != null {
        messageController.Stop();
      }
      StreamProperties.OnCloseKeepsInv(before);
    }

    /**
      onError; it also runs on the dispatcher thread when a push fails. A
      message too long for a close frame makes `new CloseReason` throw, and
      nothing is closed.
     */
    method OnError(description: string)
      requires Footprint()
      modifies this
      ensures Footprint() && Repr == old(Repr)
      ensures Model() == StreamProtocol.OnError(old(Model()), description)
      ensures old(Valid()) ==> Valid()
    {
      ghost var before := Model();
      if ReasonFits(description) {
        closeRequests := closeRequests + [CloseReason(UnexpectedCondition, description)];
      }
      if Inv(before) {
        StreamProperties.OnErrorKeepsInv(before, description);
      }
    }

    method DispatcherCheck()
      requires Valid()
      modifies Repr
      ensures Valid() && Repr == old(Repr)
      ensures Model() == StreamProtocol.DispatcherCheck(old(Model()))
    {
      ghost var before := Model();
      var mc := messageController;
      if mc != null && mc.sender.pc == SenderOuterCheck {
        mc.sender.pc := if mc.sender.exit then SenderFinished else SenderInner;
      }
      StreamProperties.DispatcherCheckKeepsInv(before);
    }

    method InnerLoopCheck()
      requires Valid()
      modifies Repr
      ensures Valid() && Repr == old(Repr)
      ensures Model() == StreamProtocol.InnerLoopCheck(old(Model()))
    {
      ghost var before := Model();
      var mc := messageController;
      if mc != null && mc.sender.pc == SenderInner && !mc.sender.exit && mc.sender.sendMessages {
        mc.sender.pc := SenderPolling;
      }
      StreamProperties.InnerLoopCheckKeepsInv(before);
    }

    /** The poll returns the queue head, or times out on an empty queue; a record polled is pushed. */
    method DispatchOne(sendError: Option<string>)
      requires Valid()
      modifies Repr
      ensures Valid() && Repr == old(Repr)
      ensures Model() == StreamProtocol.DispatchOne(old(Model()), sendError)
    {
      var mc := messageController;
      if mc != null && mc.sender.pc == SenderPolling {
        if mc.queue == [] {
          ghost var before := Model();
          mc.sender.pc := SenderInner;
          StreamProperties.DispatchOneKeepsInv(before, sendError);
        } else {
          PushHead(sendError);
        }
      }
    }

    /** `message = messageQueue.poll(...)` returns the head; `sendObject(message)`. */
    method PushHead(sendError: Option<string>)
      requires Valid() && messageController != null
      requires messageController.sender.pc == SenderPolling && messageController.queue != []
      modifies Repr
      ensures Valid() && Repr == old(Repr)
      ensures Model() == StreamProtocol.DispatchOne(old(Model()), sendError)
    {
      match sendError {
        case None => PushDelivered();
        case Some(description) => PushFailed(description);
      }
    }

    /** The head is polled and sendObject delivers it. */
    method PushDelivered()
      requires Valid() && messageController != null
      requires messageController.sender.pc == SenderPolling && messageController.queue != []
      modifies Repr
      ensures Valid() && Repr == old(Repr)
      ensures Model() == StreamProtocol.DispatchOne(old(Model()), None)
    {
      ghost var before := Model();
      var mc := messageController;
      var m := mc.queue[0];
      mc.queue := mc.queue[1..];
      mc.sender.pc := SenderInner;
      dequeued := dequeued + [m];
      sent := sent + [m];
      StreamProperties.DispatchOneKeepsInv(before, None);
    }

    /**
      The head is polled, sendObject throws with message `description`,
      and `onError(e)` runs; if that throws too, run() ends.
     */
    method PushFailed(description: string)
      requires Valid() && messageController != null
      requires messageController.sender.pc == SenderPolling && messageController.queue != []
      modifies Repr
      ensures Valid() && Repr == old(Repr)
      ensures Model() == StreamProtocol.DispatchOne(old(Model()), Some(description))
    {
      if ReasonFits(description) {
        PushFailedClosed(description);
      } else {
        PushFailedDied(description);
      }
    }

    /** onError closes the session. */
    method PushFailedClosed(description: string)
      requires Valid() && messageController != null
      requires messageController.sender.pc == SenderPolling && messageController.queue != []
      requires ReasonFits(description)
      modifies Repr
      ensures Valid() && Repr == old(Repr)
      ensures Model() == StreamProtocol.DispatchOne(old(Model()), Some(description))
    {
      ghost var before := Model();
      var mc := messageController;
      var m := mc.queue[0];
      mc.queue := mc.queue[1..];
      mc.sender.pc := SenderInner;
      dequeued := dequeued + [m];
      sendErrors := sendErrors + 1;
      closeRequests := closeRequests + [CloseReason(UnexpectedCondition, description)];
      StreamProperties.DispatchOneKeepsInv(before, Some(description));
    }

    /** `new CloseReason` in onError throws, and the exception ends run(). */
    method PushFailedDied(description: string)
      requires Valid() && messageController != null
      requires messageController.sender.pc == SenderPolling && messageController.queue != []
      requires !ReasonFits(description)
      modifies Repr
      ensures Valid() && Repr == old(Repr)
      ensures Model() == StreamProtocol.DispatchOne(old(Model()), Some(description))
    {
      ghost var before := Model();
      var mc := messageController;
      var m := mc.queue[0];
      mc.queue := mc.queue[1..];
      mc.sender.pc := SenderDied;
      dequeued := dequeued + [m];
      sendErrors := sendErrors + 1;
      StreamProperties.DispatchOneKeepsInv(before, Some(description));
    }

    method EndInnerLoop()
      requires Valid()
      modifies Repr
      ensures Valid() && Repr == old(Repr)
      ensures Model() == StreamProtocol.EndInnerLoop(old(Model()))
    {
      ghost var before := Model();
      var mc := messageController;
      if mc != null && mc.sender.pc == SenderInner && !(!mc.sender.exit && mc.sender.sendMessages) {
        mc.sender.sendMessages := false;
        mc.sender.pc := SenderOuterCheck;
      }
      StreamProperties.EndInnerLoopKeepsInv(before);
    }

    /** `batch` is what consume() returns when it is called. */
    method IngesterCheck(batch: seq<Record>)
      requires Valid()
      modifies Repr
      ensures Valid() && Repr == old(Repr)
      ensures Model() == StreamProtocol.IngesterCheck(old(Model()), batch)
    {
      ghost var before := Model();
      var mc := messageController;
      if mc != null && mc.consumer.pc == ConsumerTop {
        if mc.consumer.exit {
          mc.consumer.pc := ConsumerFinished;
          shutdownCalls := shutdownCalls + 1;
        } else {
          consumed := consumed + batch;
          mc.consumer.pc := InBatch(batch);
        }
      }
      StreamProperties.IngesterCheckKeepsInv(before, batch);
    }

    method IngestOne()
      requires Valid()
      modifies Repr
      ensures Valid() && Repr == old(Repr)
      ensures Model() == StreamProtocol.IngestOne(old(Model()))
    {
      ghost var before := Model();
      var mc := messageController;
      if mc != null && mc.consumer.pc.InBatch? {
        var rest := mc.consumer.pc.rest;
        if rest == [] {
          mc.consumer.pc := ConsumerTop;
        } else {
          persisted := persisted + [rest[0]];  // insertStockPurchase
          mc.consumer.pc := Offering(rest[0], rest[1..]);
        }
      }
      StreamProperties.IngestOneKeepsInv(before);
    }

    method OfferOne()
      requires Valid()
      modifies Repr
      ensures Valid() && Repr == old(Repr)
      ensures Model() == StreamProtocol.OfferOne(old(Model()))
    {
      ghost var before := Model();
      var mc := messageController;
      if mc != null && mc.consumer.pc.Offering? {
        var m, rest := mc.consumer.pc.message, mc.consumer.pc.rest;
        if mc.consumer.exit {
          mc.consumer.pc := InBatch(rest);
        } else if |mc.queue| < QueueCapacity {
          mc.queue := mc.queue + [m];
          enqueued := enqueued + [m];
          mc.consumer.pc := InBatch(rest);
        }
      }
      StreamProperties.OfferOneKeepsInv(before);
    }
  }
}
