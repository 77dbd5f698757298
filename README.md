# DemoConsumeSocket streaming control, in Dafny

This project models the per-connection streaming pipeline of the trade-history
demo endpoint, `DemoConsumeSocket`. It proves properties of that model.

A client sends `{"action":"start"}` or `{"action":"stop"}` over a WebSocket. The first `start`
creates a `MessageController`, which starts two background loops that share a
`LinkedBlockingQueue`:

- the `KafkaConsumer` loop (the ingester) pulls batches from the broker, writes each record to
  the Mongo store, then offers it to the queue;
- the `MessageSender` loop (the dispatcher) polls the queue and pushes records to the client
  while `!exit && sendMessages`.

`stop` pauses delivery and a later `start` resumes it. Closing the connection sets both loops'
`exit` flags.

## Layout

- `sequences.dfy` (module `Sequences`): order-preserving subsequences. Lemmas: appending keeps
  a subsequence, a prefix is a subsequence, and the relation is transitive.
- `stream.dfy` (module `StreamProtocol`): the value model.
  - `Connection` and `Controller` hold the state: the controller or null, the flags, the queue,
    the store handle, and the position of each loop thread.
  - Each client event and each atomic loop step is a total function.
  - `Step` and `Run` replay any interleaving of those events.
  - `Inv` is the invariant every reachable state satisfies.
  - Histories that the program leaves only as side effects are append-only sequences: records
    consumed, persisted, enqueued, polled and sent; close requests; threads started; broker
    shutdowns.
- `properties.dfy` (module `StreamProperties`): lemmas.
  - What each event or step does.
  - That every step keeps `Inv`.
  - What holds after every interleaving.
  - Bounded shutdown.
  - The two concrete scenarios of the design (streaming, and pause then resume).
- `socket.dfy` (module `Socket`): the same endpoint as classes updated in place.
  - The classes are `DemoConsumeSocket`, `MessageController`, `MessageSender` and
    `KafkaConsumer`.
  - Each method's postcondition equates the new abstract state `Model()` with the transition
    function applied to the old one.
  - A `Socket` method's row in the table below also covers the `StreamProtocol` function it is
    equated with: `DemoConsumeSocket.OnMessage`, `OnClose`, `OnError`, `DispatcherCheck`,
    `InnerLoopCheck`, `DispatchOne`, `EndInnerLoop`, `IngesterCheck`, `IngestOne` and
    `OfferOne` with the functions of the same names, and `MessageController.Start`, `Pause`,
    `Resume` and `Stop` with `Start`, `Pause`, `Resume` and `Stop`.
  - `Valid()` includes `Inv`.

Each background-loop iteration is split into atomic steps at the points where the thread can
be overtaken:

| step | what it does |
|---|---|
| `DispatcherCheck` | tests `while (!exit)` |
| `InnerLoopCheck` | tests `while (!exit && sendMessages)` when the test holds, and enters the poll |
| `DispatchOne` | completes the poll, and pushes or fails, without looking at the flags again |
| `EndInnerLoop` | the same test, when it fails: runs `sendMessages = false` |
| `IngesterCheck` | tests the outer loop, and calls `consume()` or `shutdown()` |
| `IngestOne` | next record of the batch: persists it |
| `OfferOne` | one test of `while (!exit && !offer(...))` |

A step takes effect only when its thread is at that point of its loop; otherwise it changes
nothing.

Inputs stand for what the model does not compute:

- whether `new MongoConnector()` succeeds when a controller is built;
- the batch that `consume()` returns;
- whether `sendObject` throws, and its message;
- the JSON reader's verdict on the message text.

### Where the code and the design description differ (the model follows the code)

- `stop` before any `start` calls `pause()` on a null `messageController` (line 89). The
  `NullPointerException` is not caught by the `catch (JsonException | IllegalStateException)`
  at line 95, so it escapes `onMessage`. The design calls this a guarded no-op. `onMessage`
  itself changes nothing. The container then passes the exception to `onError`, which is not
  part of this model.
- Text the JSON reader rejects goes to `onError` (lines 95-96), which closes the session with
  `UNEXPECTED_CONDITION`. The design says such input is ignored and the connection stays open.
- `onError` builds `new CloseReason(UNEXPECTED_CONDITION, throwable.getMessage())` (line 114).
  That constructor throws `IllegalArgumentException` when the phrase is longer than 123 bytes
  in UTF-8. The limit is the 125-byte payload of a control frame (section 5.5 of RFC 6455) less
  the 2-byte status code (section 5.5.1). `onError` catches only `IOException` (line 117). So a
  long error message requests no close at all. From `onMessage` the exception escapes to the
  container. From the dispatcher (line 177) it escapes `run()`, and that thread ends without
  `exit` being set (`SenderDied`).
- An object with no `action` member makes `getString` throw `NullPointerException`. A
  non-string `action` makes it throw `ClassCastException`. Both exceptions are part of the
  documented `javax.json` contract, and neither is caught at line 95. The design says such
  input is ignored. As for `stop`, `onMessage` itself changes nothing, and the container's
  hand-off of the exception to `onError` is not part of this model.
- The design describes a terminal `Stopped` state, and a controller that is destroyed on close.
  The code never nulls `messageController`. A later `start` only sets `sendMessages`, and once
  `exit` is set at most one more record is delivered, by a poll already under way
  (`StoppedDispatcherSendsAtMostOne`).
- The design asks for a bounded queue. `new LinkedBlockingQueue<>()` has capacity
  `Integer.MAX_VALUE`, which is `QueueCapacity` here. The offer retry can only happen at that
  size.
- The design says no record is pushed while delivery is paused. The code tests the flags at
  line 166 and then waits up to a second in `poll` (line 169). A `stop` that arrives during
  that wait does not hold back the push at line 173, so one record can still go out after the
  pause (`PushAcrossStop`). The same holds after close.
- Line 180 forces `sendMessages = false` whenever the inner loop ends, including on `exit`, not
  only on pause.

## Model

| member | source | states |
|---|---|---|
| StreamProperties.StartCreatesOneController | src/main/java/com/ibm/hybrid/cloud/sample/stocktrader/tradehistory/demo/DemoConsumeSocket.java:77-81 | With no controller, `start` creates exactly one controller. With a store handle it starts both loops (two threads) with delivery active. Without one it starts no thread and sets both exit flags. Nothing else changes. |
| StreamProperties.StartOnlyResumes | src/main/java/com/ibm/hybrid/cloud/sample/stocktrader/tradehistory/demo/DemoConsumeSocket.java:82-86 | With a controller, `start` sets `sendMessages` to true and changes nothing else: no new controller, no new thread. |
| StreamProperties.StopOnlyPauses | src/main/java/com/ibm/hybrid/cloud/sample/stocktrader/tradehistory/demo/DemoConsumeSocket.java:87-90 | With a controller, `stop` sets `sendMessages` to false. The exit flags, the queue and everything else are unchanged. |
| StreamProperties.StopWithoutControllerEscapes | src/main/java/com/ibm/hybrid/cloud/sample/stocktrader/tradehistory/demo/DemoConsumeSocket.java:87-97 | With no controller, `stop` ends in an uncaught NullPointerException. `onMessage` itself changes no state. The container then passes the exception to onError, which is not modelled. |
| StreamProperties.UnknownActionIgnored | src/main/java/com/ibm/hybrid/cloud/sample/stocktrader/tradehistory/demo/DemoConsumeSocket.java:91-93 | Any action other than "start" or "stop" leaves the state unchanged and is handled normally. |
| StreamProperties.MalformedClosesSession | src/main/java/com/ibm/hybrid/cloud/sample/stocktrader/tradehistory/demo/DemoConsumeSocket.java:95-120 | Text the JSON reader rejects, with an error message of at most 123 UTF-8 bytes, adds exactly one close request, with code UNEXPECTED_CONDITION (1011) and that message. Nothing else changes. With a longer message, `new CloseReason` throws IllegalArgumentException, which escapes: no close request and no other change. |
| StreamProperties.Utf8LengthBounds | src/main/java/com/ibm/hybrid/cloud/sample/stocktrader/tradehistory/demo/DemoConsumeSocket.java:114 | The UTF-8 length of a close phrase is between one and four bytes per character, and one per character for ASCII. Every phrase of at most 30 characters fits the 123-byte limit, and none of more than 123 characters fits. |
| StreamProperties.BadActionEscapes | src/main/java/com/ibm/hybrid/cloud/sample/stocktrader/tradehistory/demo/DemoConsumeSocket.java:72-97 | A missing `action` ends in an uncaught NullPointerException, and a non-string one in an uncaught ClassCastException. `onMessage` itself changes no state and requests no close. The container then passes the exception to onError, which is not modelled. |
| StreamProperties.CloseStopsController | src/main/java/com/ibm/hybrid/cloud/sample/stocktrader/tradehistory/demo/DemoConsumeSocket.java:100-108 | With a controller, close sets both exit flags and nothing else. Without one, close does nothing. |
| StreamProperties.InnerCheckPollsOnlyWhileActive | src/main/java/com/ibm/hybrid/cloud/sample/stocktrader/tradehistory/demo/DemoConsumeSocket.java:166 | The inner loop's test moves the dispatcher into a poll exactly when it is at that test with `!exit && sendMessages`. Otherwise nothing changes. |
| StreamProperties.PollTakesHead | src/main/java/com/ibm/hybrid/cloud/sample/stocktrader/tradehistory/demo/DemoConsumeSocket.java:167-178 | Completing a poll removes only the queue head, whatever the flags are by then. The record is pushed; or the push fails, the record is lost and the failure is counted. A failure adds one close request when its message fits a close reason; otherwise onError throws and the dispatcher thread ends. On an empty queue the poll times out. Except for that dead thread, the dispatcher is back at its inner test, and every other field is unchanged. Outside a poll the step changes nothing. |
| StreamProperties.EndInnerLoopForcesPause | src/main/java/com/ibm/hybrid/cloud/sample/stocktrader/tradehistory/demo/DemoConsumeSocket.java:166-183 | When the inner loop's test fails, `sendMessages` is set to false and the dispatcher returns to the outer test. For a sender that is already paused, only the loop position changes. |
| StreamProperties.IngestPersistsFirst | src/main/java/com/ibm/hybrid/cloud/sample/stocktrader/tradehistory/demo/DemoConsumeSocket.java:221-227 | The next record of a batch is appended to the persisted log before any offer. The queue and the enqueued records are untouched. |
| StreamProperties.OfferAfterPersist | src/main/java/com/ibm/hybrid/cloud/sample/stocktrader/tradehistory/demo/DemoConsumeSocket.java:227-233 | The record under offer is the last one persisted. With `exit` set it is abandoned: it stays persisted and is never queued. Otherwise it is appended to the queue, unless the queue is full, in which case the retry changes nothing. |
| StreamProperties.IngestionIgnoresPause | src/main/java/com/ibm/hybrid/cloud/sample/stocktrader/tradehistory/demo/DemoConsumeSocket.java:216-235 | Every ingester step gives the same result whatever `sendMessages` is, so pausing never holds up ingestion. |
| StreamProperties.StepKeepsControllerAndExit | src/main/java/com/ibm/hybrid/cloud/sample/stocktrader/tradehistory/demo/DemoConsumeSocket.java:142-153 | Once a controller exists, no step removes it, creates another or starts more threads. No step clears an exit flag, and every history only grows. |
| StreamProperties.RunKeepsControllerAndExit | src/main/java/com/ibm/hybrid/cloud/sample/stocktrader/tradehistory/demo/DemoConsumeSocket.java:150-153 | The same holds for any sequence of events: exit is monotone, and there is one controller and one pair of loops. |
| StreamProperties.OnMessageKeepsInv | src/main/java/com/ibm/hybrid/cloud/sample/stocktrader/tradehistory/demo/DemoConsumeSocket.java:70-98 | onMessage keeps the connection invariant. |
| StreamProperties.OnCloseKeepsInv | src/main/java/com/ibm/hybrid/cloud/sample/stocktrader/tradehistory/demo/DemoConsumeSocket.java:100-108 | onClose keeps the connection invariant. |
| StreamProperties.OnErrorKeepsInv | src/main/java/com/ibm/hybrid/cloud/sample/stocktrader/tradehistory/demo/DemoConsumeSocket.java:110-120 | onError keeps the connection invariant. |
| StreamProperties.DispatcherCheckKeepsInv | src/main/java/com/ibm/hybrid/cloud/sample/stocktrader/tradehistory/demo/DemoConsumeSocket.java:164 | The dispatcher's outer test keeps the invariant. It finishes only once exit is set. |
| StreamProperties.InnerLoopCheckKeepsInv | src/main/java/com/ibm/hybrid/cloud/sample/stocktrader/tradehistory/demo/DemoConsumeSocket.java:166 | The inner loop's test keeps the invariant. |
| StreamProperties.DispatchOneKeepsInv | src/main/java/com/ibm/hybrid/cloud/sample/stocktrader/tradehistory/demo/DemoConsumeSocket.java:167-178 | Completing a poll keeps `polled ++ queue == enqueued`. It keeps `sent` drawn in order from the polled records, and equal to them when no push has failed. |
| StreamProperties.EndInnerLoopKeepsInv | src/main/java/com/ibm/hybrid/cloud/sample/stocktrader/tradehistory/demo/DemoConsumeSocket.java:180 | Leaving the inner loop keeps the invariant. |
| StreamProperties.IngesterCheckKeepsInv | src/main/java/com/ibm/hybrid/cloud/sample/stocktrader/tradehistory/demo/DemoConsumeSocket.java:217-237 | The ingester's outer test keeps the invariant. The broker is shut down exactly when the loop ends. |
| StreamProperties.IngestOneKeepsInv | src/main/java/com/ibm/hybrid/cloud/sample/stocktrader/tradehistory/demo/DemoConsumeSocket.java:221-227 | Persisting the next record keeps the invariant. The persisted log plus the rest of the batch equals what the broker returned. |
| StreamProperties.OfferOneKeepsInv | src/main/java/com/ibm/hybrid/cloud/sample/stocktrader/tradehistory/demo/DemoConsumeSocket.java:228-233 | An offer attempt keeps the invariant. The enqueued records stay drawn in order from the persisted ones, and the queue stays within capacity. |
| StreamProperties.StepKeepsInv | src/main/java/com/ibm/hybrid/cloud/sample/stocktrader/tradehistory/demo/DemoConsumeSocket.java:70-239 | Every client event and every loop step keeps the invariant. |
| StreamProperties.RunKeepsInv | src/main/java/com/ibm/hybrid/cloud/sample/stocktrader/tradehistory/demo/DemoConsumeSocket.java:70-239 | Every interleaving of events keeps the invariant. |
| StreamProperties.InitialInv | src/main/java/com/ibm/hybrid/cloud/sample/stocktrader/tradehistory/demo/DemoConsumeSocket.java:51-68 | The state after onOpen, with no controller, satisfies the invariant. |
| StreamProperties.PersistedBeforeEnqueued | src/main/java/com/ibm/hybrid/cloud/sample/stocktrader/tradehistory/demo/DemoConsumeSocket.java:221-233 | In every invariant state, the enqueued records are a subsequence of the persisted ones, in order. The persisted log is a prefix of what the broker returned. |
| StreamProperties.FifoDelivery | src/main/java/com/ibm/hybrid/cloud/sample/stocktrader/tradehistory/demo/DemoConsumeSocket.java:164-175 | polled ++ queue == enqueued. With no failed push, sent ++ queue == enqueued. In every case, sent is a subsequence of polled. |
| StreamProperties.SentDrawnFromConsumed | src/main/java/com/ibm/hybrid/cloud/sample/stocktrader/tradehistory/demo/DemoConsumeSocket.java:164-233 | In every invariant state, the records sent to the client are a subsequence, in order, of the records the broker returned: sent ⊑ polled ≤ enqueued ⊑ persisted ≤ consumed. |
| StreamProperties.ReachableStates | src/main/java/com/ibm/hybrid/cloud/sample/stocktrader/tradehistory/demo/DemoConsumeSocket.java:122-239 | After any interleaving that starts from onOpen: at most one controller, two threads and one broker shutdown; exactly one shutdown once the ingester has finished; FIFO delivery; persistence before enqueue; every record sent is drawn, in order, from the records the broker returned. Until the ingester is told to exit, every persisted record except the one under offer has been enqueued: no loss. |
| StreamProperties.UnavailableIsSilent | src/main/java/com/ibm/hybrid/cloud/sample/stocktrader/tradehistory/demo/DemoConsumeSocket.java:127-139 | A controller whose start found no store handle never spawns a loop. Nothing is ever queued or sent, whatever happens next. |
| StreamProperties.UnavailableStoreNeverDelivers | src/main/java/com/ibm/hybrid/cloud/sample/stocktrader/tradehistory/demo/DemoConsumeSocket.java:196-214 | If `new MongoConnector()` fails at the first `start`, both exit flags stay set and no thread is started. There is one controller, so later `start`s only resume. No record is ever sent on the connection. |
| StreamProperties.PausedStaysSilent | src/main/java/com/ibm/hybrid/cloud/sample/stocktrader/tradehistory/demo/DemoConsumeSocket.java:142-180 | From a paused state and until the next `start`, at most one record is polled and pushed. That one comes from a poll already under way when the pause began. If no poll was under way, nothing is polled or pushed. Delivery stays paused. |
| StreamProperties.StoppedIngesterFinishes | src/main/java/com/ibm/hybrid/cloud/sample/stocktrader/tradehistory/demo/DemoConsumeSocket.java:216-239 | Once exit is set, a schedule of the ingester's own steps of length at most 2 x (rest of batch) + 2 (one more when an offer is pending) ends its loop. The broker is shut down exactly once. The rest of the batch is persisted and none of it is queued. |
| StreamProperties.StoppedDispatcherFinishes | src/main/java/com/ibm/hybrid/cloud/sample/stocktrader/tradehistory/demo/DemoConsumeSocket.java:162-188 | Once exit is set, the dispatcher leaves its loops within three of its own steps: complete a pending poll, fail the inner test, fail the outer test. A pending poll may instead end the thread through onError. It pushes at most the one record of a poll already under way. |
| StreamProperties.StoppedDispatcherSendsAtMostOne | src/main/java/com/ibm/hybrid/cloud/sample/stocktrader/tradehistory/demo/DemoConsumeSocket.java:162-188 | Once exit is set, whatever interleaving follows, at most one more record is pushed. None is pushed if the dispatcher was not in a poll. |
| StreamProperties.StreamingScenario | src/main/java/com/ibm/hybrid/cloud/sample/stocktrader/tradehistory/demo/DemoConsumeSocket.java:162-239 | Scenario: after `start`, records (topicA,0,0,"v1",100) and (topicA,0,1,"v2",101) are both persisted under topicA and sent in broker order. |
| StreamProperties.PauseResumeScenario | src/main/java/com/ibm/hybrid/cloud/sample/stocktrader/tradehistory/demo/DemoConsumeSocket.java:142-181 | Scenario: `start`, then `stop` while the dispatcher is at its inner test, then two records arrive, then `start`. No push occurs before the second `start`; afterwards both records are pushed in ingestion order. |
| StreamProperties.PauseScenarioAllSchedules | src/main/java/com/ibm/hybrid/cloud/sample/stocktrader/tradehistory/demo/DemoConsumeSocket.java:142-180 | After that scenario's `start` and `stop`, with the dispatcher at its inner test, no interleaving of events without another `start` pushes any record. |
| StreamProperties.PushAcrossStop | src/main/java/com/ibm/hybrid/cloud/sample/stocktrader/tradehistory/demo/DemoConsumeSocket.java:164-173 | Scenario: the dispatcher enters its poll, then `stop` arrives and the ingester offers a record. The poll returns that record and it is pushed although delivery is paused. |
| Socket.MessageController.constructor | src/main/java/com/ibm/hybrid/cloud/sample/stocktrader/tradehistory/demo/DemoConsumeSocket.java:122-125 | A new controller owns a new sender and a new consumer: `sendMessages` true, both exits false, no thread started, empty queue. |
| Socket.MessageController.Start | src/main/java/com/ibm/hybrid/cloud/sample/stocktrader/tradehistory/demo/DemoConsumeSocket.java:127-140 | Spawns both loops when the store handle is set, and calls stop() otherwise. |
| Socket.MessageController.Pause | src/main/java/com/ibm/hybrid/cloud/sample/stocktrader/tradehistory/demo/DemoConsumeSocket.java:142-144 | Only `sendMessages` changes, to false. |
| Socket.MessageController.Resume | src/main/java/com/ibm/hybrid/cloud/sample/stocktrader/tradehistory/demo/DemoConsumeSocket.java:146-148 | Only `sendMessages` changes, to true. |
| Socket.MessageController.Stop | src/main/java/com/ibm/hybrid/cloud/sample/stocktrader/tradehistory/demo/DemoConsumeSocket.java:150-153 | Both exit flags become true; nothing else changes. |
| Socket.MessageSender.constructor | src/main/java/com/ibm/hybrid/cloud/sample/stocktrader/tradehistory/demo/DemoConsumeSocket.java:156-159 | `exit` starts false and `sendMessages` starts true. |
| Socket.KafkaConsumer.constructor | src/main/java/com/ibm/hybrid/cloud/sample/stocktrader/tradehistory/demo/DemoConsumeSocket.java:192-194 | `exit` starts false. |
| Socket.DemoConsumeSocket.constructor | src/main/java/com/ibm/hybrid/cloud/sample/stocktrader/tradehistory/demo/DemoConsumeSocket.java:64-68 | onOpen: no controller and empty histories. The invariant holds. |
| Socket.DemoConsumeSocket.OnMessage | src/main/java/com/ibm/hybrid/cloud/sample/stocktrader/tradehistory/demo/DemoConsumeSocket.java:70-98 | The new objects and the outcome are exactly those of the onMessage transition. The invariant is kept. |
| Socket.DemoConsumeSocket.CreateController | src/main/java/com/ibm/hybrid/cloud/sample/stocktrader/tradehistory/demo/DemoConsumeSocket.java:78-81 | Allocates the controller, its sender and its consumer, sets the store handle and starts the controller, as the `start` transition with no controller. |
| Socket.DemoConsumeSocket.OnClose | src/main/java/com/ibm/hybrid/cloud/sample/stocktrader/tradehistory/demo/DemoConsumeSocket.java:100-108 | New state is the onClose transition of the old one. The invariant is kept. |
| Socket.DemoConsumeSocket.OnError | src/main/java/com/ibm/hybrid/cloud/sample/stocktrader/tradehistory/demo/DemoConsumeSocket.java:110-120 | Adds exactly one UNEXPECTED_CONDITION close request with the error's message when that message fits 123 UTF-8 bytes. Otherwise it adds none, since the CloseReason constructor throws. New state is the onError transition of the old one, and the invariant is kept. |
| Socket.DemoConsumeSocket.DispatcherCheck | src/main/java/com/ibm/hybrid/cloud/sample/stocktrader/tradehistory/demo/DemoConsumeSocket.java:164 | New state is the dispatcher's outer-test transition of the old one. |
| Socket.DemoConsumeSocket.InnerLoopCheck | src/main/java/com/ibm/hybrid/cloud/sample/stocktrader/tradehistory/demo/DemoConsumeSocket.java:166 | New state is the transition of the inner loop's test when it holds. |
| Socket.DemoConsumeSocket.DispatchOne | src/main/java/com/ibm/hybrid/cloud/sample/stocktrader/tradehistory/demo/DemoConsumeSocket.java:167-178 | New state is the poll-completion transition of the old one. |
| Socket.DemoConsumeSocket.PushHead | src/main/java/com/ibm/hybrid/cloud/sample/stocktrader/tradehistory/demo/DemoConsumeSocket.java:169-178 | Completing a poll on a non-empty queue: the new state is the poll-completion transition of the old one. |
| Socket.DemoConsumeSocket.PushDelivered | src/main/java/com/ibm/hybrid/cloud/sample/stocktrader/tradehistory/demo/DemoConsumeSocket.java:169-174 | The head is polled and pushed: new state is the poll-completion transition with no send error. |
| Socket.DemoConsumeSocket.PushFailed | src/main/java/com/ibm/hybrid/cloud/sample/stocktrader/tradehistory/demo/DemoConsumeSocket.java:169-178 | The head is polled and the push throws: new state is the poll-completion transition with that error. |
| Socket.DemoConsumeSocket.PushFailedClosed | src/main/java/com/ibm/hybrid/cloud/sample/stocktrader/tradehistory/demo/DemoConsumeSocket.java:176-177 | A send error whose message fits a close reason: the record is lost, the failure counted, one close request added, and the dispatcher returns to its inner test. |
| Socket.DemoConsumeSocket.PushFailedDied | src/main/java/com/ibm/hybrid/cloud/sample/stocktrader/tradehistory/demo/DemoConsumeSocket.java:176-177 | A send error whose message does not fit: onError throws and the dispatcher thread ends, with the record lost and the failure counted. |
| Socket.DemoConsumeSocket.EndInnerLoop | src/main/java/com/ibm/hybrid/cloud/sample/stocktrader/tradehistory/demo/DemoConsumeSocket.java:179-181 | New state is the end-of-inner-loop transition of the old one. |
| Socket.DemoConsumeSocket.IngesterCheck | src/main/java/com/ibm/hybrid/cloud/sample/stocktrader/tradehistory/demo/DemoConsumeSocket.java:216-237 | New state is the ingester's outer-test transition of the old one: consume() or shutdown(). |
| Socket.DemoConsumeSocket.IngestOne | src/main/java/com/ibm/hybrid/cloud/sample/stocktrader/tradehistory/demo/DemoConsumeSocket.java:221-227 | New state is the persist-next-record transition of the old one. |
| Socket.DemoConsumeSocket.OfferOne | src/main/java/com/ibm/hybrid/cloud/sample/stocktrader/tradehistory/demo/DemoConsumeSocket.java:228-233 | New state is the offer-attempt transition of the old one. |

## Left out

- Threads, `volatile` visibility, `Thread.sleep(1000)` and the one-second `poll`/`offer`
  timeouts. The loops are cut into the atomic steps listed above, and any interleaving of steps
  and client events is allowed. A poll's wait is the time between `InnerLoopCheck` and
  `DispatchOne`. Bounded shutdown is counted in loop steps, not seconds.
- Finer interleavings inside a step, for example between the two flag reads of line 166, or
  between the offer and its retry test at line 230, are not modelled.
- The lost-resume race between a failing inner test (line 166) and `sendMessages = false`
  (line 180): a `start` that lands between them is overwritten. `EndInnerLoop` makes the failed
  test and the assignment one step, so the model cannot reach this race.
- `InterruptedException` handling (lines 184-186, 231-232).
- JSON parsing. The message arrives already classified: an action string, a missing or
  non-string action, or text the reader rejects.
- WebSocket transport, `DemoMessageEncoder` and `sendObject` encoding. A push is an append to
  the `sent` history. A push failure is an input.
- The container's handling of an exception that escapes `onMessage`. The endpoint's `@OnError`
  method would be called with it and close the session. The lemmas about `stop` without a
  controller and about a bad `action` state only what `onMessage` itself does.
- `currentSession.close` is a recorded close request. An `IOException` from `close` (lines
  117-119) is only logged, so it is not distinguished.
- The broker `consume()` call is an input batch, and `shutdown()` is a counter. Mongo
  `insertStockPurchase` and `StockPurchase` parsing are an append to the `persisted` history.
  Exceptions from these foreign calls, which would end the ingester thread without calling
  `shutdown()`, are not modelled.
- Runtime exceptions from the dispatcher's foreign calls at lines 171-173 (`message.encode()`,
  `getBasicRemote()`, `sendObject`), such as an `IllegalStateException` on a closed session.
  Such an exception escapes both `catch (IOException | EncodeException)` at line 176 and
  `catch (InterruptedException)` at line 184, so the thread would end without `exit` being set.
  A push failure in the model is only the caught kind. The one runtime exception that is
  modelled is the `IllegalArgumentException` from `new CloseReason` inside `onError`
  (`SenderDied`).
- A `getMessage()` that returns null. The model's error message is always a string.
- `MONGO_CONNECTOR` is static and shared by all connections. The model covers one connection.
  It takes the handle left by earlier connections as a parameter of onOpen, and sets it when
  this connection builds its controller. Another connection resetting it to null mid-stream is
  out of scope, and so is the NullPointerException it would cause at line 227.
- `currentSession` before onOpen, session ids, the unused `messagesSent` counter, and all
  logging.
- `Trades.java` is not part of this model. Its endpoints delegate to `MongoConnector`, which is
  not part of this model either.
