# AIS forwarder: connection back-off, bounded queue and handler lifecycle

A model of the forwarding core of `ais_forwarder.py`. The script reads AIS sentences from a
serial port and forwards them to a TCP endpoint. The model covers three parts:

- **`SocketManager`**: one outbound TCP connection. `connect()` returns true at once when
  connected. Otherwise it refuses to try again until `backoff_delay` seconds have passed since
  the last attempt. When it does try, success resets the back-off to `RECONNECT_DELAY` (5 s).
  Failure multiplies it by `BACKOFF_FACTOR` (1.5), capped at `MAX_BACKOFF_DELAY` (60 s).
  `send()` reconnects when needed and writes in the same call. A failed write marks the
  manager disconnected. `close()` drops the socket.
- **`AISHandler`'s two loops**, one iteration at a time:
  - The producer reads a line from the serial port. A non-empty line is put on a queue of
    capacity `MAX_QUEUE_SIZE` (1000), or dropped when the queue is full.
  - The consumer takes the head and sends it. If the send fails, it puts the record back at
    the tail, or drops it when there is no room.
- **The lifecycle**: `start()`, `stop()` and `_close_serial()`.

Every step is a pure function over a record of the fields it touches (`SocketManagement.ConnectStep`,
`AisHandling.ProduceStep`, …). The classes `SocketManager` and `AISHandler` implement the same
steps imperatively, and each of their methods is proved to move its fields exactly as the
step function says. The inputs a step cannot compute itself are parameters:

- the clock reading (`now`, a `real` in seconds);
- what the socket calls did (`AttemptOutcome`, and `writeOk` for `sendall`);
- what the serial calls did (`OpenOutcome`, `ReadOutcome`).

Back-off arithmetic is exact `real` arithmetic. Every delay the schedule reaches
(5, 7.5, 11.25, …, 56.953125, then 60) is a dyadic rational, so a double holds it exactly too.

The module `Pipeline` follows the data queue over any sequence of producer reads and consumer
send results. It proves these properties of the rules above:

- the queue stays within capacity;
- no record is duplicated or invented;
- lines that fit into the free room are never dropped;
- with no failed sends and within capacity, the endpoint receives records in arrival order;
- with the endpoint stalled, 1500 reads leave the first 1000 queued and drop the other 500;
- failed sends rotate the queue.

Points where the code does not do what its own structure suggests, and how the model treats each:

- **Lock.** `send()` holds the non-reentrant `socket_lock` (`ais_forwarder.py:204`) and calls
  `connect()`, which acquires the same lock again (`ais_forwarder.py:161`). As written, a
  `send` on a disconnected manager therefore blocks for ever. The manager starts disconnected
  (`ais_forwarder.py:150`), so the very first `send` hangs and nothing is ever delivered;
  `stop()` then hangs as well, because once the five-second joins give up
  (`ais_forwarder.py:356-357`) `socket_manager.close()` waits for the same lock
  (`ais_forwarder.py:218`). The early return when the reconnect fails
  (`ais_forwarder.py:205-206`), followed directly by the write (`ais_forwarder.py:209`), shows
  that the call is meant to reconnect and then write. The model has no lock and does exactly
  that; a comment in `SocketManager.Send` records this. `StopStep` models a `stop` that returns.
- **Delivery order after an outage.** A failed record is put back at the tail of the queue
  (`ais_forwarder.py:287`), not at the head, so records queued during an outage do not reach
  the endpoint in arrival order once it is back: the order depends on how many sends failed.
  `Pipeline.RetryReorders` shows that with A, B, C queued, one failed send followed by three
  good ones delivers B, C, A.
- **Closing.** `close()` and `_close_serial()` act only on a handle that is present (for the
  serial port, also open). They are not unconditional: a serial handle whose port is already
  closed is left in place.
- **Re-queue on failure.** In a sequential run, the consumer's `put` back after a failed send
  always finds room, because the `get` just before it freed a slot
  (`AisHandling.FailedSendRotates`). The queue-full branch at `ais_forwarder.py:288-289` can only
  be taken when the producer thread fills that slot in between.

## Model

| member | source | states |
|---|---|---|
| `Backoff.Grow` | ais_forwarder.py:190 | one failure grows the delay to at most 60; a delay in [5, 60] stays in [5, 60] and does not shrink; below the cap it strictly grows |
| `Backoff.AfterFailuresInRange` | ais_forwarder.py:152-190 | after any number of consecutive failures from a delay in [5, 60], the delay is still in [5, 60] and no smaller |
| `Backoff.AfterFailuresCapped` | ais_forwarder.py:190 | n failures give the uncapped product `delay * 1.5^n` capped once at 60, so capping at every step is the same as capping at the end |
| `Backoff.AfterFailuresClosedForm` | ais_forwarder.py:190 | n failures from a delay in (0, 60] give `min(delay * 1.5^n, 60)` |
| `Backoff.InitialSchedule` | ais_forwarder.py:30-32 | from 5 s the delays are 5, 7.5, 11.25, 16.875, 25.3125, 37.96875, 56.953125, then 60 from the seventh failure on |
| `Backoff.SaturatedStays` | ais_forwarder.py:190 | once at 60, further failures keep the delay at 60 |
| `BoundedQueue.Offer` | ais_forwarder.py:259-261 | `put` keeps the queue within 1000; the old contents stay a prefix; the queue grows by one, with the new element at the tail, exactly when there was room |
| `BoundedQueue.OfferConserves` | ais_forwarder.py:287-289 | `put` loses no element and adds the offered one only when accepted |
| `SocketManagement.ConnectStep` | ais_forwarder.py:161-192 | `connect` keeps the invariant (connected implies a socket, delay in [5, 60]); its answer equals the new connected flag; no attempt leaves the state unchanged; an attempt records `now` and answers true exactly when the connection was established |
| `SocketManagement.SendStep` | ais_forwarder.py:204-214 | `send` keeps the invariant; it answers true exactly when the link was up or came up inside the call and the write succeeded; true leaves it connected, false disconnected; the back-off, last-attempt time and socket object change only through the reconnect (a failed write keeps the socket) |
| `SocketManagement.CloseStep` | ais_forwarder.py:216-226 | `close` leaves no socket; a present socket leaves the manager disconnected; the invariant is kept; back-off and last attempt are untouched |
| `SocketManagement.InitialInv` | ais_forwarder.py:148-152 | a fresh manager (no socket, disconnected, delay 5) satisfies the invariant |
| `SocketManagement.ConnectWhenConnected` | ais_forwarder.py:162-163 | connected: answers true and changes nothing |
| `SocketManagement.ConnectThrottled` | ais_forwarder.py:166-171 | within the back-off window: answers false and changes nothing |
| `SocketManagement.ConnectSucceeds` | ais_forwarder.py:173-186 | a successful attempt sets last attempt to `now`, connected, a socket, and delay 5, and answers true |
| `SocketManagement.ConnectFails` | ais_forwarder.py:173-192 | a failed attempt sets last attempt to `now`, stays disconnected, grows the delay to `min(delay * 1.5, 60)`, keeps the new socket object unless creating it failed, and answers false |
| `SocketManagement.SendWithoutLink` | ais_forwarder.py:205-206 | disconnected and the reconnect fails: nothing is written, false, and the state is the one `connect` left |
| `SocketManagement.SendAfterReconnect` | ais_forwarder.py:205-210 | a reconnect that succeeds inside `send` is followed by the write in the same call; the answer is the write's result and the delay is back at 5 |
| `SocketManagement.CloseIdempotent` | ais_forwarder.py:216-226 | closing twice is the same as closing once |
| `SocketManagement.ThrottledCallsChangeNothing` | ais_forwarder.py:166-171 | any number of calls inside the current window make no attempt and change nothing |
| `SocketManagement.FailingConnects` | ais_forwarder.py:173-192 | over any sequence of `connect` calls none of which succeeds, the manager stays disconnected, keeps the invariant, and its delay has grown once per attempt made |
| `SocketManagement.FailingConnectsFromStart` | ais_forwarder.py:150-192 | from a fresh manager, after n failed attempts, the delay is `min(5 * 1.5^n, 60)` |
| `SocketManagement.SocketManager.constructor` | ais_forwarder.py:144-152 | the new manager is in the initial state and has written nothing |
| `SocketManagement.SocketManager.Connect` | ais_forwarder.py:154-192 | moves the fields as `ConnectStep`; counts one attempt exactly when it reaches the network; writes nothing |
| `SocketManagement.SocketManager.Send` | ais_forwarder.py:194-214 | moves the fields as `SendStep`; the data is appended to what the endpoint received exactly when it answers true |
| `SocketManagement.SocketManager.Close` | ais_forwarder.py:216-226 | moves the fields as `CloseStep`; no attempt, no write |
| `AisHandling.CloseSerialStep` | ais_forwarder.py:309-317 | `_close_serial` leaves no open port; it changes the handle exactly when the handle held an open port, and then clears it |
| `AisHandling.Enqueue` | ais_forwarder.py:255-261 | a read line is appended at the tail exactly when it is non-empty and the queue has room; otherwise the queue is unchanged; the bound is kept |
| `AisHandling.ReadLine` | ais_forwarder.py:255-265 | the read part of a producer iteration: a line goes to the queue by `Enqueue` with the handle untouched; a SerialException leaves no open port and the queue untouched; any other exception changes nothing; running flag and connection untouched |
| `AisHandling.ConsumeQueue` | ais_forwarder.py:276-289 | empty: unchanged; sent: the head is removed; not sent (within the bound): the head moves to the tail; the bound is kept |
| `AisHandling.ProduceStep` | ais_forwarder.py:245-268 | a producer iteration keeps the handler invariant; it queues the line by `Enqueue` exactly when the read is reached and returned a line; a serial fault clears the handle; a failed open leaves no handle; any other error while opening changes nothing; the running flag and the connection are untouched |
| `AisHandling.ConsumeStep` | ais_forwarder.py:270-294 | a consumer iteration keeps the handler invariant; stopped or empty: no change; otherwise the connection moves as `send` and the queue as `ConsumeQueue` with `send`'s answer |
| `AisHandling.Delivery` | ais_forwarder.py:276-282 | an iteration hands at most one record to the endpoint: the head, exactly when a record was taken, the link was up or came up, and the write succeeded |
| `AisHandling.StartStep` | ais_forwarder.py:319-324 | after `start` the handler is running; serial port, queue and connection untouched; the invariant is kept |
| `AisHandling.StopStep` | ais_forwarder.py:344-361 | `stop` on a stopped handler changes nothing; on a running one it clears the flag, closes the serial handle as `_close_serial` and the connection as `close`; afterwards the handler holds neither an open port nor a socket and is disconnected; the queue and the back-off are kept |
| `AisHandling.InitialHandlerInv` | ais_forwarder.py:232-243 | a fresh handler satisfies the handler invariant |
| `AisHandling.StopIdempotent` | ais_forwarder.py:346-347 | a second `stop` changes nothing |
| `AisHandling.StartIdempotent` | ais_forwarder.py:321-322 | a second `start` changes nothing |
| `AisHandling.StoppedStepsAreNoOps` | ais_forwarder.py:247 | neither loop iteration changes a stopped handler |
| `AisHandling.RestartKeepsQueue` | ais_forwarder.py:344-361 | a stop followed by a start keeps every queued record and runs again |
| `AisHandling.FailedSendRotates` | ais_forwarder.py:284-289 | a failed send moves the head to the tail and keeps the queue's multiset: nothing is dropped or duplicated |
| `AisHandling.SuccessfulSendRemovesHead` | ais_forwarder.py:276-282 | a successful send removes exactly the head and delivers it |
| `AisHandling.AISHandler.constructor` | ais_forwarder.py:232-243 | the new handler is in the initial state with a fresh manager that has made no connection attempt and written nothing |
| `AisHandling.AISHandler.ConnectSerial` | ais_forwarder.py:296-307 | called by the running producer, it keeps the handler invariant; the handle becomes an open port when opening succeeded, otherwise none |
| `AisHandling.AISHandler.CloseSerial` | ais_forwarder.py:309-317 | moves the handle as `CloseSerialStep` |
| `AisHandling.AISHandler.ProducerStep` | ais_forwarder.py:245-268 | moves the fields as `ProduceStep` and keeps the invariant |
| `AisHandling.AISHandler.ConsumerStep` | ais_forwarder.py:270-294 | moves the fields as `ConsumeStep`, keeps the invariant, adds `Delivery` to what the endpoint received, and makes one connection attempt exactly when it takes a record and `connect` reaches the network (none when stopped, idle, connected or throttled) |
| `AisHandling.AISHandler.Start` | ais_forwarder.py:319-324 | moves the fields as `StartStep` |
| `AisHandling.AISHandler.Stop` | ais_forwarder.py:344-361 | moves the fields as `StopStep`; no connection attempt, and the endpoint receives nothing |
| `Pipeline.Apply` | ais_forwarder.py:255-289 | one iteration as the queue sees it: the bound is kept; a read queues by `Enqueue` and drops the line exactly when it is non-empty and the queue full; a send on an empty queue changes nothing; a good send delivers and removes exactly the head; a failed send within the bound moves the head to the tail and delivers and drops nothing |
| `Pipeline.ProducerStepIsRead` | ais_forwarder.py:255-261 | a producer iteration that reaches the read moves the queue as a `Read` event |
| `Pipeline.ConsumerStepIsSent` | ais_forwarder.py:276-289 | a consumer iteration that takes a record moves the queue, and delivers, as a `Sent` event with `send`'s answer |
| `Pipeline.ReplayWithinBound` | ais_forwarder.py:235 | over any run the queue never exceeds 1000 records |
| `Pipeline.ApplyConserves` | ais_forwarder.py:255-289 | one event neither duplicates nor invents a record: queued, delivered and dropped grow by exactly the line read |
| `Pipeline.ReplayConserves` | ais_forwarder.py:245-294 | over any run, every non-empty line read is accounted for exactly once: still queued, delivered or dropped |
| `Pipeline.NoDropWithinCapacity` | ais_forwarder.py:259-289 | when the lines read fit into the free room, nothing is dropped, whatever the sends answer |
| `Pipeline.FifoWithoutFailures` | ais_forwarder.py:259-282 | with no failed sends and within capacity, what was delivered followed by what is queued equals what was queued before followed by the lines read, in order |
| `Pipeline.FillWithoutConsumer` | ais_forwarder.py:255-261 | with no consumer activity the queue keeps the first 1000 records in order and every later line is dropped, in order |
| `Pipeline.StalledEndpoint` | ais_forwarder.py:28 | 1500 lines into an empty queue with no sends: the first 1000 stay queued, the last 500 are dropped |
| `Pipeline.FailuresRotate` | ais_forwarder.py:284-289 | k failed sends in a row (k at most the queue length) rotate the queue by k places and deliver or drop nothing |
| `Pipeline.RetryReorders` | ais_forwarder.py:284-287 | a, b, c queued, one failed send and three good ones: the endpoint receives b, c, a |

## Left out

- Threads, `threading.Lock`, `Thread.start`, `join(timeout=5)` and daemon flags: the model runs one loop iteration at a time and interleaves nothing, and the lock is absent. The self-deadlock of the nested lock in `send` is described above and not modelled.
- The socket and serial calls (`socket.socket`, `settimeout`, `connect`, `sendall`, `close`, `serial.Serial`, `readline`) are foreign; their results are the outcome parameters. `SOCKET_TIMEOUT`, the baud rate and the serial timeout only configure those calls and do not appear.
- `time.time()` is the `now` parameter; every `time.sleep` is dropped.
- `queue.Queue`'s blocking waits, timeouts and `task_done`: only the full and empty outcomes are modelled.
- `setup_logging` and every logging call; `load_config` and the `AISConfig` record (the handler constructor takes the host, port and `max_retries` directly); `DEFAULT_CONFIG_PATH`; `Application`, signal handling, `sys.exit` and `main`. These are configuration and process plumbing.
- `max_retries` is stored and never read, in the code as in the model.
- The consumer's generic `except Exception` handler (`ais_forwarder.py:292-294`) is not modelled. The model assumes a host and port that `socket.connect` accepts. Otherwise it raises something other than `socket.error`: `OverflowError` for a port outside 0-65535 (the port comes from an unchecked `int(...)`), `UnicodeError` for a host that fails IDNA encoding. That exception is not caught at `ais_forwarder.py:187`. It leaves `connect` and `send` with `last_attempt` already set to `now` and a fresh socket object in place, but the back-off not grown. The consumer's handler then catches it, and the record taken by `get` is neither sent nor re-queued: it is lost by a path other than a full queue. None of this is in the model.
- SocketManagement.SocketManager.Send: a failed `sendall` is recorded as writing nothing, although the real call may have sent part of the data before failing.
- AisHandling.ConsumeStep: the queue-full branch of the consumer's `put` back needs the producer thread to run between the `get` and the `put`; that interleaving is left out, so in the model the branch is never taken.
