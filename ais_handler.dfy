/** `AISHandler`: the serial port, the bounded data queue and the socket
    manager, driven by a producer iteration (read a line, queue it) and a
    consumer iteration (take the head, send it, re-queue it on failure), and
    the start/stop lifecycle around them. Each loop iteration is one step; the
    results of the serial and socket calls are passed in. */
module AisHandling {
  import opened BoundedQueue
  import opened SocketManagement

  /** `self.serial_port`: None, or a port object with its `is_open` flag. */
  datatype SerialHandle = NoPort | Port(isOpen: bool)

  /** What `_connect_serial` did. */
  datatype OpenOutcome =
    | Opened      // serial.Serial(...) returned an open port
    | OpenFailed  // it raised SerialException; `_connect_serial` sets the handle to None
    | OpenError   // it raised some other exception, which escapes to the producer's generic handler

  /** What `readline()` did. */
  datatype ReadOutcome =
    | Line(data: Bytes)  // the bytes read; empty when the serial timeout elapsed first
    | ReadFault          // it raised SerialException
    | ReadError          // it raised some other exception

  /** The fields of an AISHandler that the steps use, with its manager's state. */
  datatype HandlerState = HandlerState(running: bool, serial: SerialHandle, queue: seq<Bytes>, conn: ConnState)

  /** The state `__init__` leaves. */
  const InitialHandler: HandlerState := HandlerState(false, NoPort, [], Initial)

  /** The serial handle holds an open port. */
  predicate SerialHeld(p: SerialHandle) {
    p.Port? && p.isOpen
  }

  /** Kept by every step: the queue respects its capacity, the manager its
      invariant, and a stopped handler holds neither an open port nor a socket. */
  predicate HandlerInv(h: HandlerState) {
    WithinBound(h.queue) && Inv(h.conn) && (!h.running ==> !SerialHeld(h.serial) && !h.conn.hasSocket)
  }

  /** `_close_serial()`: the handle is cleared only when it holds an open port
      (an error from `close()` is logged and the handle still cleared). */
  function CloseSerialStep(p: SerialHandle): (r: SerialHandle)
    ensures !SerialHeld(r)
    ensures r != p <==> SerialHeld(p)
    ensures r != p ==> r == NoPort
  {
    if p.Port? && p.isOpen then NoPort else p
  }

  /** The producer's rule for a line read: a non-empty line is `put` on the queue,
      which drops it when the queue is full; an empty read queues nothing. */
  function Enqueue(q: seq<Bytes>, line: Bytes): (r: seq<Bytes>)
    ensures WithinBound(q) ==> WithinBound(r)
    ensures r == q || r == q + [line]
    ensures r == q + [line] <==> |line| > 0 && HasRoom(q)
  {
    if |line| > 0 then Offer(q, line) else q
  }

  /** The consumer's rule once `send` has answered for the head: gone when it was
      sent, otherwise `put` back at the tail, or dropped when there is no room. An
      empty queue is left alone (`get` raised Empty). */
  function ConsumeQueue(q: seq<Bytes>, sent: bool): (r: seq<Bytes>)
    ensures WithinBound(q) ==> WithinBound(r)
    ensures q == [] ==> r == q
    ensures q != [] && sent ==> r == q[1..]
    ensures q != [] && !sent && WithinBound(q) ==> r == q[1..] + [q[0]]
  {
    if q == [] then q
    else if sent then q[1..]
    else Offer(q[1..], q[0])
  }

  /** The producer iteration reaches `readline()`: the handler is running and
      either holds an open port or `_connect_serial` just opened one. */
  predicate Reads(h: HandlerState, open: OpenOutcome) {
    h.running && (SerialHeld(h.serial) || open == Opened)
  }

  /** One iteration of `_producer`'s `while self.running` loop. */
  function ProduceStep(h: HandlerState, open: OpenOutcome, read: ReadOutcome): (r: HandlerState)
    ensures HandlerInv(h) ==> HandlerInv(r)
    ensures r.running == h.running && r.conn == h.conn
    ensures r.queue == if Reads(h, open) && read.Line? then Enqueue(h.queue, read.data) else h.queue
    ensures Reads(h, open) && read.ReadFault? ==> r.serial == NoPort
    ensures Reads(h, open) && !read.ReadFault? ==> r.serial == Port(true)
    ensures h.running && !SerialHeld(h.serial) && open == OpenFailed ==> r.serial == NoPort
    ensures h.running && !SerialHeld(h.serial) && open == OpenError ==> r == h
  {
    if !h.running then h
    else if h.serial.NoPort? || !h.serial.isOpen then
      match open
      case OpenError => h
      case OpenFailed => h.(serial := NoPort)
      case Opened => ReadLine(h.(serial := Port(true)), read)
    else ReadLine(h, read)
  }

  /** The part of a producer iteration after the port is known to be open: a
      line goes through `Enqueue`, a SerialException closes the port, any other
      exception changes nothing. */
  function ReadLine(h: HandlerState, read: ReadOutcome): (r: HandlerState)
    ensures r.running == h.running && r.conn == h.conn
    ensures read.Line? ==> r.queue == Enqueue(h.queue, read.data) && r.serial == h.serial
    ensures read.ReadFault? ==> r.queue == h.queue && !SerialHeld(r.serial) && (SerialHeld(h.serial) ==> r.serial == NoPort)
    ensures read.ReadError? ==> r == h
  {
    match read
    case Line(data) => h.(queue := Enqueue(h.queue, data))
    case ReadFault => h.(serial := CloseSerialStep(h.serial))
    case ReadError => h
  }

  /** The consumer iteration takes a record and calls `send`. */
  predicate Takes(h: HandlerState) {
    h.running && h.queue != []
  }

  /** One iteration of `_consumer`'s `while self.running` loop. */
  function ConsumeStep(h: HandlerState, now: real, outcome: AttemptOutcome, writeOk: bool): (r: HandlerState)
    ensures HandlerInv(h) ==> HandlerInv(r)
    ensures r.running == h.running && r.serial == h.serial
    ensures !Takes(h) ==> r == h
    ensures Takes(h) ==> r.conn == SendStep(h.conn, now, outcome, writeOk).0
    ensures Takes(h) ==> r.queue == ConsumeQueue(h.queue, SendStep(h.conn, now, outcome, writeOk).1)
  {
    if !h.running || h.queue == [] then h
    else
      var (conn, sent) := SendStep(h.conn, now, outcome, writeOk);
      h.(conn := conn, queue := ConsumeQueue(h.queue, sent))
  }

  /** What a consumer iteration hands to the endpoint: the head, when `send` succeeded. */
  function Delivery(h: HandlerState, now: real, outcome: AttemptOutcome, writeOk: bool): (r: seq<Bytes>)
    ensures |r| <= 1
    ensures r != [] <==> Takes(h) && Writes(h.conn, now, outcome) && writeOk
    ensures r != [] ==> r == [h.queue[0]]
  {
    if Takes(h) && SendStep(h.conn, now, outcome, writeOk).1 then [h.queue[0]] else []
  }

  /** `start()`: sets the running flag; a no-op when already running. */
  function StartStep(h: HandlerState): (r: HandlerState)
    ensures r.running
    ensures HandlerInv(h) ==> HandlerInv(r)
    ensures r.serial == h.serial && r.queue == h.queue && r.conn == h.conn
  {
    if h.running then h else h.(running := true)
  }

  /** `stop()`: a no-op when stopped; otherwise clears the flag, then closes the
      serial port and the socket manager. The queue is kept. */
  function StopStep(h: HandlerState): (r: HandlerState)
    ensures !r.running
    ensures HandlerInv(h) ==> HandlerInv(r) && !SerialHeld(r.serial) && !r.conn.hasSocket && !r.conn.connected
    ensures r.queue == h.queue
    ensures r.conn.backoffDelay == h.conn.backoffDelay && r.conn.lastAttempt == h.conn.lastAttempt
    ensures !h.running ==> r == h
    ensures h.running ==> r.serial == CloseSerialStep(h.serial) && r.conn == CloseStep(h.conn)
  {
    if !h.running then h
    else h.(running := false, serial := CloseSerialStep(h.serial), conn := CloseStep(h.conn))
  }

  lemma InitialHandlerInv()
    ensures HandlerInv(InitialHandler)
  {
  }

  /** A second `stop()` changes nothing. */
  lemma StopIdempotent(h: HandlerState)
    ensures StopStep(StopStep(h)) == StopStep(h)
  {
  }

  /** A second `start()` changes nothing. */
  lemma StartIdempotent(h: HandlerState)
    ensures StartStep(StartStep(h)) == StartStep(h)
  {
  }

  /** Neither loop does anything on a stopped handler. */
  lemma StoppedStepsAreNoOps(h: HandlerState, open: OpenOutcome, read: ReadOutcome, now: real, outcome: AttemptOutcome, writeOk: bool)
    requires !h.running
    ensures ProduceStep(h, open, read) == h
    ensures ConsumeStep(h, now, outcome, writeOk) == h
  {
  }

  /** Records re-queued before a `stop()` are still queued after a restart. */
  lemma RestartKeepsQueue(h: HandlerState)
    ensures StartStep(StopStep(h)).queue == h.queue
    ensures StartStep(StopStep(h)).running
  {
  }

  /** While running, the consumer's `put` back always finds room: the `get` just
      before it freed a slot, so nothing is dropped on a failed send. Only a
      producer `put` between the two calls, which this sequential model does
      not interleave, can make it raise Full. */
  lemma FailedSendRotates(h: HandlerState, now: real, outcome: AttemptOutcome)
    requires HandlerInv(h) && Takes(h)
    ensures ConsumeStep(h, now, outcome, false).queue == h.queue[1..] + [h.queue[0]]
    ensures multiset(ConsumeStep(h, now, outcome, false).queue) == multiset(h.queue)
  {
    assert h.queue == [h.queue[0]] + h.queue[1..];
  }

  /** A successful send removes exactly the head. */
  lemma SuccessfulSendRemovesHead(h: HandlerState, now: real, outcome: AttemptOutcome)
    requires Takes(h) && Writes(h.conn, now, outcome)
    ensures ConsumeStep(h, now, outcome, true).queue == h.queue[1..]
    ensures Delivery(h, now, outcome, true) == [h.queue[0]]
    ensures multiset(ConsumeStep(h, now, outcome, true).queue) + multiset{h.queue[0]} == multiset(h.queue)
  {
    assert h.queue == [h.queue[0]] + h.queue[1..];
  }

  class AISHandler {
    var running: bool
    var serialPort: SerialHandle
    var dataQueue: seq<Bytes>
    const socketManager: SocketManager

    function State(): HandlerState
      reads this, socketManager
    {
      HandlerState(running, serialPort, dataQueue, socketManager.State())
    }

    ghost predicate Valid()
      reads this, socketManager
    {
      HandlerInv(State())
    }

    constructor (ip: string, port: int, maxRetries: int)
      ensures Valid() && State() == InitialHandler
      ensures fresh(socketManager) && socketManager.attempts == 0 && socketManager.written == []
    {
      running := false;
      serialPort := NoPort;
      dataQueue := [];
      socketManager := new SocketManager(ip, port, maxRetries);
    }

    /** `_connect_serial()` for an open call that returned a port or raised
        SerialException; only the running producer calls it. */
    method ConnectSerial(succeeded: bool)
      requires Valid() && running
      modifies this`serialPort
      ensures Valid()
      ensures serialPort == if succeeded then Port(true) else NoPort
    {
      if succeeded {
        serialPort := Port(true);
      } else {
        serialPort := NoPort;
      }
    }

    /** `_close_serial()`. */
    method CloseSerial()
      modifies this`serialPort
      ensures serialPort == CloseSerialStep(old(serialPort))
    {
      if serialPort.Port? && serialPort.isOpen {
        serialPort := NoPort;
      }
    }

    /** One iteration of `_producer`. */
    method ProducerStep(open: OpenOutcome, read: ReadOutcome)
      requires Valid()
      modifies this
      ensures Valid()
      ensures State() == ProduceStep(old(State()), open, read)
    {
      if !running {
        return;
      }
      if serialPort.NoPort? || !serialPort.isOpen {
        if open == OpenError {
          // caught by `except Exception`: sleep and go round again
          return;
        }
        ConnectSerial(open == Opened);
        if serialPort.NoPort? {
          // sleep RECONNECT_DELAY, then `continue`
          return;
        }
      }
      match read {
        case Line(data) =>
          if |data| > 0 {
            dataQueue := Offer(dataQueue, data);
          }
        case ReadFault =>
          CloseSerial();
        case ReadError =>
      }
    }

    /** One iteration of `_consumer`. */
    method ConsumerStep(now: real, outcome: AttemptOutcome, writeOk: bool)
      requires Valid()
      modifies this, socketManager
      ensures Valid()
      ensures State() == ConsumeStep(old(State()), now, outcome, writeOk)
      ensures socketManager.attempts ==
              old(socketManager.attempts) + (if Takes(old(State())) && Attempts(old(State()).conn, now) then 1 else 0)
      ensures socketManager.written == old(socketManager.written) + Delivery(old(State()), now, outcome, writeOk)
    {
      if !running || dataQueue == [] {
        return;
      }
      var data := dataQueue[0];
      dataQueue := dataQueue[1..];
      var sent := socketManager.Send(data, now, outcome, writeOk);
      if !sent {
        dataQueue := Offer(dataQueue, data);
      }
    }

    /** `start()`; spawning the two threads is not modelled. */
    method Start()
      requires Valid()
      modifies this
      ensures Valid()
      ensures State() == StartStep(old(State()))
    {
      if running {
        return;
      }
      running := true;
    }

    /** `stop()`; joining the two threads is not modelled. */
    method Stop()
      requires Valid()
      modifies this, socketManager
      ensures Valid()
      ensures State() == StopStep(old(State()))
      ensures socketManager.attempts == old(socketManager.attempts)
      ensures socketManager.written == old(socketManager.written)
    {
      if !running {
        return;
      }
      running := false;
      CloseSerial();
      socketManager.Close();
    }
  }
}
