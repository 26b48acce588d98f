/** The TCP side of the forwarder: `SocketManager`, one outbound connection with
    reconnect throttling and exponential back-off. The socket calls themselves
    (create, settimeout, connect, sendall, close) are foreign; what they did is
    passed in as an outcome, and the clock reading `time.time()` is passed in as
    `now`. */
module SocketManagement {
  import opened Backoff

  /** A record on the wire: the bytes of one line exactly as read. */
  type Bytes = seq<bv8>

  /** The fields of a SocketManager that its methods read and write; `hasSocket`
      stands for `self.socket` being a socket object rather than None. */
  datatype ConnState = ConnState(connected: bool, hasSocket: bool, lastAttempt: real, backoffDelay: real)

  /** What the foreign calls of one connection attempt did. */
  datatype AttemptOutcome =
    | Established  // a new socket was created and connected
    | Refused      // the new socket was created, then settimeout or connect raised socket.error
    | NoSocket     // closing the stale socket or creating the new one raised socket.error

  /** The state `__init__` leaves: no socket, `last_attempt = 0`, `backoff_delay = RECONNECT_DELAY`. */
  const Initial: ConnState := ConnState(false, false, 0.0, RECONNECT_DELAY)

  /** Kept by every operation: a connected manager has a socket, and the
      back-off stays within [RECONNECT_DELAY, MAX_BACKOFF_DELAY]. */
  predicate Inv(s: ConnState) {
    (s.connected ==> s.hasSocket) && InRange(s.backoffDelay)
  }

  /** `connect()` at time `now` reaches the network: it is disconnected and the
      back-off window since the last attempt has elapsed. */
  predicate Attempts(s: ConnState, now: real) {
    !s.connected && !(now - s.lastAttempt < s.backoffDelay)
  }

  /** `connect()`: the new state and the value returned. */
  function ConnectStep(s: ConnState, now: real, outcome: AttemptOutcome): (r: (ConnState, bool))
    ensures Inv(s) ==> Inv(r.0)
    ensures r.1 == r.0.connected
    ensures !Attempts(s, now) ==> r.0 == s
    ensures Attempts(s, now) ==> r.0.lastAttempt == now && (r.1 <==> outcome == Established)
  {
    if s.connected then (s, true)
    else if now - s.lastAttempt < s.backoffDelay then (s, false)
    else
      var tried := s.(lastAttempt := now);
      match outcome
      case Established =>
        (tried.(hasSocket := true, connected := true, backoffDelay := RECONNECT_DELAY), true)
      case Refused =>
        (tried.(hasSocket := true, backoffDelay := Grow(s.backoffDelay), connected := false), false)
      case NoSocket =>
        (tried.(backoffDelay := Grow(s.backoffDelay), connected := false), false)
  }

  /** `send(data)` hands the data to `sendall`: the link was up, or came up by the reconnect inside the call. */
  predicate Writes(s: ConnState, now: real, outcome: AttemptOutcome) {
    s.connected || ConnectStep(s, now, outcome).1
  }

  /** `send(data)`: reconnect when disconnected, then write in the same call;
      a failed write marks the manager disconnected. */
  function SendStep(s: ConnState, now: real, outcome: AttemptOutcome, writeOk: bool): (r: (ConnState, bool))
    ensures Inv(s) ==> Inv(r.0)
    ensures r.1 <==> Writes(s, now, outcome) && writeOk
    ensures r.1 ==> r.0.connected
    ensures !r.1 ==> !r.0.connected
    ensures r.0.lastAttempt == ConnectStep(s, now, outcome).0.lastAttempt
    ensures r.0.backoffDelay == ConnectStep(s, now, outcome).0.backoffDelay
    ensures r.0.hasSocket == ConnectStep(s, now, outcome).0.hasSocket
  {
    var (linked, up) := if s.connected then (s, true) else ConnectStep(s, now, outcome);
    if !up then (linked, false)
    else if writeOk then (linked, true)
    else (linked.(connected := false), false)
  }

  /** `close()`: drop the socket if there is one. */
  function CloseStep(s: ConnState): (r: ConnState)
    ensures !r.hasSocket
    ensures s.hasSocket ==> !r.connected
    ensures Inv(s) ==> Inv(r) && !r.connected
    ensures r.lastAttempt == s.lastAttempt && r.backoffDelay == s.backoffDelay
  {
    if s.hasSocket then s.(connected := false, hasSocket := false) else s
  }

  lemma InitialInv()
    ensures Inv(Initial)
  {
  }

  /** An already connected manager answers true and changes nothing. */
  lemma ConnectWhenConnected(s: ConnState, now: real, outcome: AttemptOutcome)
    requires s.connected
    ensures ConnectStep(s, now, outcome) == (s, true)
  {
  }

  /** Within the back-off window no attempt is made: false, and nothing changes. */
  lemma ConnectThrottled(s: ConnState, now: real, outcome: AttemptOutcome)
    requires !s.connected && now - s.lastAttempt < s.backoffDelay
    ensures ConnectStep(s, now, outcome) == (s, false)
  {
  }

  /** A successful attempt records the time, connects and resets the back-off. */
  lemma ConnectSucceeds(s: ConnState, now: real)
    requires Attempts(s, now)
    ensures ConnectStep(s, now, Established) ==
            (s.(connected := true, hasSocket := true, lastAttempt := now, backoffDelay := RECONNECT_DELAY), true)
  {
  }

  /** A failed attempt records the time, stays disconnected and grows the back-off by
      BACKOFF_FACTOR up to MAX_BACKOFF_DELAY; it leaves the new socket object behind
      unless creating it failed. */
  lemma ConnectFails(s: ConnState, now: real, outcome: AttemptOutcome)
    requires Attempts(s, now) && outcome != Established
    ensures ConnectStep(s, now, outcome) ==
            (s.(connected := false, lastAttempt := now, backoffDelay := Min(s.backoffDelay * BACKOFF_FACTOR, MAX_BACKOFF_DELAY),
                hasSocket := s.hasSocket || outcome == Refused), false)
  {
  }

  /** A disconnected manager whose reconnect fails writes nothing and returns false. */
  lemma SendWithoutLink(s: ConnState, now: real, outcome: AttemptOutcome, writeOk: bool)
    requires !s.connected && !ConnectStep(s, now, outcome).1
    ensures !Writes(s, now, outcome)
    ensures SendStep(s, now, outcome, writeOk) == (ConnectStep(s, now, outcome).0, false)
  {
  }

  /** A reconnect that succeeds inside `send` is followed by the write in the same call. */
  lemma SendAfterReconnect(s: ConnState, now: real, writeOk: bool)
    requires Attempts(s, now)
    ensures Writes(s, now, Established)
    ensures SendStep(s, now, Established, writeOk).1 == writeOk
    ensures SendStep(s, now, Established, writeOk).0.backoffDelay == RECONNECT_DELAY
  {
  }

  /** Closing twice is closing once. */
  lemma CloseIdempotent(s: ConnState)
    ensures CloseStep(CloseStep(s)) == CloseStep(s)
  {
  }

  /** One call of `connect()` in a sequence of calls. */
  datatype ConnectCall = ConnectCall(now: real, outcome: AttemptOutcome)

  /** The state after the calls, in order. */
  function RunConnects(s: ConnState, calls: seq<ConnectCall>): ConnState
    decreases |calls|
  {
    if calls == [] then s
    else RunConnects(ConnectStep(s, calls[0].now, calls[0].outcome).0, calls[1..])
  }

  /** How many of the calls reached the network. */
  function AttemptCount(s: ConnState, calls: seq<ConnectCall>): nat
    decreases |calls|
  {
    if calls == [] then 0
    else
      (if Attempts(s, calls[0].now) then 1 else 0)
      + AttemptCount(ConnectStep(s, calls[0].now, calls[0].outcome).0, calls[1..])
  }

  /** Calls that all fall inside the current back-off window make no attempt and change nothing. */
  lemma {:induction false} ThrottledCallsChangeNothing(s: ConnState, calls: seq<ConnectCall>)
    requires !s.connected
    requires forall i | 0 <= i < |calls| :: calls[i].now - s.lastAttempt < s.backoffDelay
    decreases |calls|
    ensures RunConnects(s, calls) == s
    ensures AttemptCount(s, calls) == 0
  {
    if calls != [] {
      ConnectThrottled(s, calls[0].now, calls[0].outcome);
      ThrottledCallsChangeNothing(s, calls[1..]);
    }
  }

  /** While no attempt succeeds, the manager stays disconnected and the back-off
      has grown once per attempt made, whatever the times of the calls. */
  lemma {:induction false} FailingConnects(s: ConnState, calls: seq<ConnectCall>)
    requires Inv(s) && !s.connected
    requires forall i | 0 <= i < |calls| :: calls[i].outcome != Established
    decreases |calls|
    ensures Inv(RunConnects(s, calls)) && !RunConnects(s, calls).connected
    ensures RunConnects(s, calls).backoffDelay == AfterFailures(s.backoffDelay, AttemptCount(s, calls))
  {
    if calls != [] {
      var c := calls[0];
      var next := ConnectStep(s, c.now, c.outcome).0;
      FailingConnects(next, calls[1..]);
      var k := AttemptCount(next, calls[1..]);
      if Attempts(s, c.now) {
        assert next.backoffDelay == Grow(s.backoffDelay);
        assert AttemptCount(s, calls) == 1 + k;
        assert AfterFailures(s.backoffDelay, 1 + k) == AfterFailures(Grow(s.backoffDelay), k);
      } else {
        assert next == s;
      }
    }
  }

  /** From a fresh manager, after calls of which `n` reached the network and all
      failed, the back-off is `min(RECONNECT_DELAY * BACKOFF_FACTOR^n, MAX_BACKOFF_DELAY)`. */
  lemma FailingConnectsFromStart(calls: seq<ConnectCall>)
    requires forall i | 0 <= i < |calls| :: calls[i].outcome != Established
    ensures RunConnects(Initial, calls).backoffDelay ==
            Min(RECONNECT_DELAY * Power(BACKOFF_FACTOR, AttemptCount(Initial, calls)), MAX_BACKOFF_DELAY)
  {
    FailingConnects(Initial, calls);
    AfterFailuresClosedForm(RECONNECT_DELAY, AttemptCount(Initial, calls));
  }

  class SocketManager {
    const host: string
    const port: int
    /** Stored and never consulted. */
    const maxRetries: int

    var connected: bool
    var hasSocket: bool
    var lastAttempt: real
    var backoffDelay: real

    /** Connection attempts made so far, each one running the foreign socket calls. */
    ghost var attempts: nat
    /** Every payload a `sendall` accepted, in order: what the endpoint received. */
    ghost var written: seq<Bytes>

    function State(): ConnState
      reads this
    {
      ConnState(connected, hasSocket, lastAttempt, backoffDelay)
    }

    ghost predicate Valid()
      reads this
    {
      Inv(State())
    }

    constructor (host: string, port: int, maxRetries: int)
      ensures Valid() && State() == Initial
      ensures this.host == host && this.port == port && this.maxRetries == maxRetries
      ensures attempts == 0 && written == []
    {
      this.host := host;
      this.port := port;
      this.maxRetries := maxRetries;
      connected := false;
      hasSocket := false;
      lastAttempt := 0.0;
      backoffDelay := RECONNECT_DELAY;
      attempts := 0;
      written := [];
    }

    method Connect(now: real, outcome: AttemptOutcome) returns (ok: bool)
      requires Valid()
      modifies this
      ensures Valid()
      ensures (State(), ok) == ConnectStep(old(State()), now, outcome)
      ensures attempts == old(attempts) + (if Attempts(old(State()), now) then 1 else 0)
      ensures written == old(written)
    {
      if connected {
        return true;
      }
      var timeSinceLastAttempt := now - lastAttempt;
      if timeSinceLastAttempt < backoffDelay {
        return false;
      }
      lastAttempt := now;
      attempts := attempts + 1;
      match outcome {
        case Established =>
          hasSocket := true;
          connected := true;
          backoffDelay := RECONNECT_DELAY;
          ok := true;
        case Refused =>
          hasSocket := true;
          backoffDelay := Min(backoffDelay * BACKOFF_FACTOR, MAX_BACKOFF_DELAY);
          connected := false;
          ok := false;
        case NoSocket =>
          backoffDelay := Min(backoffDelay * BACKOFF_FACTOR, MAX_BACKOFF_DELAY);
          connected := false;
          ok := false;
      }
    }

    method Send(data: Bytes, now: real, outcome: AttemptOutcome, writeOk: bool) returns (ok: bool)
      requires Valid()
      modifies this
      ensures Valid()
      ensures (State(), ok) == SendStep(old(State()), now, outcome, writeOk)
      ensures attempts == old(attempts) + (if Attempts(old(State()), now) then 1 else 0)
      ensures written == old(written) + (if ok then [data] else [])
    {
      // In the source, send() holds the non-reentrant socket_lock while it calls
      // connect(), which acquires the same lock again: a send on a disconnected
      // manager blocks for ever there. The model has no lock and follows the
      // evident intent of reconnecting and writing in the same call.
      if !connected {
        var up := Connect(now, outcome);
        if !up {
          return false;
        }
      }
      if writeOk {
        written := written + [data];
        ok := true;
      } else {
        connected := false;
        ok := false;
      }
    }

    method Close()
      requires Valid()
      modifies this
      ensures Valid()
      ensures State() == CloseStep(old(State()))
      ensures attempts == old(attempts) && written == old(written)
    {
      if hasSocket {
        connected := false;
        hasSocket := false;
      }
    }
  }
}
