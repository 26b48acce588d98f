/** The forwarding pipeline over many iterations, seen from the data queue: a
    sequence of producer reads and consumer send results, and what becomes of
    every record (still queued, delivered, or dropped for lack of room). */
module Pipeline {
  import opened BoundedQueue
  import opened SocketManagement
  import opened AisHandling

  /** One loop iteration as the queue sees it: the producer read a line, or the
      consumer took the head and `send` answered `ok`. */
  datatype Event = Read(line: Bytes) | Sent(ok: bool)

  /** The queue, the records that reached the endpoint, and the records dropped. */
  datatype Flow = Flow(queue: seq<Bytes>, delivered: seq<Bytes>, dropped: seq<Bytes>)

  /** One event, by the producer's and the consumer's queue rules. */
  function Apply(f: Flow, e: Event): (r: Flow)
    ensures WithinBound(f.queue) ==> WithinBound(r.queue)
    ensures e.Read? ==> r.queue == Enqueue(f.queue, e.line) && r.delivered == f.delivered
    ensures e.Read? ==> (r.dropped == f.dropped <==> |e.line| == 0 || HasRoom(f.queue))
    ensures e.Sent? && f.queue == [] ==> r == f
    ensures e.Sent? && e.ok && f.queue != [] ==>
              r.queue == f.queue[1..] && r.delivered == f.delivered + [f.queue[0]] && r.dropped == f.dropped
    ensures e.Sent? && !e.ok && f.queue != [] && WithinBound(f.queue) ==>
              r.queue == f.queue[1..] + [f.queue[0]] && r.delivered == f.delivered && r.dropped == f.dropped
  {
    match e
    case Read(line) =>
      f.(queue := Enqueue(f.queue, line),
         dropped := f.dropped + (if |line| > 0 && !HasRoom(f.queue) then [line] else []))
    case Sent(ok) =>
      if f.queue == [] then f
      else
        f.(queue := ConsumeQueue(f.queue, ok),
           delivered := f.delivered + (if ok then [f.queue[0]] else []),
           dropped := f.dropped + (if !ok && !HasRoom(f.queue[1..]) then [f.queue[0]] else []))
  }

  /** The events, in order. */
  function Replay(f: Flow, es: seq<Event>): Flow
    decreases |es|
  {
    if es == [] then f else Replay(Apply(f, es[0]), es[1..])
  }

  /** The non-empty lines the producer read, in order. */
  function Lines(es: seq<Event>): seq<Bytes>
    decreases |es|
  {
    if es == [] then []
    else (if es[0].Read? && |es[0].line| > 0 then [es[0].line] else []) + Lines(es[1..])
  }

  /** Every record the flow accounts for. */
  function Total(f: Flow): multiset<Bytes> {
    multiset(f.queue) + multiset(f.delivered) + multiset(f.dropped)
  }

  /** Every send succeeds. */
  predicate NoFailedSends(es: seq<Event>) {
    forall i | 0 <= i < |es| :: es[i].Sent? ==> es[i].ok
  }

  /** The reads of `lines`, one after the other. */
  function ReadsOf(lines: seq<Bytes>): (es: seq<Event>)
    ensures |es| == |lines|
    ensures forall i | 0 <= i < |lines| :: es[i] == Read(lines[i])
  {
    if lines == [] then [] else [Read(lines[0])] + ReadsOf(lines[1..])
  }

  /** `k` consumer iterations whose sends all fail. */
  function Failures(k: nat): (es: seq<Event>)
    ensures |es| == k
    ensures forall i | 0 <= i < k :: es[i] == Sent(false)
  {
    if k == 0 then [] else [Sent(false)] + Failures(k - 1)
  }

  /** A producer iteration that reaches `readline()` moves the queue as a `Read` event does. */
  lemma ProducerStepIsRead(h: HandlerState, open: OpenOutcome, data: Bytes, delivered: seq<Bytes>, dropped: seq<Bytes>)
    requires Reads(h, open)
    ensures ProduceStep(h, open, Line(data)).queue == Apply(Flow(h.queue, delivered, dropped), Read(data)).queue
  {
  }

  /** A consumer iteration that takes a record moves the queue as a `Sent` event
      with `send`'s answer does, and delivers what the event delivers. */
  lemma ConsumerStepIsSent(h: HandlerState, now: real, outcome: AttemptOutcome, writeOk: bool,
                           delivered: seq<Bytes>, dropped: seq<Bytes>)
    requires Takes(h)
    ensures var e := Sent(SendStep(h.conn, now, outcome, writeOk).1);
            ConsumeStep(h, now, outcome, writeOk).queue == Apply(Flow(h.queue, delivered, dropped), e).queue &&
            Apply(Flow(h.queue, delivered, dropped), e).delivered == delivered + Delivery(h, now, outcome, writeOk)
  {
  }

  /** The queue never exceeds MAX_QUEUE_SIZE, whatever the events. */
  lemma {:induction false} ReplayWithinBound(f: Flow, es: seq<Event>)
    requires WithinBound(f.queue)
    decreases |es|
    ensures WithinBound(Replay(f, es).queue)
  {
    if es != [] {
      ReplayWithinBound(Apply(f, es[0]), es[1..]);
    }
  }

  /** One event neither duplicates nor invents a record: what it accounts for
      grows by exactly the line it read, if any. */
  lemma ApplyConserves(f: Flow, e: Event)
    requires WithinBound(f.queue)
    ensures Total(Apply(f, e)) == Total(f) + multiset(Lines([e]))
  {
    assert Lines([e]) == (if e.Read? && |e.line| > 0 then [e.line] else []) + Lines([]);
    if e.Sent? && f.queue != [] {
      assert f.queue == [f.queue[0]] + f.queue[1..];
    }
  }

  /** Over a whole run every record read is queued, delivered or dropped, once. */
  lemma {:induction false} ReplayConserves(f: Flow, es: seq<Event>)
    requires WithinBound(f.queue)
    decreases |es|
    ensures Total(Replay(f, es)) == Total(f) + multiset(Lines(es))
  {
    if es != [] {
      ApplyConserves(f, es[0]);
      ReplayConserves(Apply(f, es[0]), es[1..]);
      LinesSplit(es);
    }
  }

  /** Lines that fit into the room left are never dropped, whatever the sends answer
      and however the iterations interleave. */
  lemma {:induction false} NoDropWithinCapacity(f: Flow, es: seq<Event>)
    requires |f.queue| + |Lines(es)| <= MAX_QUEUE_SIZE
    decreases |es|
    ensures Replay(f, es).dropped == f.dropped
  {
    if es != [] {
      var g := Apply(f, es[0]);
      LinesSplit(es);
      assert |g.queue| + |Lines(es[1..])| <= MAX_QUEUE_SIZE;
      NoDropWithinCapacity(g, es[1..]);
    }
  }

  /** `Lines` of a non-empty run is the head's line, if any, followed by the rest's. */
  lemma LinesSplit(es: seq<Event>)
    requires es != []
    ensures Lines(es) == Lines([es[0]]) + Lines(es[1..])
  {
    assert Lines([es[0]]) == (if es[0].Read? && |es[0].line| > 0 then [es[0].line] else []) + Lines([]);
  }

  /** One event that is not a failed send keeps delivered-then-queued equal to the
      old delivered-then-queued followed by the line read, when there is room. */
  lemma ApplyFifo(f: Flow, e: Event)
    requires e.Sent? ==> e.ok
    requires |f.queue| + |Lines([e])| <= MAX_QUEUE_SIZE
    ensures Apply(f, e).delivered + Apply(f, e).queue == f.delivered + f.queue + Lines([e])
  {
    assert Lines([e]) == (if e.Read? && |e.line| > 0 then [e.line] else []) + Lines([]);
    if e.Sent? && f.queue != [] {
      assert f.queue == [f.queue[0]] + f.queue[1..];
    }
  }

  /** Without failed sends and within capacity the pipeline is a FIFO: what was
      delivered, followed by what is still queued, is what was queued before
      followed by every line read, in order. */
  lemma {:induction false} FifoWithoutFailures(f: Flow, es: seq<Event>)
    requires NoFailedSends(es)
    requires |f.queue| + |Lines(es)| <= MAX_QUEUE_SIZE
    decreases |es|
    ensures Replay(f, es).delivered + Replay(f, es).queue == f.delivered + f.queue + Lines(es)
  {
    if es != [] {
      var g := Apply(f, es[0]);
      LinesSplit(es);
      ApplyFifo(f, es[0]);
      assert |g.queue| <= |f.queue| + |Lines([es[0]])|;
      assert NoFailedSends(es[1..]);
      FifoWithoutFailures(g, es[1..]);
      assert Replay(f, es) == Replay(g, es[1..]);
    }
  }

  /** Reading one more line: queued at the tail when there is room, dropped otherwise. */
  lemma ReadOne(f: Flow, line: Bytes)
    requires WithinBound(f.queue) && |line| > 0
    ensures HasRoom(f.queue) ==> Apply(f, Read(line)) == f.(queue := f.queue + [line])
    ensures !HasRoom(f.queue) ==> Apply(f, Read(line)) == f.(dropped := f.dropped + [line])
  {
  }

  /** The split point of `FillWithoutConsumer`: what fits into the queue. */
  function Fits(n: nat): nat {
    if n < MAX_QUEUE_SIZE then n else MAX_QUEUE_SIZE
  }

  /** With no consumer activity, the queue keeps the first MAX_QUEUE_SIZE records in
      arrival order and every later line is dropped. */
  lemma {:induction false} FillWithoutConsumer(f: Flow, lines: seq<Bytes>)
    requires WithinBound(f.queue)
    requires forall i | 0 <= i < |lines| :: |lines[i]| > 0
    decreases |lines|
    ensures Replay(f, ReadsOf(lines)) ==
            Flow((f.queue + lines)[..Fits(|f.queue| + |lines|)], f.delivered,
                 f.dropped + (f.queue + lines)[Fits(|f.queue| + |lines|)..])
  {
    if lines == [] {
      assert f.queue + lines == f.queue;
    } else {
      var es := ReadsOf(lines);
      var rest := lines[1..];
      assert es[0] == Read(lines[0]) && es[1..] == ReadsOf(rest);
      var g := Apply(f, Read(lines[0]));
      ReadOne(f, lines[0]);
      assert Replay(f, es) == Replay(g, ReadsOf(rest));
      FillWithoutConsumer(g, rest);
      if HasRoom(f.queue) {
        FillRoom(f.queue, lines);
      } else {
        FillFull(f.queue, f.dropped, lines);
      }
    }
  }

  lemma FillRoom(q: seq<Bytes>, lines: seq<Bytes>)
    requires lines != []
    ensures (q + [lines[0]]) + lines[1..] == q + lines
  {
    assert lines == [lines[0]] + lines[1..];
  }

  lemma FillFull(q: seq<Bytes>, dropped: seq<Bytes>, lines: seq<Bytes>)
    requires |q| == MAX_QUEUE_SIZE && lines != []
    ensures (q + lines[1..])[..Fits(|q| + |lines[1..]|)] == (q + lines)[..Fits(|q| + |lines|)]
    ensures (dropped + [lines[0]]) + (q + lines[1..])[Fits(|q| + |lines[1..]|)..] ==
            dropped + (q + lines)[Fits(|q| + |lines|)..]
  {
    assert (q + lines[1..])[..MAX_QUEUE_SIZE] == q == (q + lines)[..MAX_QUEUE_SIZE];
    assert (q + lines[1..])[MAX_QUEUE_SIZE..] == lines[1..];
    assert (q + lines)[MAX_QUEUE_SIZE..] == lines == [lines[0]] + lines[1..];
  }

  /** 1500 lines read into an empty queue with the endpoint stalled: the first 1000
      stay queued in order and the last 500 are dropped. */
  lemma StalledEndpoint(lines: seq<Bytes>)
    requires |lines| == 1500
    requires forall i | 0 <= i < |lines| :: |lines[i]| > 0
    ensures Replay(Flow([], [], []), ReadsOf(lines)).queue == lines[..1000]
    ensures Replay(Flow([], [], []), ReadsOf(lines)).dropped == lines[1000..]
    ensures |Replay(Flow([], [], []), ReadsOf(lines)).dropped| == 500
  {
    FillWithoutConsumer(Flow([], [], []), lines);
    assert [] + lines == lines;
    assert Fits(1500) == 1000;
  }

  /** `k` failed sends in a row rotate the queue by `k` places and lose nothing. */
  lemma {:induction false} FailuresRotate(f: Flow, k: nat)
    requires WithinBound(f.queue) && k <= |f.queue|
    decreases k
    ensures Replay(f, Failures(k)) == f.(queue := f.queue[k..] + f.queue[..k])
  {
    var q := f.queue;
    if k == 0 {
      assert q[0..] + q[..0] == q;
    } else {
      var es := Failures(k);
      assert es[0] == Sent(false);
      assert es[1..] == Failures(k - 1);
      var g := Apply(f, Sent(false));
      assert g == f.(queue := q[1..] + [q[0]]);
      FailuresRotate(g, k - 1);
      var r := q[1..] + [q[0]];
      assert r[k - 1..] + r[..k - 1] == q[k..] + q[..k] by {
        assert r[k - 1..] == q[k..] + [q[0]];
        assert r[..k - 1] == q[1..k];
        assert q[..k] == [q[0]] + q[1..k];
      }
    }
  }

  /** Rotation on failure reorders delivery: three records queued as a, b, c, one
      failed send and three good ones reach the endpoint as b, c, a. */
  lemma RetryReorders(a: Bytes, b: Bytes, c: Bytes)
    ensures Replay(Flow([a, b, c], [], []), [Sent(false), Sent(true), Sent(true), Sent(true)]).delivered == [b, c, a]
  {
    var es := [Sent(false), Sent(true), Sent(true), Sent(true)];
    var f1 := Apply(Flow([a, b, c], [], []), es[0]);
    assert f1 == Flow([b, c, a], [], []);
    var f2 := Apply(f1, es[1]);
    assert f2 == Flow([c, a], [b], []);
    var f3 := Apply(f2, es[2]);
    assert f3 == Flow([a], [b, c], []);
    var f4 := Apply(f3, es[3]);
    assert f4 == Flow([], [b, c, a], []);
    assert es[1..][1..][1..][1..] == [];
  }
}
