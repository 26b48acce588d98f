/** The bounded FIFO between the serial reader and the TCP sender: a
    `queue.Queue(maxsize=MAX_QUEUE_SIZE)` seen through the outcomes of its
    `put` (accepted or Full) and `get` (a head or Empty). */
module BoundedQueue {

  /** Capacity of the data queue. */
  const MAX_QUEUE_SIZE: nat := 1000

  /** A queue that respects the capacity. */
  predicate WithinBound<T>(q: seq<T>) {
    |q| <= MAX_QUEUE_SIZE
  }

  /** `put` succeeds exactly when the queue has room. */
  predicate HasRoom<T>(q: seq<T>) {
    |q| < MAX_QUEUE_SIZE
  }

  /** `put(x)`: with room, `x` joins at the tail; a full queue raises Full and stays as it was. */
  function Offer<T>(q: seq<T>, x: T): (r: seq<T>)
    ensures WithinBound(q) ==> WithinBound(r)
    ensures |q| <= |r| <= |q| + 1 && r[..|q|] == q
    ensures |r| == |q| + 1 <==> HasRoom(q)
    ensures HasRoom(q) ==> r[|q|] == x
  {
    if HasRoom(q) then q + [x] else q
  }

  /** Whatever `put` does, it neither loses nor invents an element: the new queue holds the old
      elements, plus `x` exactly when it was accepted. */
  lemma OfferConserves<T>(q: seq<T>, x: T)
    ensures multiset(Offer(q, x)) == multiset(q) + (if HasRoom(q) then multiset{x} else multiset{})
  {
  }
}
