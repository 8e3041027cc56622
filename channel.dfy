/**
 A client's outbound buffer: the `send` channel of a `Client`, a Go
 `chan []byte` made with room for 256 payloads.  The hub uses it in three
 ways only: a send that never blocks, a receive by the writer's `range`
 loop, and `close`.  The channel is modelled as a value: the payloads it
 buffers, oldest first, and whether it has been closed.
 */
module Channel {

  type Byte = bv8

  /** A message frame as the hub sees it: opaque bytes. */
  type Payload = seq<Byte>

  /** The buffer size every client's channel is made with. */
  const CAPACITY: nat := 256

  datatype Queue = Queue(items: seq<Payload>, closed: bool)

  /** A channel just made: empty and open. */
  const FRESH: Queue := Queue([], false)

  predicate Bounded(q: Queue) {
    |q.items| <= CAPACITY
  }

  predicate HasRoom(q: Queue) {
    |q.items| < CAPACITY
  }

  /**
   A `select` with a `default` case: the send goes through when the buffer
   has room and is abandoned (the payload is dropped) when it is full; it
   never waits.  A send on a closed channel panics in Go, hence the
   precondition.
   */
  function Offer(q: Queue, p: Payload): (r: Queue)
    requires !q.closed
    ensures !r.closed
    ensures Bounded(q) ==> Bounded(r)
    ensures q.items <= r.items
    ensures |r.items| == if HasRoom(q) then |q.items| + 1 else |q.items|
    ensures HasRoom(q) ==> r.items[|q.items|] == p
  {
    if HasRoom(q) then q.(items := q.items + [p]) else q
  }

  /**
   Closing a channel: what is buffered stays receivable, in order, and once
   it is drained the writer's `range` loop ends instead of waiting.  Closing a
   closed channel panics in Go, hence the precondition.
   */
  function Close(q: Queue): (r: Queue)
    requires !q.closed
    ensures r.closed && r.items == q.items
    ensures ReceiveAll(r) == q.items
    ensures q.items == [] ==> Receive(r).0 == Ended
  {
    ReceiveAllIsFifo(q.(closed := true));
    q.(closed := true)
  }

  /** What one receive of the writer's `range` loop sees. */
  datatype Recv = Value(payload: Payload) | Ended | WouldBlock

  /**
   One step of the writer's `range` loop: the oldest buffered payload when
   there is one; otherwise the loop ends if the channel is closed and waits
   if it is open.
   */
  function Receive(q: Queue): (r: (Recv, Queue))
    ensures r.1.closed == q.closed
    ensures r.0.Value? <==> q.items != []
    ensures r.0.Value? ==> q.items == [r.0.payload] + r.1.items
    ensures r.0.Ended? <==> q.items == [] && q.closed
    ensures !r.0.Value? ==> r.1 == q
  {
    if q.items != [] then (Value(q.items[0]), q.(items := q.items[1..]))
    else if q.closed then (Ended, q)
    else (WouldBlock, q)
  }

  /** Everything the `range` loop receives before it ends or has to wait. */
  function ReceiveAll(q: Queue): (r: seq<Payload>)
    decreases |q.items|
  {
    match Receive(q).0
    case Value(p) => [p] + ReceiveAll(Receive(q).1)
    case _ => []
  }

  /** The `range` loop receives the buffered payloads front first, each once. */
  lemma {:induction false} ReceiveAllIsFifo(q: Queue)
    ensures ReceiveAll(q) == q.items
    decreases |q.items|
  {
    if q.items != [] {
      ReceiveAllIsFifo(Receive(q).1);
    }
  }

  /**
   A payload offered behind others is received after them: receiving first
   and offering afterwards gives the same channel as the other way round.
   */
  lemma OfferBehindIsFifo(q: Queue, p: Payload)
    requires !q.closed && q.items != [] && HasRoom(q)
    ensures Receive(Offer(q, p)) == (Value(q.items[0]), Offer(Receive(q).1, p))
  {
    assert (q.items + [p])[1..] == q.items[1..] + [p];
  }
}
