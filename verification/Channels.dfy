/** Go's buffered channels, one atomic operation per method. */
module Channels {
  import opened Seqs

  class Channel<T> {
    const capacity: nat
    var queue: seq<T>
    var closed: bool

    constructor (capacity: nat)
      ensures this.capacity == capacity && queue == [] && !closed
    {
      this.capacity := capacity;
      queue := [];
      closed := false;
    }

    /** The send case of a select with a default: enqueue when there is room, otherwise do nothing.
        Sending on a closed channel panics in Go, hence the requirement. */
    method TrySend(x: T) returns (sent: bool)
      requires !closed
      modifies this`queue
      ensures sent == (|old(queue)| < capacity)
      ensures queue == if sent then old(queue) + [x] else old(queue)
    {
      sent := |queue| < capacity;
      if sent {
        queue := queue + [x];
      }
    }

    /** A receive that does not block: None when nothing is buffered. */
    method TryReceive() returns (x: Option<T>)
      modifies this`queue
      ensures old(queue) == [] ==> x == None && queue == []
      ensures old(queue) != [] ==> x == Some(old(queue)[0]) && queue == old(queue)[1..]
    {
      if queue == [] {
        x := None;
      } else {
        x := Some(queue[0]);
        queue := queue[1..];
      }
    }

    /** Closing twice panics in Go; buffered items stay readable. */
    method Close()
      requires !closed
      modifies this`closed
      ensures closed
    {
      closed := true;
    }
  }
}
