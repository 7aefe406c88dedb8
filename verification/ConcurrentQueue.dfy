// concurrent_queue.
module ConcurrentQueues {
  // push and tryPop each hold the lock throughout, so each is one atomic action.

  import opened TaskTree

  class ConcurrentQueue<T> {
    var queue: seq<T>

    constructor ()
      ensures queue == []
    {
      queue := [];
    }

    method Push(t: T)
      modifies this
      ensures queue == old(queue) + [t]
    {
      queue := queue + [t];
    }

    /** The oldest element, or nothing: then the caller's variable is left alone. */
    method TryPop() returns (v: Option<T>)
      modifies this
      ensures v.Some? <==> old(queue) != []
      ensures old(queue) == (if v.Some? then [v.value] + queue else queue)
    {
      if queue == [] {
        return None;
      }
      v, queue := Some(queue[0]), queue[1..];
    }
  }
}
