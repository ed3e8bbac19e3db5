/**
 * models/queues.py: the update message that travels from the registry to the
 * display, and the asyncio queue that carries it (an unbounded FIFO shared by
 * the producer and the consumer).
 */
module Queues {
  import opened Wrappers
  import opened RequestModels

  /** `RequestUpdateOperation`. */
  datatype RequestUpdateOperation = UPDATE | DELETE

  /** `RequestUpdateMessage`; `metrics` defaults to `None` and is not tied to the tag. */
  datatype RequestUpdateMessage = RequestUpdateMessage(
    operation: RequestUpdateOperation,
    address: string,
    metrics: Option<Metrics>)

  /** The unbounded `asyncio.Queue` both sides hold a reference to. */
  class UpdateQueue {
    var items: seq<RequestUpdateMessage>

    constructor ()
      ensures items == []
    {
      items := [];
    }

    /** `put`: never blocks (the queue is unbounded) and appends at the tail. */
    method Put(message: RequestUpdateMessage)
      modifies this
      ensures items == old(items) + [message]
    {
      items := items + [message];
    }

    /**
     * `get`: removes and returns the head. On an empty queue the real call
     * waits for a producer; here it returns `None` and changes nothing.
     */
    method Get() returns (message: Option<RequestUpdateMessage>)
      modifies this
      ensures old(items) == [] ==> message == None && items == []
      ensures old(items) != [] ==> message == Some(old(items)[0]) && items == old(items)[1..]
    {
      if items == [] {
        message := None;
      } else {
        message := Some(items[0]);
        items := items[1..];
      }
    }
  }
}
