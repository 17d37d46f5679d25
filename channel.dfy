/** The asyncio.Queue that carries serialised records from the fetchers to the consumers. */
module Channel {
  import opened Models

  /** A FIFO of Python dicts; `items[0]` is the next one `get` hands out. */
  class Queue {
    var items: seq<Dict>

    constructor()
      ensures items == []
    {
      items := [];
    }

    /** `await queue.put(d)` */
    method Put(d: Dict)
      modifies this
      ensures items == old(items) + [d]
    {
      items := items + [d];
    }

    /** `await queue.get()` once an item is waiting. */
    method Get() returns (d: Dict)
      requires |items| > 0
      modifies this
      ensures d == old(items)[0] && items == old(items)[1..]
    {
      d := items[0];
      items := items[1..];
    }
  }
}
