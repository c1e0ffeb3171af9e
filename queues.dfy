/**
 * `multiprocessing.Queue` as one process sees it: a FIFO of items bounded
 * by `maxsize`. As in the library, a `maxsize` of zero or less leaves the
 * queue without a practical bound. Transport between processes, pickling
 * and closing are not modelled.
 */
module Queues {
  import opened Wrappers

  predicate IsFull<T>(items: seq<T>, maxsize: int) {
    maxsize > 0 && |items| >= maxsize
  }

  class BoundedQueue<T> {
    const maxsize: int
    var items: seq<T>

    constructor (maxsize: int)
      ensures this.maxsize == maxsize && items == []
    {
      this.maxsize := maxsize;
      items := [];
    }

    /** `put_nowait`: appends at the back, or reports `queue.Full` and changes nothing. */
    method PutNowait(x: T) returns (full: bool)
      modifies this
      ensures full == IsFull(old(items), maxsize)
      ensures items == if full then old(items) else old(items) + [x]
    {
      full := IsFull(items, maxsize);
      if !full {
        items := items + [x];
      }
    }

    /** `get_nowait`: removes and returns the oldest item, or reports `queue.Empty`. */
    method GetNowait() returns (r: Option<T>)
      modifies this
      ensures old(items) == [] ==> r == None && items == []
      ensures old(items) != [] ==> r == Some(old(items)[0]) && items == old(items)[1..]
    {
      if items == [] {
        r := None;
      } else {
        r := Some(items[0]);
        items := items[1..];
      }
    }
  }
}
