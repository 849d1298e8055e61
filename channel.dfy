/**
 * The bounded handoff queue the player uses between its two threads.
 *
 * Only the contract the player relies on is modelled: a queue of fixed
 * capacity, first in first out, whose send fails without any change when
 * the queue is full and whose receive fails when it is empty. Neither end
 * ever waits.
 */
module Channels {

  datatype Option<T> = None | Some(value: T)

  class Channel<T> {
    /** The number of items the queue can hold, fixed at construction. */
    const capacity: nat
    /** The queued items, oldest first. */
    var items: seq<T>

    ghost predicate Valid()
      reads this
    {
      |items| <= capacity
    }

    constructor (capacity: nat)
      ensures Valid()
      ensures this.capacity == capacity && items == []
    {
      this.capacity := capacity;
      items := [];
    }

    /** Try to append `x`; a full queue refuses it and stays as it was. */
    method Send(x: T) returns (ok: bool)
      requires Valid()
      modifies this
      ensures Valid()
      ensures ok <==> |old(items)| < capacity
      ensures items == if ok then old(items) + [x] else old(items)
    {
      ok := |items| < capacity;
      if ok {
        items := items + [x];
      }
    }

    /** Try to take the oldest item; an empty queue yields `None`. */
    method Receive() returns (r: Option<T>)
      requires Valid()
      modifies this
      ensures Valid()
      ensures r.None? <==> old(items) == []
      ensures r.Some? ==> r.value == old(items)[0] && items == old(items)[1..]
      ensures r.None? ==> items == old(items)
    {
      if items == [] {
        r := None;
      } else {
        r := Some(items[0]);
        items := items[1..];
      }
    }
  }
}
