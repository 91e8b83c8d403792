/**
 * The generic first-in first-out buffer `Queue<T>` that carries resolved
 * data points from the scan side to the processing side.
 */
module Fifo {
  import opened Wrappers

  class Queue<T> {
    /** The buffer the queue appends to and removes from. */
    var elements: seq<T>

    // public view of the queue:
    /** What the queue holds, front first. */
    ghost var Contents: seq<T>
    /** Every value ever enqueued, in order. */
    ghost var Enqueued: seq<T>
    /** Every value ever handed out by `Dequeue` or `DequeueAll`, in order. */
    ghost var Removed: seq<T>

    /**
     * The buffer is the public contents, and conservation holds: what was
     * handed out followed by what remains is exactly what was enqueued, so
     * nothing is lost, duplicated or reordered.
     */
    ghost predicate Valid()
      reads this
    {
      Contents == elements && Removed + Contents == Enqueued
    }

    constructor ()
      ensures Valid()
      ensures Contents == [] && Enqueued == [] && Removed == []
    {
      elements := [];
      Contents, Enqueued, Removed := [], [], [];
    }

    /** Appends `value` at the back. */
    method Enqueue(value: T)
      requires Valid()
      modifies this
      ensures Valid()
      ensures Contents == old(Contents) + [value]
      ensures Enqueued == old(Enqueued) + [value] && Removed == old(Removed)
      ensures Size() == old(Size()) + 1 && Tail() == Some(value)
    {
      elements := elements + [value];
      Contents, Enqueued := Contents + [value], Enqueued + [value];
    }

    /** Removes and returns the front value; on an empty queue returns `None` and changes nothing. */
    method Dequeue() returns (r: Option<T>)
      requires Valid()
      modifies this
      ensures Valid()
      ensures Enqueued == old(Enqueued)
      ensures old(Contents) == [] ==> r == None && Contents == old(Contents) && Removed == old(Removed)
      ensures old(Contents) != [] ==>
                && r == Some(old(Contents)[0])
                && Contents == old(Contents)[1..]
                && Removed == old(Removed) + [old(Contents)[0]]
    {
      if elements == [] {
        return None;
      }
      var first := elements[0];
      elements := elements[1..];
      assert Removed + [first] + elements == Removed + Contents;
      Contents, Removed := elements, Removed + [first];
      r := Some(first);
    }

    /** Removes everything at once and returns it in insertion order. */
    method DequeueAll() returns (batch: seq<T>)
      requires Valid()
      modifies this
      ensures Valid()
      ensures batch == old(Contents) && Contents == []
      ensures Enqueued == old(Enqueued) && Removed == old(Removed) + batch
    {
      batch := elements;
      elements := [];
      Contents, Removed := [], Removed + batch;
    }

    /** The front value, `None` exactly when the queue is empty. */
    function Head(): (r: Option<T>)
      reads this
      requires Valid()
      ensures r == None <==> Contents == []
      ensures r != None ==> r.value == Contents[0]
    {
      if elements == [] then None else Some(elements[0])
    }

    /** The back value, `None` exactly when the queue is empty. */
    function Tail(): (r: Option<T>)
      reads this
      requires Valid()
      ensures r == None <==> Contents == []
      ensures r != None ==> r.value == Contents[|Contents| - 1]
    {
      if elements == [] then None else Some(elements[|elements| - 1])
    }

    function IsEmpty(): (r: bool)
      reads this
      requires Valid()
      ensures r <==> Size() == 0
      ensures r <==> Contents == []
    {
      elements == []
    }

    function Size(): (n: nat)
      reads this
      requires Valid()
      ensures n == |Contents|
    {
      |elements|
    }
  }
}
