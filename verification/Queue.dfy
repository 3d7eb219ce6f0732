/**
  The thread-safe queue of the runtime: a first-in first-out list together with the set of filters
  that may still put into an in-port queue.  Every method is one critical section.
*/
module Queues {

  class Queue<T> {
    var q: seq<T>
    var putters: set<int>

    constructor ()
      ensures q == [] && putters == {}
    {
      q, putters := [], {};
    }

    /** Completes once an item is there. */
    method Get() returns (item: T)
      requires q != []
      modifies this`q
      ensures [item] + q == old(q)
    {
      item := q[0];
      q := q[1..];
    }

    method Put(item: T)
      modifies this`q
      ensures q == old(q) + [item]
    {
      q := q + [item];
    }

    method Empty() returns (b: bool)
      ensures b <==> |q| == 0
    {
      b := q == [];
    }

    method GetAllIfItemPresent() returns (present: bool, items: seq<T>)
      modifies this`q
      ensures present <==> old(q) != []
      ensures items == old(q) && q == []
    {
      items, present := [], q != [];
      if present {
        var i := 0;
        while i < |q|
          invariant 0 <= i <= |q| && items == q[..i] && q == old(q)
        {
          items := items + [q[i]];
          i := i + 1;
        }
        q := [];
      }
    }

    method GetIfItemPresent() returns (present: bool, item: seq<T>)
      modifies this`q
      ensures present <==> old(q) != []
      ensures item + q == old(q) && |item| == if present then 1 else 0
    {
      if q == [] {
        present, item := false, [];
      } else {
        present, item := true, [q[0]];
        q := q[1..];
      }
    }

    method HasMorePutters() returns (b: bool)
      ensures b <==> putters != {}
    {
      b := putters != {};
    }

    method SetPutters(gs: set<int>)
      modifies this`putters
      ensures putters == gs
    {
      putters := gs;
    }

    method RemovePutter(g: int)
      modifies this`putters
      ensures putters == old(putters) - {g}
    {
      putters := putters - {g};
    }
  }
}
