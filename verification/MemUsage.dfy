/** A byte counter with a threshold, shared by the threads of a process. */
module MemUsages {

  /** The first of the levels with room for the bytes. */
  predicate FirstRoom(levels: seq<nat>, bytes: nat, threshold: nat, level: nat) {
    exists i :: 0 <= i < |levels| && levels[i] == level && level + bytes <= threshold
             && forall k :: 0 <= k < i ==> levels[k] + bytes > threshold
  }

  class MemUsage {
    const threshold: nat
    var currentUsage: int

    ghost predicate Valid()
      reads this
    {
      0 <= currentUsage <= threshold
    }

    constructor (maxBytes: nat)
      ensures Valid() && currentUsage == 0 && threshold == maxBytes
    {
      threshold, currentUsage := maxBytes, 0;
    }

    /**
      Ends the program if the buffer can never fit; otherwise waits until there is room.  `wakes` is what
      the other threads have made of the counter at each notification, one of which leaves room; `seen`
      is the first level that does.
    */
    method Accumulate(bytes: nat, wakes: seq<nat>) returns (alive: bool, ghost seen: nat)
      requires Valid() && forall i :: 0 <= i < |wakes| ==> wakes[i] <= threshold
      requires currentUsage + bytes > threshold && bytes <= threshold ==> exists i :: 0 <= i < |wakes| && wakes[i] + bytes <= threshold
      modifies this
      ensures Valid() && (alive <==> bytes <= threshold)
      ensures currentUsage == if alive then seen + bytes else old(currentUsage)
      ensures alive ==> if old(currentUsage) + bytes <= threshold then seen == old(currentUsage) else FirstRoom(wakes, bytes, threshold, seen)
    {
      seen := 0;
      if bytes > threshold {
        return false, seen;
      }
      var i := 0;
      while currentUsage + bytes > threshold
        invariant 0 <= i <= |wakes| && Valid() && (i == 0 ==> currentUsage == old(currentUsage))
        invariant i > 0 ==> currentUsage == wakes[i - 1] && old(currentUsage) + bytes > threshold
        invariant forall k :: 0 <= k < i - 1 ==> wakes[k] + bytes > threshold
        decreases |wakes| - i
      {
        currentUsage := wakes[i];
        i := i + 1;
      }
      seen := currentUsage;
      currentUsage := currentUsage + bytes;
      return true, seen;
    }

    /** The precondition is the assertion in the code. */
    method Reduce(bytes: nat)
      requires Valid() && bytes <= currentUsage
      modifies this
      ensures Valid() && currentUsage == old(currentUsage) - bytes
    {
      currentUsage := currentUsage - bytes;
    }

    method AccumulateIfNotExceedingLimit(bytes: nat) returns (ok: bool)
      requires Valid()
      modifies this
      ensures Valid() && (ok <==> old(currentUsage) + bytes <= threshold)
      ensures currentUsage == old(currentUsage) + if ok then bytes else 0
    {
      if currentUsage + bytes > threshold {
        ok := false;
      } else {
        ok := true;
        currentUsage := currentUsage + bytes;
      }
    }
  }
}
