/** The process queues: a slice of processes that grows at the back and
    loses one element at a given index. Go declares two structurally
    identical types, `ProcessQueueArrivalOrder` and `ProcessQueue`; both are
    this class. */
module Queues {
  import opened Processes

  /** The sequence with the element at `index` cut out. */
  function RemoveAt(s: seq<Process>, index: int): (r: seq<Process>)
    requires 0 <= index < |s|
    ensures |r| == |s| - 1
    ensures forall k :: 0 <= k < index ==> r[k] == s[k]
    ensures forall k :: index <= k < |r| ==> r[k] == s[k + 1]
    ensures multiset(r) + multiset{s[index]} == multiset(s)
  {
    assert s == s[..index] + [s[index]] + s[index + 1..];
    s[..index] + s[index + 1..]
  }

  class ProcessQueue {
    var processes: seq<Process>

    constructor ()
      ensures processes == []
    {
      processes := [];
    }

    /** `AddProcess`: `p` goes to the back, everything before it stays. */
    method AddProcess(p: Process)
      modifies this
      ensures processes == old(processes) + [p]
      ensures |processes| == |old(processes)| + 1 && processes[|processes| - 1] == p
    {
      processes := processes + [p];
    }

    /** `RemoveProcess`: exactly the element at `index` leaves; the others keep
        their relative order. An index out of range is a run-time panic in
        Go, so it is the caller's obligation. */
    method RemoveProcess(index: int)
      requires 0 <= index < |processes|
      modifies this
      ensures processes == RemoveAt(old(processes), index)
      ensures multiset(processes) + multiset{old(processes)[index]} == multiset(old(processes))
    {
      processes := processes[..index] + processes[index + 1..];
    }
  }
}
