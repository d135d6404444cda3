/** The tick-stepped preemptive engine behind shortest-job-first (ordered by
    remaining time) and priority scheduling: the two Go functions differ
    only in the sort they apply to the ready queue, so here they are one
    method parameterised by an `Order`. */
module Preemptive {
  import opened Processes
  import opened Ordering
  import opened Queues

  /** The working copy the engine makes of an input process. */
  function WorkingCopy(p: Process): (c: Process)
    ensures Describe(c) == Describe(p) && c.remaining == p.burst
  {
    p.(remaining := p.burst)
  }

  function WorkingCopies(s: seq<Process>): (c: seq<Process>)
    ensures |c| == |s| && forall i :: 0 <= i < |s| ==> c[i] == WorkingCopy(s[i])
  {
    seq(|s|, i requires 0 <= i < |s| => WorkingCopy(s[i]))
  }

  /** The engine's state at the top of an iteration: the ready queue `pq`,
      the running working copy `process`, the pending queue `pqA`, every
      process admitted so far, the rows written so far and `currentTime`.
      While `running.remaining > 0`, `ready[0]` is a stale copy of the
      running process; once it reaches 0 the running process has finished
      and `ready[0]` is the next to run. */
  datatype Engine = Engine(
    ready: seq<Process>,
    running: Process,
    pending: seq<Process>,
    admitted: seq<Process>,
    rows: seq<Row>,
    now: int)

  ghost predicate WellFormed(e: Engine) {
    e.running.remaining >= 0 && (e.running.remaining > 0 ==> |e.ready| > 0)
  }

  /** Ticks of work still owed to the admitted processes. */
  function Work(e: Engine): int
    requires WellFormed(e)
  {
    if e.running.remaining > 0 then SumOf(e.ready[1..], RemainingOf) + e.running.remaining
    else SumOf(e.ready, RemainingOf)
  }

  /** The ready processes that are not running. */
  function Waiting(e: Engine): seq<Process>
    requires WellFormed(e)
  {
    if e.running.remaining > 0 then e.ready[1..] else e.ready
  }

  /** A process that arrived no later than `slack` ticks after it was due
      and has had `burst - remaining` ticks of work since. */
  ghost predicate Punctual(p: Process, now: int, slack: int) {
    p.arrival + p.burst - p.remaining <= now + slack
  }

  /** What each row of the table promises. */
  ghost predicate RowsHold(rows: seq<Row>, now: int, slack: int) {
    && (forall k :: 0 <= k < |rows| ==>
         rows[k].turnaround == rows[k].completion - rows[k].arrival
         && rows[k].wait == rows[k].turnaround - rows[k].burst
         && 0 < rows[k].completion <= now
         && rows[k].wait >= -slack)
    && (forall i, j :: 0 <= i < j < |rows| ==> rows[i].completion < rows[j].completion)
  }

  /** The shape of the two queues and the order the ready queue is kept in. */
  ghost predicate QueueInv(o: Order, e: Engine) {
    && WellFormed(e)
    && e.now >= 0
    && (e.running.remaining > 0 ==> Describe(e.running) == Describe(e.ready[0]))
    && (forall p :: p in e.ready ==> p.remaining > 0)
    && (forall p :: p in e.pending ==> p.remaining == p.burst > 0)
    // the running process is never preceded by a waiting one
    && (|e.ready| > 0 ==> Sorted(o, e.ready[1..]))
    && (e.running.remaining > 0 ==> forall k :: 1 <= k < |e.ready| ==> !Less(o, e.ready[k], e.running))
    && (e.running.remaining == 0 ==> Sorted(o, e.ready))
  }

  /** The accounts: where every input process is and how much work is owed. */
  ghost predicate BookInv(e: Engine, copies: seq<Process>) {
    && WellFormed(e)
    // one tick per unit of work done on an admitted process
    && e.now + Work(e) == BurstSum(e.admitted)
    && multiset(e.admitted) + multiset(e.pending) == multiset(copies)
    // every admitted process is either reported or still ready
    && |e.admitted| == |e.rows| + |e.ready|
    && multiset(RowDescriptors(e.rows)) + multiset(Descriptors(e.ready)) == multiset(Descriptors(e.admitted))
  }

  /** The timing facts behind the rows of the table. */
  ghost predicate TimeInv(e: Engine, slack: int) {
    && WellFormed(e)
    && slack >= 0
    && (forall p :: p in Waiting(e) ==> Punctual(p, e.now, slack))
    && (e.running.remaining > 0 ==> Punctual(e.running, e.now, slack))
    && RowsHold(e.rows, e.now, slack)
    && (e.running.remaining == 0 ==>
         |e.rows| > 0 && e.running.complete == e.now && e.rows[|e.rows| - 1].completion == e.now)
  }

  ghost predicate Inv(o: Order, e: Engine, copies: seq<Process>, slack: int) {
    QueueInv(o, e) && BookInv(e, copies) && TimeInv(e, slack)
  }

  /** The process that runs during the next tick, after its decrement. */
  function Run(e: Engine): Process
    requires WellFormed(e) && |e.ready| > 0
  {
    var p := if e.running.remaining == 0 then e.ready[0] else e.running;
    p.(remaining := p.remaining - 1)
  }

  /** The metrics a process gets when it finishes at `t`. */
  function Completed(p: Process, t: int): (c: Process)
    ensures Describe(c) == Describe(p) && c.remaining == p.remaining && c.complete == t
    ensures c.turnaround == c.complete - c.arrival && c.wait == c.turnaround - c.burst
  {
    p.(complete := t, turnaround := t - p.arrival, wait := t - p.arrival - p.burst)
  }

  /** The table row of a finished process: its descriptor and its metrics. */
  function RowOf(p: Process): (r: Row)
    ensures DescribeRow(r) == Describe(p)
    ensures r.wait == p.wait && r.turnaround == p.turnaround && r.completion == p.complete
  {
    Row(p.id, p.priority, p.burst, p.arrival, p.wait, p.turnaround, p.complete)
  }

  /** The tick on which the running process finishes. */
  function AfterCompletion(e: Engine): Engine
    requires WellFormed(e) && |e.ready| > 0
  {
    var done := Completed(Run(e), e.now + 1);
    Engine(e.ready[1..], done, e.pending, e.admitted, e.rows + [RowOf(done)], e.now + 1)
  }

  /** A tick with neither a completion nor an arrival. */
  function AfterContinue(e: Engine): Engine
    requires WellFormed(e) && |e.ready| > 0
  {
    Engine(e.ready, Run(e), e.pending, e.admitted, e.rows, e.now + 1)
  }

  /** `r` is the ready queue after pending process `i` is admitted: the
      waiting processes, the newcomer and the process that just ran, put in
      order by the sort. Any sorted arrangement qualifies, so the model does
      not depend on how the sort breaks ties. */
  ghost predicate Resorted(o: Order, e: Engine, i: int, r: seq<Process>) {
    && WellFormed(e) && |e.ready| > 0 && 0 <= i < |e.pending|
    && Sorted(o, r)
    && multiset(r) == multiset(e.ready[1..] + [e.pending[i]] + [Run(e)])
  }

  /** A tick on which pending process `i` is admitted and the head of the
      re-sorted ready queue `r` becomes the running process. */
  function AfterAdmission(e: Engine, i: int, r: seq<Process>): Engine
    requires 0 <= i < |e.pending| && |r| > 0
  {
    Engine(r, r[0], RemoveAt(e.pending, i), e.admitted + [e.pending[i]], e.rows, e.now + 1)
  }

  /** Process `i` is the first pending process that arrives at `t`. */
  ghost predicate FirstArrival(pending: seq<Process>, i: int, t: int) {
    0 <= i < |pending| && pending[i].arrival == t && forall k :: 0 <= k < i ==> pending[k].arrival != t
  }

  ghost predicate NoArrival(pending: seq<Process>, t: int) {
    forall k :: 0 <= k < |pending| ==> pending[k].arrival != t
  }

  /** One tick of the engine takes `e` to `e'`: the running process does one
      unit of work; if that finishes it, it is reported and nothing is
      admitted; otherwise the first pending process arriving on this tick,
      if any, is admitted and the ready queue re-sorted. */
  ghost predicate Stepped(o: Order, e: Engine, e': Engine) {
    && WellFormed(e) && |e.ready| > 0
    && if Run(e).remaining == 0 then e' == AfterCompletion(e)
       else if NoArrival(e.pending, e.now + 1) then e' == AfterContinue(e)
       else exists i, r :: FirstArrival(e.pending, i, e.now + 1) && Resorted(o, e, i, r) && |r| > 0
                          && e' == AfterAdmission(e, i, r)
  }

  lemma DescriptorsFront(s: seq<Process>)
    requires s != []
    ensures multiset(Descriptors(s)) == multiset{Describe(s[0])} + multiset(Descriptors(s[1..]))
  {
    assert s == [s[0]] + s[1..];
    DescriptorsConcat([s[0]], s[1..]);
    assert Descriptors([s[0]]) == [Describe(s[0])];
  }

  lemma SortedTail(o: Order, s: seq<Process>)
    requires Sorted(o, s) && s != []
    ensures Sorted(o, s[1..])
  {
    forall i, j | 0 <= i < j < |s[1..]|
      ensures !Less(o, s[1..][j], s[1..][i])
    {
      assert s[1..][j] == s[j + 1] && s[1..][i] == s[i + 1];
    }
  }

  /** Facts shared by the three kinds of tick: who runs and what it owes. */
  lemma RunFacts(o: Order, e: Engine, copies: seq<Process>, slack: int)
    requires Inv(o, e, copies, slack) && |e.ready| > 0
    ensures Run(e).remaining >= 0
    ensures Describe(Run(e)) == Describe(e.ready[0])
    ensures Work(e) == SumOf(e.ready[1..], RemainingOf) + Run(e).remaining + 1
    ensures Punctual(Run(e), e.now + 1, slack)
    ensures forall k :: 1 <= k < |e.ready| ==> !Less(o, e.ready[k], Run(e))
    ensures forall p :: p in e.ready[1..] ==> Punctual(p, e.now, slack)
  {
    SumOfFront(e.ready, RemainingOf);
    assert e.ready[0] in e.ready;
    if e.running.remaining == 0 {
      assert Waiting(e) == e.ready;
      assert Punctual(e.ready[0], e.now, slack);
      forall k | 1 <= k < |e.ready|
        ensures !Less(o, e.ready[k], Run(e))
      {
        DecrementKeepsPlace(o, e.ready[k], e.ready[0]);
      }
      forall p | p in e.ready[1..]
        ensures Punctual(p, e.now, slack)
      {
        assert p in e.ready;
      }
    } else {
      forall k | 1 <= k < |e.ready|
        ensures !Less(o, e.ready[k], Run(e))
      {
        DecrementKeepsPlace(o, e.ready[k], e.running);
      }
    }
  }

  lemma CompletionQueue(o: Order, e: Engine, e': Engine)
    requires QueueInv(o, e) && |e.ready| > 0 && Run(e).remaining == 0 && e' == AfterCompletion(e)
    ensures QueueInv(o, e')
  {
    assert forall p :: p in e.ready[1..] ==> p in e.ready;
    if e.running.remaining == 0 {
      SortedTail(o, e.ready);
    }
    if |e.ready| > 1 {
      SortedTail(o, e.ready[1..]);
    }
  }

  lemma CompletionBooks(e: Engine, e': Engine, copies: seq<Process>)
    requires BookInv(e, copies) && |e.ready| > 0 && Run(e).remaining == 0 && e' == AfterCompletion(e)
    requires Work(e) == SumOf(e.ready[1..], RemainingOf) + 1
    requires Describe(Run(e)) == Describe(e.ready[0])
    ensures BookInv(e', copies) && Work(e') == Work(e) - 1
  {
    DescriptorsFront(e.ready);
    assert RowDescriptors(e'.rows) == RowDescriptors(e.rows) + [Describe(e.ready[0])];
  }

  lemma CompletionTime(e: Engine, e': Engine, slack: int)
    requires TimeInv(e, slack) && |e.ready| > 0 && Run(e).remaining == 0 && e' == AfterCompletion(e)
    requires Punctual(Run(e), e.now + 1, slack) && e.now >= 0
    requires forall p :: p in e.ready[1..] ==> Punctual(p, e.now, slack)
    ensures TimeInv(e', slack)
  {
    assert e'.rows[|e'.rows| - 1] == RowOf(e'.running);
    assert RowsHold(e'.rows, e'.now, slack) by {
      forall k | 0 <= k < |e'.rows|
        ensures e'.rows[k].wait >= -slack && 0 < e'.rows[k].completion <= e'.now
      {
        if k < |e.rows| {
          assert e'.rows[k] == e.rows[k];
        }
      }
    }
  }

  /** The tick on which the running process finishes keeps the invariant. */
  lemma CompletionStep(o: Order, e: Engine, e': Engine, copies: seq<Process>, slack: int)
    requires Inv(o, e, copies, slack) && |e.ready| > 0 && Run(e).remaining == 0 && e' == AfterCompletion(e)
    ensures Inv(o, e', copies, slack)
    ensures Measure(e') == Measure(e) - 1
    ensures e'.admitted == e.admitted && e'.running.remaining == 0
  {
    RunFacts(o, e, copies, slack);
    CompletionQueue(o, e, e');
    CompletionBooks(e, e', copies);
    CompletionTime(e, e', slack);
  }

  /** A tick with neither a completion nor an arrival keeps the invariant. */
  lemma ContinueStep(o: Order, e: Engine, e': Engine, copies: seq<Process>, slack: int)
    requires Inv(o, e, copies, slack) && |e.ready| > 0 && Run(e).remaining > 0 && e' == AfterContinue(e)
    ensures Inv(o, e', copies, slack)
    ensures Measure(e') == Measure(e) - 1
    ensures e'.admitted == e.admitted && forall k :: 1 <= k < |e'.ready| ==> !Less(o, e'.ready[k], e'.running)
  {
    RunFacts(o, e, copies, slack);
  }

  /** Re-sorting the waiting processes with the newcomer and the process
      that just ran keeps exactly those processes. */
  lemma ResortedMembers(rest: seq<Process>, p: Process, run: Process, r: seq<Process>)
    requires multiset(r) == multiset(rest + [p] + [run])
    ensures |r| == |rest| + 2
    ensures forall q :: q in r ==> q in rest || q == p || q == run
  {
    var joined := rest + [p] + [run];
    assert |r| == |multiset(r)| == |multiset(joined)|;
    forall q | q in r
      ensures q in rest || q == p || q == run
    {
      assert q in multiset(joined);
    }
  }

  /** ... and owes as much work as they did. */
  lemma ResortedWork(rest: seq<Process>, p: Process, run: Process, r: seq<Process>)
    requires multiset(r) == multiset(rest + [p] + [run])
    ensures |r| > 0
    ensures SumOf(r[1..], RemainingOf) + r[0].remaining
         == SumOf(rest, RemainingOf) + p.remaining + run.remaining
  {
    var joined := rest + [p] + [run];
    assert |r| == |multiset(r)| == |multiset(joined)|;
    SumOfFront(r, RemainingOf);
    SumOfPermutation(r, joined, RemainingOf);
    SumOfSnoc(rest + [p], run, RemainingOf);
    SumOfSnoc(rest, p, RemainingOf);
  }

  /** ... and describes the old ready queue plus the newcomer, when the
      process that just ran is the one at the head of the old queue. */
  lemma ResortedDescriptors(ready: seq<Process>, p: Process, run: Process, r: seq<Process>)
    requires ready != [] && Describe(run) == Describe(ready[0])
    requires multiset(r) == multiset(ready[1..] + [p] + [run])
    ensures multiset(Descriptors(r)) == multiset(Descriptors(ready)) + multiset{Describe(p)}
  {
    var joined := ready[1..] + [p] + [run];
    DescriptorsPermutation(r, joined);
    DescriptorsConcat(ready[1..] + [p], [run]);
    DescriptorsConcat(ready[1..], [p]);
    DescriptorsFront(ready);
    assert Descriptors([p]) == [Describe(p)] && Descriptors([run]) == [Describe(run)];
  }

  /** Cutting one element out of a sorted queue leaves it sorted. */
  lemma SortedRemoveAt(o: Order, s: seq<Process>, i: int)
    requires Sorted(o, s) && 0 <= i < |s|
    ensures Sorted(o, RemoveAt(s, i))
  {
    var r := RemoveAt(s, i);
    forall a, b | 0 <= a < b < |r|
      ensures !Less(o, r[b], r[a])
    {
      var a', b' := if a < i then a else a + 1, if b < i then b else b + 1;
      assert r[a] == s[a'] && r[b] == s[b'];
    }
  }

  /** Because the arrival queue is sorted by arrival and then burst, the
      first process found arriving at `t` has the shortest burst of all
      those arriving at `t`. */
  lemma FirstArrivalIsShortest(pending: seq<Process>, i: int, t: int)
    requires Sorted(ArrivalOrder, pending) && FirstArrival(pending, i, t)
    ensures forall k :: 0 <= k < |pending| && pending[k].arrival == t ==> pending[i].burst <= pending[k].burst
  {
    forall k | 0 <= k < |pending| && pending[k].arrival == t
      ensures pending[i].burst <= pending[k].burst
    {
      if k > i {
        assert !Less(ArrivalOrder, pending[k], pending[i]);
      }
    }
  }

  lemma PendingWithout(pending: seq<Process>, i: int)
    requires 0 <= i < |pending|
    ensures BurstSum(RemoveAt(pending, i)) == BurstSum(pending) - pending[i].burst
    ensures forall q :: q in RemoveAt(pending, i) ==> q in pending
  {
    var rest := RemoveAt(pending, i);
    SumOfSnoc(rest, pending[i], BurstOf);
    SumOfPermutation(rest + [pending[i]], pending, BurstOf);
    forall q | q in rest
      ensures q in pending
    {
      assert q in multiset(rest);
    }
  }

  lemma AdmissionQueue(o: Order, e: Engine, i: int, r: seq<Process>, e': Engine)
    requires QueueInv(o, e) && Resorted(o, e, i, r) && Run(e).remaining > 0
    requires |r| > 0 && e' == AfterAdmission(e, i, r)
    ensures QueueInv(o, e')
  {
    var p, run := e.pending[i], Run(e);
    assert p in e.pending;
    ResortedMembers(e.ready[1..], p, run, r);
    PendingWithout(e.pending, i);
    assert forall q :: q in e.ready[1..] ==> q in e.ready;
    SortedTail(o, r);
    assert r[0] in r;
  }

  lemma AdmissionBooks(e: Engine, i: int, r: seq<Process>, e': Engine, copies: seq<Process>)
    requires BookInv(e, copies) && |e.ready| > 0 && 0 <= i < |e.pending| && |r| > 0 && e' == AfterAdmission(e, i, r)
    requires multiset(r) == multiset(e.ready[1..] + [e.pending[i]] + [Run(e)])
    requires Work(e) == SumOf(e.ready[1..], RemainingOf) + Run(e).remaining + 1
    requires Describe(Run(e)) == Describe(e.ready[0])
    requires e.pending[i].remaining == e.pending[i].burst && r[0].remaining > 0
    ensures BookInv(e', copies)
    ensures Work(e') == Work(e) - 1 + e.pending[i].burst
  {
    var p, run := e.pending[i], Run(e);
    ResortedMembers(e.ready[1..], p, run, r);
    ResortedWork(e.ready[1..], p, run, r);
    ResortedDescriptors(e.ready, p, run, r);
    SumOfSnoc(e.admitted, p, BurstOf);
    DescriptorsConcat(e.admitted, [p]);
    assert multiset(e'.admitted) == multiset(e.admitted) + multiset{p};
    assert multiset(e'.pending) + multiset{p} == multiset(e.pending);
    assert Work(e') == SumOf(r[1..], RemainingOf) + r[0].remaining;
    assert Descriptors(e'.admitted) == Descriptors(e.admitted) + [Describe(p)];
  }

  lemma AdmissionTime(e: Engine, i: int, r: seq<Process>, e': Engine, slack: int)
    requires TimeInv(e, slack) && |e.ready| > 0 && 0 <= i < |e.pending| && |r| > 0 && e' == AfterAdmission(e, i, r)
    requires multiset(r) == multiset(e.ready[1..] + [e.pending[i]] + [Run(e)])
    requires r[0].remaining > 0
    requires Punctual(Run(e), e.now + 1, slack)
    requires forall q :: q in e.ready[1..] ==> Punctual(q, e.now, slack)
    requires e.pending[i].arrival == e.now + 1 && e.pending[i].remaining == e.pending[i].burst
    ensures TimeInv(e', slack)
  {
    ResortedMembers(e.ready[1..], e.pending[i], Run(e), r);
    forall q | q in r
      ensures Punctual(q, e.now + 1, slack)
    {
    }
    forall q | q in r[1..]
      ensures Punctual(q, e.now + 1, slack)
    {
      assert q in r;
    }
    assert r[0] in r;
  }

  /** A tick on which a pending process arrives and is admitted keeps the invariant. */
  lemma AdmissionStep(o: Order, e: Engine, i: int, r: seq<Process>, e': Engine, copies: seq<Process>, slack: int)
    requires Inv(o, e, copies, slack) && |e.ready| > 0 && Run(e).remaining > 0
    requires Resorted(o, e, i, r) && e.pending[i].arrival == e.now + 1
    requires |r| > 0 && e' == AfterAdmission(e, i, r)
    ensures Inv(o, e', copies, slack)
    ensures Measure(e') == Measure(e) - 1
    ensures e'.admitted == e.admitted + [e.pending[i]] && e.pending[i].arrival == e'.now
    ensures |e'.admitted| == |e.admitted| + 1 && e'.admitted[..|e.admitted|] == e.admitted
    ensures e'.running.remaining > 0 && forall k :: 1 <= k < |e'.ready| ==> !Less(o, e'.ready[k], e'.running)
  {
    RunFacts(o, e, copies, slack);
    assert e.pending[i] in e.pending;
    AdmissionQueue(o, e, i, r, e');
    assert r[0].remaining > 0 by {
      assert r[0] in r;
    }
    AdmissionBooks(e, i, r, e', copies);
    AdmissionTime(e, i, r, e', slack);
    PendingWithout(e.pending, i);
    SortedTail(o, r);
    assert e'.admitted[..|e.admitted|] == e.admitted;
  }

  /** A pending process that arrives at `time`, the first in queue order:
      the search of the `for i, p := range pqA.processes` loop. */
  method FirstArrivalAt(pending: seq<Process>, time: int) returns (found: bool, index: int)
    ensures found ==> 0 <= index < |pending| && pending[index].arrival == time
    ensures found ==> forall k :: 0 <= k < index ==> pending[k].arrival != time
    ensures !found ==> forall k :: 0 <= k < |pending| ==> pending[k].arrival != time
  {
    index := 0;
    while index < |pending|
      invariant 0 <= index <= |pending|
      invariant forall k :: 0 <= k < index ==> pending[k].arrival != time
    {
      if pending[index].arrival == time {
        return true, index;
      }
      index := index + 1;
    }
    found := false;
  }

  /** The in-place sort of a queue by `o`: `sortArrivalQueue`,
      `sortDeployQueue` or `sortPriorityQueue`. */
  method SortQueue(o: Order, s: seq<Process>) returns (r: seq<Process>)
    ensures Sorted(o, r) && multiset(r) == multiset(s)
  {
    match o
    case ArrivalOrder => r := SortArrivalQueue(s);
    case DeployOrder => r := SortDeployQueue(s);
    case PriorityOrder => r := SortPriorityQueue(s);
  }

  /** Work still owed plus work not yet admitted: what the engine's loop
      consumes one unit of per tick. */
  function Measure(e: Engine): int
    requires WellFormed(e)
  {
    Work(e) + BurstSum(e.pending)
  }

  lemma MeasureBounded(o: Order, e: Engine)
    requires QueueInv(o, e)
    ensures Measure(e) >= 0
  {
    SumOfNonnegative(e.pending, BurstOf);
    SumOfNonnegative(e.ready, RemainingOf);
    if e.running.remaining > 0 {
      assert forall q :: q in e.ready[1..] ==> q in e.ready;
      SumOfNonnegative(e.ready[1..], RemainingOf);
    }
  }

  /** The head of the arrival-sorted working copies is no later than any input. */
  lemma FirstIsEarliest(processes: seq<Process>, sorted: seq<Process>)
    requires multiset(sorted) == multiset(WorkingCopies(processes)) && |sorted| > 0
    requires Sorted(ArrivalOrder, sorted)
    ensures sorted[0] in WorkingCopies(processes)
    ensures forall k :: 0 <= k < |processes| ==> !ArrivalLess(processes[k], sorted[0])
    ensures forall k :: 0 <= k < |processes| ==> sorted[0].arrival <= processes[k].arrival
  {
    assert sorted[0] in multiset(sorted);
    forall k | 0 <= k < |processes|
      ensures !ArrivalLess(processes[k], sorted[0])
    {
      var c := WorkingCopies(processes)[k];
      assert c in multiset(sorted);
      var j :| 0 <= j < |sorted| && sorted[j] == c;
    }
  }

  /** The set-up before the engine's loop: working copies of the inputs
      sorted by arrival, the earliest moved to the ready queue and made the
      running process. */
  method LoadQueues(processes: seq<Process>) returns (pqA: ProcessQueue, pq: ProcessQueue, process: Process)
    requires |processes| > 0
    requires forall k :: 0 <= k < |processes| ==> processes[k].burst > 0
    ensures fresh(pqA) && fresh(pq) && pqA != pq
    ensures pq.processes == [process]
    ensures multiset(pqA.processes) + multiset{process} == multiset(WorkingCopies(processes))
    ensures forall k :: 0 <= k < |processes| ==> !ArrivalLess(processes[k], process)
    ensures process.remaining == process.burst > 0
    ensures forall q :: q in pqA.processes ==> q.remaining == q.burst > 0
    // the arrival queue is left sorted by arrival, then burst
    ensures Sorted(ArrivalOrder, pqA.processes)
  {
    ghost var copies := WorkingCopies(processes);
    pqA := new ProcessQueue();
    for k := 0 to |processes|
      invariant pqA.processes == copies[..k]
    {
      var p := processes[k];
      p := p.(remaining := p.burst);
      pqA.AddProcess(p);
      assert copies[..k + 1] == copies[..k] + [copies[k]];
    }
    assert copies[..|processes|] == copies;
    pqA.processes := SortQueue(ArrivalOrder, pqA.processes);
    FirstIsEarliest(processes, pqA.processes);
    process := pqA.processes[0];
    SortedRemoveAt(ArrivalOrder, pqA.processes, 0);
    pqA.RemoveProcess(0);
    pq := new ProcessQueue();
    pq.AddProcess(process);
    forall q | q in pqA.processes
      ensures q.remaining == q.burst > 0
    {
      assert q in multiset(copies);
    }
    assert process in copies;
  }

  /** The state the loop starts from satisfies the invariant. */
  lemma InitialInv(o: Order, first: Process, pending: seq<Process>, copies: seq<Process>)
    requires first.remaining == first.burst > 0
    requires forall q :: q in pending ==> q.remaining == q.burst > 0
    requires multiset(pending) + multiset{first} == multiset(copies)
    ensures Inv(o, Engine([first], first, pending, [first], [], 0), copies, Max0(first.arrival))
  {
    var e := Engine([first], first, pending, [first], [], 0);
    assert [first][1..] == [];
    assert SumOf([first], BurstOf) == first.burst by {
      assert [first][..0] == [];
    }
    assert Descriptors([first]) == [Describe(first)];
  }

  /** What the engine's table and totals say about one run. */
  ghost predicate ReportedRows(processes: seq<Process>, schedule: seq<Row>,
                               totalWait: int, totalTurnaround: int, lastCompletion: int)
  {
    && 0 < |schedule| <= |processes|
    // each row's metrics are tied to its completion tick
    && (forall k :: 0 <= k < |schedule| ==>
         schedule[k].turnaround == schedule[k].completion - schedule[k].arrival
         && schedule[k].wait == schedule[k].turnaround - schedule[k].burst
         && 0 < schedule[k].completion)
    // rows are written in order of completion, one process per tick at most
    && (forall i, j :: 0 <= i < j < |schedule| ==> schedule[i].completion < schedule[j].completion)
    && lastCompletion == schedule[|schedule| - 1].completion
    // the clock starts at 0, so a wait can be negative only when no input arrives at 0 or earlier
    && ((exists k :: 0 <= k < |processes| && processes[k].arrival <= 0) ==>
         forall k :: 0 <= k < |schedule| ==> schedule[k].wait >= 0)
    && totalWait == WaitTotal(schedule)
    && totalTurnaround == TurnaroundTotal(schedule)
  }

  /** Which processes the table reports. `admitted` lists the working copies
      in the order they entered the ready queue and `leftOver` those still
      pending when the ready queue ran dry. */
  ghost predicate ReportedAdmissions(processes: seq<Process>, schedule: seq<Row>, lastCompletion: int,
                                     admitted: seq<Process>, leftOver: seq<Process>)
  {
    // the CPU never idles: the last completion is the total work admitted
    && lastCompletion == BurstSum(admitted)
    // every input is admitted or left over, never both, never twice
    && multiset(admitted) + multiset(leftOver) == multiset(WorkingCopies(processes))
    // the rows describe exactly the admitted processes
    && multiset(RowDescriptors(schedule)) == multiset(Descriptors(admitted))
    // the first process admitted is the earliest arrival
    && |admitted| > 0
    && (forall k :: 0 <= k < |processes| ==> !ArrivalLess(processes[k], admitted[0]))
    // no wait is below minus the first arrival
    && (forall k :: 0 <= k < |schedule| ==> schedule[k].wait >= -Max0(admitted[0].arrival))
  }

  /** When the ready queue is empty, the invariant is the engine's report. */
  lemma Finished(o: Order, e: Engine, processes: seq<Process>, totalWait: int, totalTurnaround: int)
    requires |e.admitted| > 0
    requires Inv(o, e, WorkingCopies(processes), Max0(e.admitted[0].arrival)) && |e.ready| == 0
    requires forall k :: 0 <= k < |processes| ==> !ArrivalLess(processes[k], e.admitted[0])
    requires totalWait == WaitTotal(e.rows) && totalTurnaround == TurnaroundTotal(e.rows)
    ensures ReportedRows(processes, e.rows, totalWait, totalTurnaround, e.running.complete)
    ensures ReportedAdmissions(processes, e.rows, e.running.complete, e.admitted, e.pending)
  {
    assert |e.admitted| + |e.pending| == |processes| by {
      assert |multiset(e.admitted) + multiset(e.pending)| == |multiset(WorkingCopies(processes))|;
    }
    assert Descriptors(e.ready) == [];
    if exists k :: 0 <= k < |processes| && processes[k].arrival <= 0 {
      var k :| 0 <= k < |processes| && processes[k].arrival <= 0;
      assert Max0(e.admitted[0].arrival) == 0;
    }
  }

  function Max0(x: int): int { if x < 0 then 0 else x }

  /** The completion half of a tick: `run`, which has just done its last
      unit of work, gets its metrics and its row, and leaves the ready queue. */
  method Retire(pq: ProcessQueue, run: Process, currentTime: int,
                schedule: seq<Row>, totalWait: int, totalTurnaround: int, ghost e: Engine)
    returns (done: Process, schedule': seq<Row>, totalWait': int, totalTurnaround': int)
    requires WellFormed(e) && |e.ready| > 0 && e.ready == pq.processes && e.rows == schedule
    requires run == Run(e) && currentTime == e.now + 1
    requires totalWait == WaitTotal(schedule) && totalTurnaround == TurnaroundTotal(schedule)
    modifies pq
    ensures AfterCompletion(e) == Engine(pq.processes, done, e.pending, e.admitted, schedule', currentTime)
    ensures totalWait' == WaitTotal(schedule') && totalTurnaround' == TurnaroundTotal(schedule')
  {
    done := run.(complete := currentTime);
    done := done.(turnaround := done.complete - done.arrival);
    done := done.(wait := done.turnaround - done.burst);
    totalWait' := totalWait + done.wait;
    totalTurnaround' := totalTurnaround + done.turnaround;
    var row := Row(done.id, done.priority, done.burst, done.arrival,
                   done.wait, done.turnaround, done.complete);
    SumOfSnoc(schedule, row, WaitOf);
    SumOfSnoc(schedule, row, TurnaroundOf);
    schedule' := schedule + [row];
    pq.RemoveProcess(0);
    assert pq.processes == e.ready[1..];
  }

  /** The admission half of a tick: pending process `i` replaces the stale
      head of the ready queue, `run` goes in behind it, and the head of the
      re-sorted queue is the next to run. */
  method Admit(order: Order, pq: ProcessQueue, pqA: ProcessQueue, run: Process, i: int, ghost e: Engine)
    returns (next: Process)
    requires pq != pqA && WellFormed(e) && |e.ready| > 0
    requires e.ready == pq.processes && e.pending == pqA.processes && run == Run(e)
    requires 0 <= i < |pqA.processes|
    modifies pq, pqA
    ensures Resorted(order, e, i, pq.processes) && |pq.processes| > 0
    ensures next == pq.processes[0] && pqA.processes == RemoveAt(e.pending, i)
  {
    var p := pqA.processes[i];
    pq.RemoveProcess(0);
    pq.AddProcess(p);
    pq.AddProcess(run);
    pqA.RemoveProcess(i);
    assert pq.processes == e.ready[1..] + [e.pending[i]] + [Run(e)];
    pq.processes := SortQueue(order, pq.processes);
    assert |pq.processes| > 0 by {
      assert |multiset(pq.processes)| > 0;
    }
    next := pq.processes[0];
  }

  /** `e` is the engine state the queues, `process`, `currentTime` and `schedule` make up. */
  ghost predicate Holds(e: Engine, pq: ProcessQueue, pqA: ProcessQueue, process: Process, currentTime: int,
                        schedule: seq<Row>)
    reads pq, pqA
  {
    e.ready == pq.processes && e.running == process && e.pending == pqA.processes
    && e.rows == schedule && e.now == currentTime
  }

  /** One iteration of the engine's loop, on the state `e` the queues,
      `process`, `currentTime` and `schedule` make up: one tick of the engine. */
  method Tick(order: Order, pq: ProcessQueue, pqA: ProcessQueue, process: Process, currentTime: int,
              schedule: seq<Row>, totalWait: int, totalTurnaround: int, ghost e: Engine)
    returns (process': Process, currentTime': int, schedule': seq<Row>, totalWait': int, totalTurnaround': int,
             ghost e': Engine)
    requires pq != pqA && |pq.processes| > 0
    requires Holds(e, pq, pqA, process, currentTime, schedule) && WellFormed(e)
    requires totalWait == WaitTotal(schedule) && totalTurnaround == TurnaroundTotal(schedule)
    modifies pq, pqA
    ensures Holds(e', pq, pqA, process', currentTime', schedule') && Stepped(order, e, e')
    ensures totalWait' == WaitTotal(schedule') && totalTurnaround' == TurnaroundTotal(schedule')
    ensures currentTime' == currentTime + 1
  {
    schedule', totalWait', totalTurnaround' := schedule, totalWait, totalTurnaround;
    if process.remaining == 0 {
      process' := pq.processes[0];
      process' := process'.(remaining := process'.remaining - 1);
    } else {
      process' := process.(remaining := process.remaining - 1);
    }
    currentTime' := currentTime + 1;
    if process'.remaining == 0 {
      process', schedule', totalWait', totalTurnaround' :=
        Retire(pq, process', currentTime', schedule, totalWait, totalTurnaround, e);
      e' := AfterCompletion(e);
      return;
    }
    var found, i := FirstArrivalAt(pqA.processes, currentTime');
    if found {
      process' := Admit(order, pq, pqA, process', i, e);
      e' := AfterAdmission(e, i, pq.processes);
      assert FirstArrival(e.pending, i, e.now + 1);
    } else {
      e' := AfterContinue(e);
    }
  }

  /** Every tick keeps the invariant and does exactly one unit of work; at
      most one process is admitted, it arrives on that tick and none is
      admitted on a completion tick; and the process that runs next is not
      preceded by any waiting one. */
  lemma TickKeeps(o: Order, e: Engine, e': Engine, copies: seq<Process>, slack: int)
    requires Inv(o, e, copies, slack) && Stepped(o, e, e')
    ensures Inv(o, e', copies, slack)
    ensures e'.now == e.now + 1
    ensures Measure(e') == Measure(e) - 1
    ensures e'.admitted == e.admitted || (|e'.admitted| == |e.admitted| + 1 && e'.admitted[..|e.admitted|] == e.admitted
                                          && e'.admitted[|e.admitted|].arrival == e'.now
                                          && e'.running.remaining > 0)
    ensures e'.running.remaining > 0 ==> forall k :: 1 <= k < |e'.ready| ==> !Less(o, e'.ready[k], e'.running)
  {
    if Run(e).remaining == 0 {
      CompletionTick(o, e, e', copies, slack);
    } else if NoArrival(e.pending, e.now + 1) {
      ContinueTick(o, e, e', copies, slack);
    } else {
      AdmissionTick(o, e, e', copies, slack);
    }
  }

  /** The three kinds of tick: a completion, a plain tick, an admission. */
  lemma CompletionTick(o: Order, e: Engine, e': Engine, copies: seq<Process>, slack: int)
    requires Inv(o, e, copies, slack) && Stepped(o, e, e') && Run(e).remaining == 0
    ensures Inv(o, e', copies, slack) && e'.now == e.now + 1 && Measure(e') == Measure(e) - 1
    ensures e'.admitted == e.admitted && e'.running.remaining == 0
  {
    CompletionStep(o, e, e', copies, slack);
  }

  lemma ContinueTick(o: Order, e: Engine, e': Engine, copies: seq<Process>, slack: int)
    requires Inv(o, e, copies, slack) && Stepped(o, e, e') && Run(e).remaining > 0 && NoArrival(e.pending, e.now + 1)
    ensures Inv(o, e', copies, slack) && e'.now == e.now + 1 && Measure(e') == Measure(e) - 1
    ensures e'.admitted == e.admitted && forall k :: 1 <= k < |e'.ready| ==> !Less(o, e'.ready[k], e'.running)
  {
    ContinueStep(o, e, e', copies, slack);
  }

  lemma AdmissionTick(o: Order, e: Engine, e': Engine, copies: seq<Process>, slack: int)
    requires Inv(o, e, copies, slack) && Stepped(o, e, e') && Run(e).remaining > 0 && !NoArrival(e.pending, e.now + 1)
    ensures Inv(o, e', copies, slack) && e'.now == e.now + 1 && Measure(e') == Measure(e) - 1
    ensures |e'.admitted| == |e.admitted| + 1 && e'.admitted[..|e.admitted|] == e.admitted
    ensures e'.admitted[|e.admitted|].arrival == e'.now
    ensures e'.running.remaining > 0 && forall k :: 1 <= k < |e'.ready| ==> !Less(o, e'.ready[k], e'.running)
  {
    var i, r :| FirstArrival(e.pending, i, e.now + 1) && Resorted(o, e, i, r) && |r| > 0
                && e' == AfterAdmission(e, i, r);
    AdmissionStep(o, e, i, r, e', copies, slack);
  }

  /** The state `LoadQueues` leaves: an input process with the earliest
      arrival (shortest burst among equals) runs alone, every other input
      waits in the arrival queue, sorted by arrival, and nothing is reported. */
  ghost predicate Initial(processes: seq<Process>, e: Engine) {
    && |e.ready| == 1 && e.running == e.ready[0] && e.admitted == e.ready && e.rows == [] && e.now == 0
    && e.running.remaining == e.running.burst
    && multiset(e.pending) + multiset{e.running} == multiset(WorkingCopies(processes))
    && Sorted(ArrivalOrder, e.pending)
    && forall k :: 0 <= k < |processes| ==> !ArrivalLess(processes[k], e.running)
  }

  /** Consecutive states of `trace` are one tick apart under ordering `o`. */
  ghost predicate Steps(o: Order, trace: seq<Engine>) {
    |trace| > 0 && forall k :: 0 <= k < |trace| - 1 ==> Stepped(o, trace[k], trace[k + 1])
  }

  /** `trace` is a whole run of the engine on `processes` under `o`: it starts
      from the loaded queues, moves one tick at a time and stops when the
      ready queue is empty. */
  ghost predicate Execution(o: Order, processes: seq<Process>, trace: seq<Engine>) {
    Steps(o, trace) && Initial(processes, trace[0]) && |trace[|trace| - 1].ready| == 0
  }

  lemma StepsExtend(o: Order, trace: seq<Engine>, e': Engine)
    requires Steps(o, trace) && Stepped(o, trace[|trace| - 1], e')
    ensures Steps(o, trace + [e'])
  {
    var t := trace + [e'];
    forall k | 0 <= k < |t| - 1
      ensures Stepped(o, t[k], t[k + 1])
    {
      assert t[k] == trace[k];
      if k + 1 < |trace| {
        assert t[k + 1] == trace[k + 1];
      }
    }
  }

  /** A tick keeps the arrival queue sorted, and a process it admits has the
      shortest burst of all those arriving on that tick. */
  lemma PendingStaysSorted(o: Order, e: Engine, e': Engine)
    requires Stepped(o, e, e') && Sorted(ArrivalOrder, e.pending)
    ensures Sorted(ArrivalOrder, e'.pending)
    ensures |e'.admitted| == |e.admitted| + 1 ==>
              forall q :: q in e.pending && q.arrival == e'.now ==> e'.admitted[|e.admitted|].burst <= q.burst
  {
    if Run(e).remaining != 0 && !NoArrival(e.pending, e.now + 1) {
      var i, r :| FirstArrival(e.pending, i, e.now + 1) && Resorted(o, e, i, r) && |r| > 0
                  && e' == AfterAdmission(e, i, r);
      AdmissionKeepsSorted(e, i, r, e');
    }
  }

  lemma AdmissionKeepsSorted(e: Engine, i: int, r: seq<Process>, e': Engine)
    requires FirstArrival(e.pending, i, e.now + 1) && |r| > 0 && e' == AfterAdmission(e, i, r)
    requires Sorted(ArrivalOrder, e.pending)
    ensures Sorted(ArrivalOrder, e'.pending)
    ensures forall q :: q in e.pending && q.arrival == e'.now ==> e'.admitted[|e.admitted|].burst <= q.burst
  {
    SortedRemoveAt(ArrivalOrder, e.pending, i);
    FirstArrivalIsShortest(e.pending, i, e.now + 1);
    assert e'.admitted[|e.admitted|] == e.pending[i];
  }

  /** Along a whole run the arrival queue stays sorted, so every admission
      takes the shortest of the processes arriving on its tick. */
  lemma {:induction false} ExecutionAdmitsShortest(o: Order, processes: seq<Process>, trace: seq<Engine>, n: int)
    requires Execution(o, processes, trace) && 0 <= n < |trace|
    ensures Sorted(ArrivalOrder, trace[n].pending)
    ensures n + 1 < |trace| && |trace[n + 1].admitted| == |trace[n].admitted| + 1 ==>
              forall q :: q in trace[n].pending && q.arrival == trace[n + 1].now ==>
                trace[n + 1].admitted[|trace[n].admitted|].burst <= q.burst
  {
    if n > 0 {
      ExecutionAdmitsShortest(o, processes, trace, n - 1);
      PendingStaysSorted(o, trace[n - 1], trace[n]);
    }
    if n + 1 < |trace| {
      PendingStaysSorted(o, trace[n], trace[n + 1]);
    }
  }

  /** A tick taken from the last state of a trace keeps the invariant,
      the first admitted process and the trace. */
  lemma TickRecorded(o: Order, e: Engine, e': Engine, trace: seq<Engine>, copies: seq<Process>, slack: int)
    requires Inv(o, e, copies, slack) && Stepped(o, e, e') && |e.admitted| > 0
    requires Steps(o, trace) && trace[|trace| - 1] == e
    ensures Inv(o, e', copies, slack) && Measure(e') == Measure(e) - 1
    ensures |e'.admitted| > 0 && e'.admitted[0] == e.admitted[0]
    ensures Steps(o, trace + [e']) && (trace + [e'])[0] == trace[0]
  {
    TickKeeps(o, e, e', copies, slack);
    StepsExtend(o, trace, e');
    assert e'.admitted[0] == e.admitted[0] by {
      assert e'.admitted == e.admitted || e'.admitted[..|e.admitted|] == e.admitted;
    }
  }

  /** The `for len(pq.processes) > 0` loop: one tick per iteration until the
      ready queue is empty, each tick recorded in the trace. */
  method Drive(order: Order, pq: ProcessQueue, pqA: ProcessQueue, process: Process, currentTime: int,
               schedule: seq<Row>, totalWait: int, totalTurnaround: int,
               ghost e: Engine, ghost copies: seq<Process>, ghost slack: int, ghost trace: seq<Engine>)
    returns (process': Process, currentTime': int, schedule': seq<Row>, totalWait': int, totalTurnaround': int,
             ghost e': Engine, ghost trace': seq<Engine>)
    requires pq != pqA
    requires Holds(e, pq, pqA, process, currentTime, schedule) && Inv(order, e, copies, slack)
    requires |e.admitted| > 0
    requires totalWait == WaitTotal(schedule) && totalTurnaround == TurnaroundTotal(schedule)
    requires Steps(order, trace) && trace[|trace| - 1] == e
    modifies pq, pqA
    ensures Holds(e', pq, pqA, process', currentTime', schedule') && Inv(order, e', copies, slack)
    ensures |e'.ready| == 0 && |e'.admitted| > 0 && e'.admitted[0] == e.admitted[0]
    ensures totalWait' == WaitTotal(schedule') && totalTurnaround' == TurnaroundTotal(schedule')
    ensures Steps(order, trace') && trace'[0] == trace[0] && trace'[|trace'| - 1] == e'
  {
    process', currentTime', schedule', totalWait', totalTurnaround', e', trace' :=
      process, currentTime, schedule, totalWait, totalTurnaround, e, trace;
    while |pq.processes| > 0
      invariant Holds(e', pq, pqA, process', currentTime', schedule') && Inv(order, e', copies, slack)
      invariant |e'.admitted| > 0 && e'.admitted[0] == e.admitted[0]
      invariant totalWait' == WaitTotal(schedule') && totalTurnaround' == TurnaroundTotal(schedule')
      invariant Steps(order, trace') && trace'[0] == trace[0] && trace'[|trace'| - 1] == e'
      decreases Measure(e')
    {
      ghost var before := e';
      MeasureBounded(order, e');
      process', currentTime', schedule', totalWait', totalTurnaround', e' :=
        Tick(order, pq, pqA, process', currentTime', schedule', totalWait', totalTurnaround', e');
      TickRecorded(order, before, e', trace', copies, slack);
      trace' := trace' + [e'];
    }
  }

  /** The loop shared by `SJFSchedule` and `SJFPrioritySchedule`: one tick per
      iteration; the running process is decremented, finishes, or lets a
      process arriving on this tick into the ready queue, which is then
      re-sorted and its head run. */
  method PreemptiveSchedule(order: Order, processes: seq<Process>)
    returns (schedule: seq<Row>, totalWait: int, totalTurnaround: int, lastCompletion: int,
             ghost admitted: seq<Process>, ghost leftOver: seq<Process>, ghost trace: seq<Engine>)
    requires |processes| > 0
    requires forall k :: 0 <= k < |processes| ==> processes[k].burst > 0
    ensures ReportedRows(processes, schedule, totalWait, totalTurnaround, lastCompletion)
    ensures ReportedAdmissions(processes, schedule, lastCompletion, admitted, leftOver)
    // the table is the one the tick-by-tick run under `order` reports
    ensures Execution(order, processes, trace) && schedule == trace[|trace| - 1].rows
  {
    ghost var copies := WorkingCopies(processes);
    var pqA, pq, process := LoadQueues(processes);
    ghost var slack := Max0(process.arrival);
    InitialInv(order, process, pqA.processes, copies);
    ghost var e := Engine([process], process, pqA.processes, [process], [], 0);
    assert Initial(processes, e);
    var currentTime;
    process, currentTime, schedule, totalWait, totalTurnaround, e, trace :=
      Drive(order, pq, pqA, process, 0, [], 0, 0, e, copies, slack, [e]);
    admitted, leftOver := e.admitted, pqA.processes;
    lastCompletion := process.complete;
    Finished(order, e, processes, totalWait, totalTurnaround);
  }

  /** `SJFSchedule`: preemptive shortest-remaining-time-first, the ready
      queue kept in deploy order (remaining time, then arrival). */
  method SJFSchedule(processes: seq<Process>)
    returns (schedule: seq<Row>, totalWait: int, totalTurnaround: int, lastCompletion: int,
             ghost admitted: seq<Process>, ghost leftOver: seq<Process>, ghost trace: seq<Engine>)
    requires |processes| > 0
    requires forall k :: 0 <= k < |processes| ==> processes[k].burst > 0
    ensures ReportedRows(processes, schedule, totalWait, totalTurnaround, lastCompletion)
    ensures ReportedAdmissions(processes, schedule, lastCompletion, admitted, leftOver)
    ensures Execution(DeployOrder, processes, trace) && schedule == trace[|trace| - 1].rows
  {
    schedule, totalWait, totalTurnaround, lastCompletion, admitted, leftOver, trace :=
      PreemptiveSchedule(DeployOrder, processes);
  }

  /** `SJFPrioritySchedule`: preemptive priority scheduling, the ready queue
      kept in priority order (priority, then burst, then arrival). */
  method SJFPrioritySchedule(processes: seq<Process>)
    returns (schedule: seq<Row>, totalWait: int, totalTurnaround: int, lastCompletion: int,
             ghost admitted: seq<Process>, ghost leftOver: seq<Process>, ghost trace: seq<Engine>)
    requires |processes| > 0
    requires forall k :: 0 <= k < |processes| ==> processes[k].burst > 0
    ensures ReportedRows(processes, schedule, totalWait, totalTurnaround, lastCompletion)
    ensures ReportedAdmissions(processes, schedule, lastCompletion, admitted, leftOver)
    ensures Execution(PriorityOrder, processes, trace) && schedule == trace[|trace| - 1].rows
  {
    schedule, totalWait, totalTurnaround, lastCompletion, admitted, leftOver, trace :=
      PreemptiveSchedule(PriorityOrder, processes);
  }
}
