/** Round-robin scheduling with a quantum of two ticks: processes join a FIFO
    queue in input order once the service clock has reached their arrival,
    the head of the queue runs for at most a quantum, and an unfinished
    process goes to the back of the queue as a residual whose burst is what
    is left and whose arrival is the time it was put back. */
module RoundRobin {
  import opened Processes

  const Quantum: int := 2

  datatype Option<T> = None | Some(value: T)

  /** What is left of `p` after it ran `duration` ticks and was put back at `now`:
      a fresh record with the identity and priority of `p`. */
  function Residual(p: Process, duration: int, now: int): (r: Process)
    ensures r.id == p.id && r.priority == p.priority
    ensures r.arrival == now && r.burst == p.burst - duration
  {
    Process(p.id, now, p.burst - duration, p.priority, 0, 0, 0, 0)
  }

  /** A wait that would be negative is reported as 0. */
  function Clamp(w: int): (c: int)
    ensures c >= 0 && c >= w && (c == w || c == 0)
  {
    if w < 0 then 0 else w
  }

  /** The burst `p` contributes to process `id`'s total. */
  function BurstIf(id: int): Process -> int {
    (p: Process) => if p.id == id then p.burst else 0
  }

  /** The CPU time slice `t` gives to process `id`. */
  function ServiceIf(id: int): TimeSlice -> int {
    (t: TimeSlice) => if t.pid == id then t.stop - t.start else 0
  }

  /** A bound on how often `p` will still be dequeued: one round when it
      fits in a quantum, at most its burst otherwise. */
  function RoundsOf(p: Process): (r: int)
    ensures r >= 1
  {
    if p.burst <= Quantum then 1 else p.burst
  }

  /** The service clock is behind the next pending arrival and nothing is
      queued: the next iteration jumps the clock forward. */
  predicate Idle(queue: seq<Process>, pending: seq<Process>, serviceTime: int) {
    |queue| == 0 && |pending| > 0 && pending[0].arrival > serviceTime
  }

  /** Every input names a row of the table: `schedule[ProcessID - 1]`. */
  predicate IdsInRange(processes: seq<Process>) {
    forall k :: 0 <= k < |processes| ==> 1 <= processes[k].id <= |processes|
  }

  predicate Positive(processes: seq<Process>) {
    forall k :: 0 <= k < |processes| ==> processes[k].burst > 0
  }

  /** Index of the last slice of `pid` in `g`, or -1 when it has none. */
  function LastSlice(g: seq<TimeSlice>, pid: int): (j: int)
    ensures -1 <= j < |g|
    ensures j >= 0 ==> g[j].pid == pid
    ensures forall i :: j < i < |g| ==> g[i].pid != pid
  {
    if g == [] then -1
    else if g[|g| - 1].pid == pid then |g| - 1
    else
      var j := LastSlice(g[..|g| - 1], pid);
      assert forall i :: j < i < |g| - 1 ==> g[i] == g[..|g| - 1][i];
      j
  }

  /** Some entry of the queue belongs to process `id`. */
  ghost predicate Queued(queue: seq<Process>, id: int) {
    exists q :: q in queue && q.id == id
  }

  /** What a row of the table says: `r` is process `k + 1`'s row, written
      from the last slice that ran it. */
  ghost predicate RowFrom(r: Row, k: int, g: seq<TimeSlice>) {
    && r.id == k + 1
    && r.wait >= 0
    && r.turnaround == r.completion - r.arrival
    && var j := LastSlice(g, k + 1);
       && j >= 0
       && g[j] == TimeSlice(k + 1, r.completion - Minimum(r.burst, Quantum), r.completion)
       && r.wait == Clamp(g[j].start - r.arrival)
  }

  /** The queues and the shape of the table. */
  ghost predicate QueueShape(processes: seq<Process>, pending: seq<Process>, queue: seq<Process>,
                             schedule: seq<Option<Row>>, totalWait: int)
  {
    // the pending processes are a suffix of the input, in input order
    && |pending| <= |processes| && pending == processes[|processes| - |pending|..]
    && |schedule| == |processes|
    && IdsInRange(processes)
    && (forall q :: q in queue ==> 1 <= q.id <= |processes|)
    && totalWait >= 0
    && (Positive(processes) ==> forall q :: q in queue ==> q.burst > 0)
  }

  /** Per process, CPU time given plus burst still queued or pending is the input burst. */
  ghost predicate Conserved(processes: seq<Process>, pending: seq<Process>, queue: seq<Process>, gantt: seq<TimeSlice>) {
    forall id :: SumOf(gantt, ServiceIf(id)) + SumOf(queue, BurstIf(id)) + SumOf(pending, BurstIf(id))
                 == SumOf(processes, BurstIf(id))
  }

  /** The timeline: short slices in clock order, none after the clock. */
  ghost predicate Timeline(n: int, positive: bool, queue: seq<Process>, serviceTime: int,
                           gantt: seq<TimeSlice>, lastCompletion: int)
  {
    && (forall j :: 0 <= j < |gantt| ==> 1 <= gantt[j].pid <= n && gantt[j].stop - gantt[j].start <= Quantum)
    && (forall i, j :: 0 <= i && j == i + 1 && j < |gantt| ==> gantt[i].stop <= gantt[j].start)
    && (|gantt| > 0 ==> gantt[|gantt| - 1].stop <= serviceTime)
    && (|gantt| == 0 ==> lastCompletion == 0)
    && (|gantt| > 0 ==> lastCompletion == gantt[|gantt| - 1].stop || |queue| > 0)
    && (positive ==> forall j :: 0 <= j < |gantt| ==> gantt[j].start < gantt[j].stop)
  }

  /** The rows written so far. */
  ghost predicate RowsFrom(processes: seq<Process>, pending: seq<Process>, queue: seq<Process>,
                           schedule: seq<Option<Row>>, gantt: seq<TimeSlice>)
    requires |pending| <= |processes| && |schedule| == |processes| && IdsInRange(processes)
  {
    // a row whose burst exceeds the quantum will be overwritten by the residual's
    && (forall k :: 0 <= k < |schedule| && schedule[k].Some? ==>
          RowFrom(schedule[k].value, k, gantt)
          && (schedule[k].value.burst <= Quantum || Queued(queue, k + 1)))
    // every process taken from the input has a row or is still queued
    && (forall i {:trigger schedule[processes[i].id - 1]} :: 0 <= i < |processes| - |pending| ==>
          schedule[processes[i].id - 1].Some? || Queued(queue, processes[i].id))
  }

  /** The invariant of `RRSchedule`'s loop. */
  ghost predicate RRInv(processes: seq<Process>, pending: seq<Process>, queue: seq<Process>, serviceTime: int,
                        schedule: seq<Option<Row>>, gantt: seq<TimeSlice>, lastCompletion: int, totalWait: int)
  {
    && QueueShape(processes, pending, queue, schedule, totalWait)
    && Conserved(processes, pending, queue, gantt)
    && Timeline(|processes|, Positive(processes), queue, serviceTime, gantt, lastCompletion)
    && RowsFrom(processes, pending, queue, schedule, gantt)
  }

  /** How long the head of the queue runs. */
  function Duration(p: Process): (d: int)
    ensures d <= Quantum && (d == p.burst <==> p.burst <= Quantum)
    ensures p.burst >= Quantum ==> d == Quantum
    ensures p.burst > 0 ==> d > 0
  {
    Minimum(p.burst, Quantum)
  }

  /** The queue after its head ran until `now`: the residual goes to the back
      unless the head has finished. */
  function Requeued(queue: seq<Process>, now: int): seq<Process>
    requires |queue| > 0
  {
    var p := queue[0];
    if Duration(p) == p.burst then queue[1..] else queue[1..] + [Residual(p, Duration(p), now)]
  }

  /** The row written for the head of the queue when it ran from `start` to `now`. */
  function RowFor(p: Process, start: int, now: int): Row {
    Row(p.id, p.priority, p.burst, p.arrival, Clamp(start - p.arrival), now - p.arrival, now)
  }

  /** Moving the first pending process to the back of the queue. */
  lemma AdmitKeeps(processes: seq<Process>, pending: seq<Process>, queue: seq<Process>, serviceTime: int,
                   schedule: seq<Option<Row>>, gantt: seq<TimeSlice>, lastCompletion: int, totalWait: int)
    requires RRInv(processes, pending, queue, serviceTime, schedule, gantt, lastCompletion, totalWait)
    requires |pending| > 0
    ensures RRInv(processes, pending[1..], queue + [pending[0]], serviceTime, schedule, gantt, lastCompletion, totalWait)
  {
    var n, p := |processes|, pending[0];
    assert p == processes[n - |pending|];
    assert pending[1..] == processes[n - |pending[1..]|..];
    forall id
      ensures SumOf(gantt, ServiceIf(id)) + SumOf(queue + [p], BurstIf(id)) + SumOf(pending[1..], BurstIf(id))
              == SumOf(processes, BurstIf(id))
    {
      SumOfSnoc(queue, p, BurstIf(id));
      SumOfFront(pending, BurstIf(id));
    }
    assert p in queue + [p];
    assert forall q :: q in queue ==> q in queue + [p];
  }

  /** Jumping the service clock forward to the next arrival. */
  lemma IdleKeeps(processes: seq<Process>, pending: seq<Process>, queue: seq<Process>, serviceTime: int,
                  schedule: seq<Option<Row>>, gantt: seq<TimeSlice>, lastCompletion: int, totalWait: int)
    requires RRInv(processes, pending, queue, serviceTime, schedule, gantt, lastCompletion, totalWait)
    requires Idle(queue, pending, serviceTime)
    ensures RRInv(processes, pending, queue, pending[0].arrival, schedule, gantt, lastCompletion, totalWait)
  {
  }

  /** A row keeps its slice when the timeline grows. */
  lemma RowFromExtend(r: Row, k: int, g: seq<TimeSlice>, t: TimeSlice)
    requires RowFrom(r, k, g) && t.pid != k + 1
    ensures RowFrom(r, k, g + [t])
  {
    assert (g + [t])[..|g|] == g;
  }


  lemma RequeuedMembers(queue: seq<Process>, now: int)
    requires |queue| > 0
    ensures var p := queue[0];
      && (forall q :: q in Requeued(queue, now) ==> q in queue[1..] || q == Residual(p, Duration(p), now))
      && (forall q :: q in queue && q.id != p.id ==> q in Requeued(queue, now))
      && (Duration(p) != p.burst ==> Residual(p, Duration(p), now) in Requeued(queue, now))
  {
    assert queue == [queue[0]] + queue[1..];
  }

  /** The state after the head of the queue ran: `RunHead`'s result in terms of the state before. */
  ghost predicate Dequeued(queue: seq<Process>, serviceTime: int, schedule: seq<Option<Row>>, gantt: seq<TimeSlice>,
                           totalWait: int, queue': seq<Process>, serviceTime': int, schedule': seq<Option<Row>>,
                           gantt': seq<TimeSlice>, lastCompletion': int, totalWait': int)
  {
    && |queue| > 0 && 1 <= queue[0].id <= |schedule|
    && var p := queue[0];
       && serviceTime' == serviceTime + Duration(p)
       && queue' == Requeued(queue, serviceTime')
       && schedule' == schedule[p.id - 1 := Some(RowFor(p, serviceTime, serviceTime'))]
       && gantt' == gantt + [TimeSlice(p.id, serviceTime, serviceTime')]
       && totalWait' == totalWait + Clamp(serviceTime - p.arrival)
       && lastCompletion' == if Duration(p) == p.burst then serviceTime' else serviceTime
  }

  lemma DequeueShape(processes: seq<Process>, pending: seq<Process>, queue: seq<Process>, serviceTime: int,
                     schedule: seq<Option<Row>>, gantt: seq<TimeSlice>, totalWait: int,
                     queue': seq<Process>, serviceTime': int, schedule': seq<Option<Row>>, gantt': seq<TimeSlice>,
                     lastCompletion': int, totalWait': int)
    requires QueueShape(processes, pending, queue, schedule, totalWait)
    requires Dequeued(queue, serviceTime, schedule, gantt, totalWait, queue', serviceTime', schedule', gantt', lastCompletion', totalWait')
    ensures QueueShape(processes, pending, queue', schedule', totalWait')
  {
    RequeuedMembers(queue, serviceTime');
    assert queue[0] in queue;
    assert forall q :: q in queue[1..] ==> q in queue;
  }

  lemma DequeueConserved(processes: seq<Process>, pending: seq<Process>, queue: seq<Process>, serviceTime: int,
                         schedule: seq<Option<Row>>, gantt: seq<TimeSlice>, totalWait: int,
                         queue': seq<Process>, serviceTime': int, schedule': seq<Option<Row>>, gantt': seq<TimeSlice>,
                         lastCompletion': int, totalWait': int)
    requires Conserved(processes, pending, queue, gantt)
    requires Dequeued(queue, serviceTime, schedule, gantt, totalWait, queue', serviceTime', schedule', gantt', lastCompletion', totalWait')
    ensures Conserved(processes, pending, queue', gantt')
  {
    var p := queue[0];
    var slice := TimeSlice(p.id, serviceTime, serviceTime');
    forall id
      ensures SumOf(gantt', ServiceIf(id)) + SumOf(queue', BurstIf(id)) + SumOf(pending, BurstIf(id))
              == SumOf(processes, BurstIf(id))
    {
      SumOfSnoc(gantt, slice, ServiceIf(id));
      SumOfFront(queue, BurstIf(id));
      if Duration(p) != p.burst {
        SumOfSnoc(queue[1..], Residual(p, Duration(p), serviceTime'), BurstIf(id));
      }
    }
  }

  lemma DequeueTimeline(processes: seq<Process>, queue: seq<Process>, serviceTime: int,
                        schedule: seq<Option<Row>>, gantt: seq<TimeSlice>, lastCompletion: int, totalWait: int,
                        queue': seq<Process>, serviceTime': int, schedule': seq<Option<Row>>, gantt': seq<TimeSlice>,
                        lastCompletion': int, totalWait': int)
    requires Timeline(|processes|, Positive(processes), queue, serviceTime, gantt, lastCompletion)
    requires Dequeued(queue, serviceTime, schedule, gantt, totalWait, queue', serviceTime', schedule', gantt', lastCompletion', totalWait')
    requires 1 <= queue[0].id <= |processes|
    requires Positive(processes) ==> queue[0].burst > 0
    ensures Timeline(|processes|, Positive(processes), queue', serviceTime', gantt', lastCompletion')
  {
    var p := queue[0];
    if Duration(p) != p.burst {
      RequeuedMembers(queue, serviceTime');
    }
  }

  lemma DequeueRows(processes: seq<Process>, pending: seq<Process>, queue: seq<Process>, serviceTime: int,
                    schedule: seq<Option<Row>>, gantt: seq<TimeSlice>, totalWait: int,
                    queue': seq<Process>, serviceTime': int, schedule': seq<Option<Row>>, gantt': seq<TimeSlice>,
                    lastCompletion': int, totalWait': int)
    requires |pending| <= |processes| && |schedule| == |processes| && IdsInRange(processes)
    requires RowsFrom(processes, pending, queue, schedule, gantt)
    requires Dequeued(queue, serviceTime, schedule, gantt, totalWait, queue', serviceTime', schedule', gantt', lastCompletion', totalWait')
    ensures RowsFrom(processes, pending, queue', schedule', gantt')
  {
    var p := queue[0];
    var slice := TimeSlice(p.id, serviceTime, serviceTime');
    RequeuedMembers(queue, serviceTime');
    forall k | 0 <= k < |schedule'| && schedule'[k].Some?
      ensures RowFrom(schedule'[k].value, k, gantt')
      ensures schedule'[k].value.burst <= Quantum || Queued(queue', k + 1)
    {
      if k == p.id - 1 {
        assert gantt'[|gantt|] == slice;
      } else {
        RowFromExtend(schedule[k].value, k, gantt, slice);
      }
    }
  }

  /** Running the head of the queue for one quantum or less keeps the
      invariant and uses up one round of the queue. */
  lemma DequeueKeeps(processes: seq<Process>, pending: seq<Process>, queue: seq<Process>, serviceTime: int,
                     schedule: seq<Option<Row>>, gantt: seq<TimeSlice>, lastCompletion: int, totalWait: int,
                     queue': seq<Process>, serviceTime': int, schedule': seq<Option<Row>>, gantt': seq<TimeSlice>,
                     lastCompletion': int, totalWait': int)
    requires RRInv(processes, pending, queue, serviceTime, schedule, gantt, lastCompletion, totalWait)
    requires Dequeued(queue, serviceTime, schedule, gantt, totalWait, queue', serviceTime', schedule', gantt', lastCompletion', totalWait')
    ensures RRInv(processes, pending, queue', serviceTime', schedule', gantt', lastCompletion', totalWait')
    ensures SumOf(queue', RoundsOf) < SumOf(queue, RoundsOf)
  {
    assert queue[0] in queue;
    DequeueShape(processes, pending, queue, serviceTime, schedule, gantt, totalWait,
                 queue', serviceTime', schedule', gantt', lastCompletion', totalWait');
    DequeueConserved(processes, pending, queue, serviceTime, schedule, gantt, totalWait,
                     queue', serviceTime', schedule', gantt', lastCompletion', totalWait');
    DequeueTimeline(processes, queue, serviceTime, schedule, gantt, lastCompletion, totalWait,
                    queue', serviceTime', schedule', gantt', lastCompletion', totalWait');
    DequeueRows(processes, pending, queue, serviceTime, schedule, gantt, totalWait,
                queue', serviceTime', schedule', gantt', lastCompletion', totalWait');
    RequeuedRounds(queue, serviceTime');
  }

  /** Each dequeue uses up one round of the queue. */
  lemma RequeuedRounds(queue: seq<Process>, now: int)
    requires |queue| > 0
    ensures SumOf(Requeued(queue, now), RoundsOf) < SumOf(queue, RoundsOf)
  {
    var p := queue[0];
    SumOfFront(queue, RoundsOf);
    if Duration(p) != p.burst {
      SumOfSnoc(queue[1..], Residual(p, Duration(p), now), RoundsOf);
    }
  }

  /** Before the loop: everything pending, nothing queued, run or written. */
  lemma RRStart(processes: seq<Process>, schedule: seq<Option<Row>>)
    requires IdsInRange(processes)
    requires |schedule| == |processes| && forall k :: 0 <= k < |schedule| ==> schedule[k] == None
    ensures RRInv(processes, processes, [], 0, schedule, [], 0, 0)
    ensures Traced(processes, [], schedule, [], [], 0, 0)
  {
    assert processes[|processes| - |processes|..] == processes;
    forall id
      ensures SumOf([], ServiceIf(id)) + SumOf([], BurstIf(id)) + SumOf(processes, BurstIf(id))
              == SumOf(processes, BurstIf(id))
    {
    }
  }

  /** The wait the dequeue behind slice `t` adds to the total: clamped at 0. */
  function SliceWait(p: Process, t: TimeSlice): int {
    Clamp(t.start - p.arrival)
  }

  /** The turnaround that dequeue adds: only a run that finishes `p` counts. */
  function SliceTurnaround(p: Process, t: TimeSlice): int {
    if Duration(p) == p.burst then t.stop - p.arrival else 0
  }

  /** Total wait over the dequeues: `entries[j]` is the queue entry that ran in slice `g[j]`. */
  function WaitSum(entries: seq<Process>, g: seq<TimeSlice>): int
    requires |entries| == |g|
  {
    if g == [] then 0 else WaitSum(entries[..|g| - 1], g[..|g| - 1]) + SliceWait(entries[|g| - 1], g[|g| - 1])
  }

  /** Total turnaround over the dequeues that finish a process. */
  function TurnaroundSum(entries: seq<Process>, g: seq<TimeSlice>): int
    requires |entries| == |g|
  {
    if g == [] then 0 else TurnaroundSum(entries[..|g| - 1], g[..|g| - 1]) + SliceTurnaround(entries[|g| - 1], g[|g| - 1])
  }

  lemma SumsSnoc(entries: seq<Process>, g: seq<TimeSlice>, p: Process, t: TimeSlice)
    requires |entries| == |g|
    ensures WaitSum(entries + [p], g + [t]) == WaitSum(entries, g) + SliceWait(p, t)
    ensures TurnaroundSum(entries + [p], g + [t]) == TurnaroundSum(entries, g) + SliceTurnaround(p, t)
  {
    assert (entries + [p])[..|g|] == entries && (g + [t])[..|g|] == g;
  }

  /** `q` is an input process, or the residual put back by one of the first
      `bound` dequeues: same id and priority, the burst left over, and as
      arrival the stop of that dequeue's slice. */
  ghost predicate Origin(processes: seq<Process>, entries: seq<Process>, g: seq<TimeSlice>, q: Process, bound: int) {
    || q in processes
    || exists i :: 0 <= i < bound && i < |entries| && i < |g| && q == Residual(entries[i], Duration(entries[i]), g[i].stop)
  }

  /** The history of the dequeues: one entry per slice, where each entry came
      from, what the totals add up, and which entry each row describes. */
  ghost predicate Traced(processes: seq<Process>, queue: seq<Process>, schedule: seq<Option<Row>>,
                         gantt: seq<TimeSlice>, entries: seq<Process>, totalWait: int, totalTurnaround: int)
  {
    && |entries| == |gantt|
    && (forall j :: 0 <= j < |gantt| ==>
          entries[j].id == gantt[j].pid && gantt[j].stop == gantt[j].start + Duration(entries[j]))
    && totalWait == WaitSum(entries, gantt)
    && totalTurnaround == TurnaroundSum(entries, gantt)
    && (forall j :: 0 <= j < |entries| ==> Origin(processes, entries, gantt, entries[j], j))
    && (forall q :: q in queue ==> Origin(processes, entries, gantt, q, |entries|))
    && (forall k :: 0 <= k < |schedule| && schedule[k].Some? ==>
          var j := LastSlice(gantt, k + 1);
          0 <= j < |entries| && DescribeRow(schedule[k].value) == Describe(entries[j]))
  }

  /** An origin stays valid when the history grows. */
  lemma OriginExtend(processes: seq<Process>, entries: seq<Process>, g: seq<TimeSlice>, q: Process, bound: int,
                     p: Process, t: TimeSlice, bound': int)
    requires Origin(processes, entries, g, q, bound) && bound <= bound' && |entries| == |g|
    ensures Origin(processes, entries + [p], g + [t], q, bound')
  {
    if q !in processes {
      var i :| 0 <= i < bound && i < |entries| && i < |g| && q == Residual(entries[i], Duration(entries[i]), g[i].stop);
      assert (entries + [p])[i] == entries[i] && (g + [t])[i] == g[i];
    }
  }

  /** Input processes joining the queue come from the input. */
  lemma AdmitTraced(processes: seq<Process>, pending: seq<Process>, queue: seq<Process>, queue': seq<Process>,
                    schedule: seq<Option<Row>>, gantt: seq<TimeSlice>, entries: seq<Process>,
                    totalWait: int, totalTurnaround: int, m: int)
    requires Traced(processes, queue, schedule, gantt, entries, totalWait, totalTurnaround)
    requires |pending| <= |processes| && pending == processes[|processes| - |pending|..]
    requires 0 <= m <= |pending| && queue' == queue + pending[..m]
    ensures Traced(processes, queue', schedule, gantt, entries, totalWait, totalTurnaround)
  {
    forall q | q in queue'
      ensures Origin(processes, entries, gantt, q, |entries|)
    {
      if q !in queue {
        assert q in pending[..m];
        var k :| 0 <= k < m && pending[k] == q;
        assert q == processes[|processes| - |pending| + k];
      }
    }
  }

  /** The last slice of a process other than the one that just ran is unchanged. */
  lemma LastSliceExtend(g: seq<TimeSlice>, t: TimeSlice, pid: int)
    ensures LastSlice(g + [t], pid) == if t.pid == pid then |g| else LastSlice(g, pid)
  {
    assert (g + [t])[..|g|] == g;
  }

  /** A dequeue appends its entry to the history and keeps it traced. */
  lemma DequeueTraced(processes: seq<Process>, queue: seq<Process>, serviceTime: int, schedule: seq<Option<Row>>,
                      gantt: seq<TimeSlice>, entries: seq<Process>, totalWait: int, totalTurnaround: int,
                      queue': seq<Process>, serviceTime': int, schedule': seq<Option<Row>>, gantt': seq<TimeSlice>,
                      lastCompletion': int, totalWait': int, totalTurnaround': int)
    requires Traced(processes, queue, schedule, gantt, entries, totalWait, totalTurnaround)
    requires Dequeued(queue, serviceTime, schedule, gantt, totalWait, queue', serviceTime', schedule', gantt', lastCompletion', totalWait')
    requires totalTurnaround' == totalTurnaround + SliceTurnaround(queue[0], TimeSlice(queue[0].id, serviceTime, serviceTime'))
    ensures Traced(processes, queue', schedule', gantt', entries + [queue[0]], totalWait', totalTurnaround')
  {
    var p := queue[0];
    var t := TimeSlice(p.id, serviceTime, serviceTime');
    var entries' := entries + [p];
    SumsSnoc(entries, gantt, p, t);
    assert p in queue;
    forall j | 0 <= j < |entries'|
      ensures Origin(processes, entries', gantt', entries'[j], j)
    {
      if j < |entries| {
        OriginExtend(processes, entries, gantt, entries[j], j, p, t, j);
      } else {
        OriginExtend(processes, entries, gantt, p, |entries|, p, t, j);
      }
    }
    RequeuedMembers(queue, serviceTime');
    forall q | q in queue'
      ensures Origin(processes, entries', gantt', q, |entries'|)
    {
      if q in queue[1..] {
        assert q in queue;
        OriginExtend(processes, entries, gantt, q, |entries|, p, t, |entries'|);
      } else {
        assert entries'[|entries|] == p && gantt'[|entries|] == t;
      }
    }
    forall k | 0 <= k < |schedule'| && schedule'[k].Some?
      ensures var j := LastSlice(gantt', k + 1);
              0 <= j < |entries'| && DescribeRow(schedule'[k].value) == Describe(entries'[j])
    {
      LastSliceExtend(gantt, t, k + 1);
      if k != p.id - 1 {
        assert schedule'[k] == schedule[k];
        var j := LastSlice(gantt, k + 1);
        assert entries'[j] == entries[j];
      }
    }
  }

  /** Adjacent slices in clock order, none running backwards: no two slices overlap. */
  lemma {:induction false} SlicesDisjoint(g: seq<TimeSlice>)
    requires forall i, j :: 0 <= i && j == i + 1 && j < |g| ==> g[i].stop <= g[j].start
    requires forall j :: 0 <= j < |g| ==> g[j].start <= g[j].stop
    ensures forall i, j :: 0 <= i < j < |g| ==> g[i].stop <= g[j].start
  {
    if |g| > 1 {
      var g' := g[..|g| - 1];
      assert forall i, j :: 0 <= i && j == i + 1 && j < |g'| ==> g'[i].stop <= g'[j].start by {
        forall i, j | 0 <= i && j == i + 1 && j < |g'| ensures g'[i].stop <= g'[j].start {
          assert g'[i] == g[i] && g'[j] == g[j];
        }
      }
      SlicesDisjoint(g');
      forall i, j | 0 <= i < j < |g|
        ensures g[i].stop <= g[j].start
      {
        if j < |g| - 1 {
          assert g'[i] == g[i] && g'[j] == g[j];
        } else if i < j - 1 {
          assert g'[i] == g[i] && g'[j - 1] == g[j - 1];
          assert g[i].stop <= g[j - 1].start <= g[j - 1].stop <= g[j].start;
        }
      }
    }
  }

  /** After the loop: nothing queued or pending, so the invariant gives the results. */
  lemma RRFinished(processes: seq<Process>, pending: seq<Process>, queue: seq<Process>, serviceTime: int,
                   schedule: seq<Option<Row>>, gantt: seq<TimeSlice>, lastCompletion: int, totalWait: int)
    requires RRInv(processes, pending, queue, serviceTime, schedule, gantt, lastCompletion, totalWait)
    requires |pending| == 0 && |queue| == 0
    ensures |schedule| == |processes|
    ensures forall id :: SumOf(gantt, ServiceIf(id)) == SumOf(processes, BurstIf(id))
    ensures forall j :: 0 <= j < |gantt| ==> 1 <= gantt[j].pid <= |processes| && gantt[j].stop - gantt[j].start <= Quantum
    ensures forall i, j :: 0 <= i && j == i + 1 && j < |gantt| ==> gantt[i].stop <= gantt[j].start
    ensures Positive(processes) ==> forall j :: 0 <= j < |gantt| ==> gantt[j].start < gantt[j].stop
    ensures Positive(processes) ==> forall i, j :: 0 <= i < j < |gantt| ==> gantt[i].stop <= gantt[j].start
    ensures forall i :: 0 <= i < |processes| ==> schedule[processes[i].id - 1].Some?
    ensures forall k :: 0 <= k < |schedule| && schedule[k].Some? ==>
              RowFrom(schedule[k].value, k, gantt) && schedule[k].value.burst <= Quantum
    ensures lastCompletion == if |gantt| == 0 then 0 else gantt[|gantt| - 1].stop
    ensures totalWait >= 0
  {
    forall id
      ensures SumOf(gantt, ServiceIf(id)) == SumOf(processes, BurstIf(id))
    {
      assert SumOf(gantt, ServiceIf(id)) + SumOf(queue, BurstIf(id)) + SumOf(pending, BurstIf(id))
             == SumOf(processes, BurstIf(id));
    }
    if Positive(processes) {
      SlicesDisjoint(gantt);
    }
  }

  /** The history of a finished run, clause by clause. */
  lemma TracedFinished(processes: seq<Process>, schedule: seq<Option<Row>>, gantt: seq<TimeSlice>,
                       entries: seq<Process>, totalWait: int, totalTurnaround: int)
    requires Traced(processes, [], schedule, gantt, entries, totalWait, totalTurnaround)
    ensures |entries| == |gantt|
    ensures forall j :: 0 <= j < |gantt| ==>
              entries[j].id == gantt[j].pid && gantt[j].stop == gantt[j].start + Duration(entries[j])
    ensures forall j :: 0 <= j < |entries| ==> Origin(processes, entries, gantt, entries[j], j)
    ensures totalWait == WaitSum(entries, gantt) && totalTurnaround == TurnaroundSum(entries, gantt)
    ensures forall k :: 0 <= k < |schedule| && schedule[k].Some? ==>
              var j := LastSlice(gantt, k + 1);
              0 <= j < |entries| && DescribeRow(schedule[k].value) == Describe(entries[j])
  {
  }

  /** How many pending processes, from the front, the clock `t` has reached:
      the inner loop of `RRSchedule` moves exactly these to the queue. */
  function Reached(pending: seq<Process>, t: int): (m: int)
    ensures 0 <= m <= |pending|
    ensures forall k :: 0 <= k < m ==> pending[k].arrival <= t
    ensures m == |pending| || pending[m].arrival > t
  {
    if |pending| == 0 || pending[0].arrival > t then 0 else 1 + Reached(pending[1..], t)
  }

  /** A prefix that the clock has reached and that stops at the first later
      arrival is the one `Reached` counts. */
  lemma ReachedUnique(pending: seq<Process>, t: int, m: int)
    requires 0 <= m <= |pending| && forall k :: 0 <= k < m ==> pending[k].arrival <= t
    requires m == |pending| || pending[m].arrival > t
    ensures m == Reached(pending, t)
  {
  }

  /** The variables of `RRSchedule`'s loop at the top of an iteration. */
  datatype RRState = RRState(
    queue: seq<Process>,
    pending: seq<Process>,
    serviceTime: int,
    schedule: seq<Option<Row>>,
    gantt: seq<TimeSlice>,
    totalWait: int,
    totalTurnaround: int,
    lastCompletion: int)

  /** Before the loop: nothing queued, every input pending, an empty table. */
  function StartState(processes: seq<Process>): RRState {
    RRState([], processes, 0, seq(|processes|, _ => None), [], 0, 0, 0)
  }

  /** The state after the inner loop: the reached pending processes join the
      back of the queue in input order. */
  function Admitted(s: RRState): RRState {
    var m := Reached(s.pending, s.serviceTime);
    s.(queue := s.queue + s.pending[..m], pending := s.pending[m..])
  }

  /** One iteration of `RRSchedule`'s outer loop takes `s` to `s'`: the
      arrivals the clock has reached are queued; then the head of the queue
      runs, or, with nothing queued, the clock jumps to the next arrival.
      The CPU is never left idle while a process is queued. */
  ghost predicate Iterated(s: RRState, s': RRState) {
    && (|s.queue| > 0 || |s.pending| > 0)
    && var a := Admitted(s);
       if |a.queue| > 0 then
         && Dequeued(a.queue, a.serviceTime, a.schedule, a.gantt, a.totalWait,
                     s'.queue, s'.serviceTime, s'.schedule, s'.gantt, s'.lastCompletion, s'.totalWait)
         && s'.pending == a.pending
         && var p := a.queue[0];
            s'.totalTurnaround == a.totalTurnaround + (if Duration(p) == p.burst then s'.serviceTime - p.arrival else 0)
       else
         |a.pending| > 0 && s' == a.(serviceTime := a.pending[0].arrival)
  }

  /** Consecutive states of `trace` are one iteration apart. */
  ghost predicate Iterations(trace: seq<RRState>) {
    |trace| > 0 && forall k :: 0 <= k < |trace| - 1 ==> Iterated(trace[k], trace[k + 1])
  }

  /** `trace` is a whole run of `RRSchedule`'s loop on `processes`: it starts
      before the loop and ends when nothing is queued or pending. */
  ghost predicate RRRun(processes: seq<Process>, trace: seq<RRState>) {
    && Iterations(trace) && trace[0] == StartState(processes)
    && |trace[|trace| - 1].queue| == 0 && |trace[|trace| - 1].pending| == 0
  }

  /** An iteration is a function of the state it starts from. */
  lemma IteratedDeterministic(s: RRState, s1: RRState, s2: RRState)
    requires Iterated(s, s1) && Iterated(s, s2)
    ensures s1 == s2
  {
  }

  lemma {:induction false} RunsAgree(processes: seq<Process>, t1: seq<RRState>, t2: seq<RRState>, k: int)
    requires RRRun(processes, t1) && RRRun(processes, t2)
    requires 0 <= k < |t1| && k < |t2|
    ensures t1[k] == t2[k]
  {
    if k > 0 {
      RunsAgree(processes, t1, t2, k - 1);
      IteratedDeterministic(t1[k - 1], t1[k], t2[k]);
    }
  }

  /** There is only one run on a given input, so the run fixes the schedule,
      the timeline and the totals, slice by slice. */
  lemma RRRunUnique(processes: seq<Process>, t1: seq<RRState>, t2: seq<RRState>)
    requires RRRun(processes, t1) && RRRun(processes, t2)
    ensures t1 == t2
  {
    if |t1| < |t2| {
      assert Iterated(t2[|t1| - 1], t2[|t1|]);
      RunsAgree(processes, t1, t2, |t1| - 1);
      assert false;
    } else if |t2| < |t1| {
      assert Iterated(t1[|t2| - 1], t1[|t2|]);
      RunsAgree(processes, t1, t2, |t2| - 1);
      assert false;
    }
    forall k | 0 <= k < |t1|
      ensures t1[k] == t2[k]
    {
      RunsAgree(processes, t1, t2, k);
    }
  }

  /** The two halves of an iteration, the inner loop giving `a` and then a
      dequeue or an idle jump giving `s'`, make one `Iterated` step. */
  lemma IterationOf(s: RRState, a: RRState, s': RRState)
    requires |s.queue| > 0 || |s.pending| > 0
    requires var m := Reached(s.pending, s.serviceTime);
      a == s.(queue := s.queue + s.pending[..m], pending := s.pending[m..])
    requires |a.queue| > 0 ==>
      && Dequeued(a.queue, a.serviceTime, a.schedule, a.gantt, a.totalWait,
                  s'.queue, s'.serviceTime, s'.schedule, s'.gantt, s'.lastCompletion, s'.totalWait)
      && s'.pending == a.pending
      && var p := a.queue[0];
         s'.totalTurnaround == a.totalTurnaround + (if Duration(p) == p.burst then s'.serviceTime - p.arrival else 0)
    requires |a.queue| == 0 ==> |a.pending| > 0 && s' == a.(serviceTime := a.pending[0].arrival)
    ensures Iterated(s, s')
  {
    assert a == Admitted(s);
  }

  lemma IterationsExtend(trace: seq<RRState>, s': RRState)
    requires Iterations(trace) && Iterated(trace[|trace| - 1], s')
    ensures Iterations(trace + [s'])
  {
    var t := trace + [s'];
    forall k | 0 <= k < |t| - 1
      ensures Iterated(t[k], t[k + 1])
    {
      assert t[k] == trace[k];
      if k + 1 < |trace| {
        assert t[k + 1] == trace[k + 1];
      }
    }
  }

  /** One pass of the loop with a non-empty queue: the head runs for
      `minimum(burst, quantum)` ticks, its row and slice are written, and an
      unfinished head goes to the back of the queue as a residual. */
  method RunHead(queue: seq<Process>, serviceTime: int, schedule: seq<Option<Row>>, gantt: seq<TimeSlice>,
                 totalWait: int, totalTurnaround: int)
    returns (queue': seq<Process>, serviceTime': int, schedule': seq<Option<Row>>, gantt': seq<TimeSlice>,
             totalWait': int, totalTurnaround': int, lastCompletion: int)
    requires |queue| > 0 && 1 <= queue[0].id <= |schedule|
    ensures Dequeued(queue, serviceTime, schedule, gantt, totalWait,
                     queue', serviceTime', schedule', gantt', lastCompletion, totalWait')
    ensures var p := queue[0];
      totalTurnaround' == totalTurnaround + (if Duration(p) == p.burst then serviceTime' - p.arrival else 0)
  {
    var quantumTime := Quantum;
    var p := queue[0];
    queue' := queue[1..];
    var waitingTime := serviceTime - p.arrival;
    if waitingTime < 0 {
      waitingTime := 0;
    }
    totalWait' := totalWait + waitingTime;
    var duration := Minimum(p.burst, quantumTime);
    serviceTime' := serviceTime + duration;
    var completionTime := serviceTime';
    totalTurnaround' := totalTurnaround;
    if duration == p.burst {
      totalTurnaround' := totalTurnaround + (serviceTime' - p.arrival);
      lastCompletion := serviceTime';
    } else {
      queue' := queue' + [Process(p.id, serviceTime', p.burst - duration, p.priority, 0, 0, 0, 0)];
      lastCompletion := serviceTime' - duration;
    }
    schedule' := schedule[p.id - 1 := Some(Row(p.id, p.priority, p.burst, p.arrival, waitingTime,
                                               serviceTime' - p.arrival, completionTime))];
    gantt' := gantt + [TimeSlice(p.id, serviceTime' - duration, serviceTime')];
  }

  /** Moving a prefix of the pending processes to the back of the queue, one
      by one, keeps the invariant and the rounds left. */
  lemma {:induction false} AdmitPrefixKeeps(processes: seq<Process>, pending: seq<Process>, queue: seq<Process>,
                                            serviceTime: int, schedule: seq<Option<Row>>, gantt: seq<TimeSlice>,
                                            lastCompletion: int, totalWait: int, m: int)
    requires RRInv(processes, pending, queue, serviceTime, schedule, gantt, lastCompletion, totalWait)
    requires 0 <= m <= |pending|
    ensures RRInv(processes, pending[m..], queue + pending[..m], serviceTime, schedule, gantt, lastCompletion, totalWait)
    ensures SumOf(queue + pending[..m], RoundsOf) + SumOf(pending[m..], RoundsOf)
            == SumOf(queue, RoundsOf) + SumOf(pending, RoundsOf)
  {
    if m == 0 {
      assert pending[0..] == pending && queue + pending[..0] == queue;
    } else {
      AdmitPrefixKeeps(processes, pending, queue, serviceTime, schedule, gantt, lastCompletion, totalWait, m - 1);
      var q, r := queue + pending[..m - 1], pending[m - 1..];
      AdmitKeeps(processes, r, q, serviceTime, schedule, gantt, lastCompletion, totalWait);
      PrefixStep(pending, queue, m);
      SumOfSnoc(q, r[0], RoundsOf);
      SumOfFront(r, RoundsOf);
    }
  }

  lemma PrefixStep(pending: seq<Process>, queue: seq<Process>, m: int)
    requires 0 < m <= |pending|
    ensures queue + pending[..m - 1] + [pending[m - 1..][0]] == queue + pending[..m]
    ensures pending[m - 1..][1..] == pending[m..]
  {
    assert pending[..m] == pending[..m - 1] + [pending[m - 1]];
  }

  /** The inner loop of `RRSchedule`: pending processes whose arrival the
      service clock has reached move, in input order, to the back of the queue. */
  method AdmitArrivals(pending: seq<Process>, queue: seq<Process>, serviceTime: int)
    returns (queue': seq<Process>, pending': seq<Process>)
    // the longest prefix of the pending processes that the clock has reached joins the back of the queue in input order
    ensures var m := Reached(pending, serviceTime); queue' == queue + pending[..m] && pending' == pending[m..]
  {
    queue', pending' := queue, pending;
    ghost var m := 0;
    while |pending'| > 0 && pending'[0].arrival <= serviceTime
      invariant 0 <= m <= |pending| && queue' == queue + pending[..m] && pending' == pending[m..]
      invariant forall k :: 0 <= k < m ==> pending[k].arrival <= serviceTime
      decreases |pending'|
    {
      assert pending[..m + 1] == pending[..m] + [pending'[0]];
      queue' := queue' + [pending'[0]];
      pending' := pending'[1..];
      m := m + 1;
    }
    ReachedUnique(pending, serviceTime, m);
  }

  /** Both invariants of the loop, on its state. */
  ghost predicate Kept(processes: seq<Process>, s: RRState, entries: seq<Process>) {
    && RRInv(processes, s.pending, s.queue, s.serviceTime, s.schedule, s.gantt, s.lastCompletion, s.totalWait)
    && Traced(processes, s.queue, s.schedule, s.gantt, entries, s.totalWait, s.totalTurnaround)
  }

  /** The rounds left in the queue and in the pending list, counted twice,
      plus one while the clock idles behind the next arrival. */
  function Progress(s: RRState): int {
    2 * (SumOf(s.queue, RoundsOf) + SumOf(s.pending, RoundsOf)) + if Idle(s.queue, s.pending, s.serviceTime) then 1 else 0
  }

  /** Running the head of the queue keeps both invariants and uses up a round of the queue. */
  lemma DequeueKept(processes: seq<Process>, a: RRState, entries: seq<Process>, s': RRState)
    requires Kept(processes, a, entries) && |a.queue| > 0
    requires Dequeued(a.queue, a.serviceTime, a.schedule, a.gantt, a.totalWait,
                      s'.queue, s'.serviceTime, s'.schedule, s'.gantt, s'.lastCompletion, s'.totalWait)
    requires s'.pending == a.pending
    requires var p := a.queue[0];
      s'.totalTurnaround == a.totalTurnaround + (if Duration(p) == p.burst then s'.serviceTime - p.arrival else 0)
    ensures Kept(processes, s', entries + [a.queue[0]])
    ensures SumOf(s'.queue, RoundsOf) < SumOf(a.queue, RoundsOf)
  {
    DequeueKeeps(processes, a.pending, a.queue, a.serviceTime, a.schedule, a.gantt, a.lastCompletion, a.totalWait,
                 s'.queue, s'.serviceTime, s'.schedule, s'.gantt, s'.lastCompletion, s'.totalWait);
    DequeueTraced(processes, a.queue, a.serviceTime, a.schedule, a.gantt, entries, a.totalWait, a.totalTurnaround,
                  s'.queue, s'.serviceTime, s'.schedule, s'.gantt, s'.lastCompletion, s'.totalWait, s'.totalTurnaround);
  }

  /** The idle jump keeps both invariants. */
  lemma IdleKept(processes: seq<Process>, a: RRState, entries: seq<Process>, s': RRState)
    requires Kept(processes, a, entries) && Idle(a.queue, a.pending, a.serviceTime)
    requires s' == a.(serviceTime := a.pending[0].arrival)
    ensures Kept(processes, s', entries)
  {
    IdleKeeps(processes, a.pending, a.queue, a.serviceTime, a.schedule, a.gantt, a.lastCompletion, a.totalWait);
  }

  /** Queuing the reached arrivals keeps the rounds and leaves the clock no longer idle
      behind an arrival it has reached. */
  lemma ProgressOnAdmission(s: RRState, a: RRState)
    requires SumOf(a.queue, RoundsOf) + SumOf(a.pending, RoundsOf) == SumOf(s.queue, RoundsOf) + SumOf(s.pending, RoundsOf)
    requires Idle(a.queue, a.pending, a.serviceTime) ==> Idle(s.queue, s.pending, s.serviceTime)
    ensures Progress(a) <= Progress(s)
  {
  }

  /** A dequeue uses up a round. */
  lemma ProgressOnDequeue(s: RRState, s': RRState)
    requires SumOf(s'.queue, RoundsOf) + SumOf(s'.pending, RoundsOf) < SumOf(s.queue, RoundsOf) + SumOf(s.pending, RoundsOf)
    ensures 0 <= Progress(s') < Progress(s)
  {
    SumOfNonnegative(s'.queue, RoundsOf);
    SumOfNonnegative(s'.pending, RoundsOf);
  }

  /** An idle jump keeps the rounds and ends the idling. */
  lemma ProgressOnIdle(s: RRState, s': RRState)
    requires s.queue == s'.queue == [] && s.pending == s'.pending
    requires Idle(s.queue, s.pending, s.serviceTime) && s'.serviceTime == s.pending[0].arrival
    ensures 0 <= Progress(s') < Progress(s)
  {
    SumOfNonnegative(s'.pending, RoundsOf);
  }

  /** Queuing the arrivals the clock has reached keeps both invariants and the
      rounds left, and leaves no reached arrival pending. */
  lemma AdmittedKept(processes: seq<Process>, s: RRState, entries: seq<Process>)
    requires Kept(processes, s, entries)
    ensures var a := Admitted(s);
      && Kept(processes, a, entries)
      && (|a.pending| == 0 || a.pending[0].arrival > a.serviceTime)
      && (Idle(a.queue, a.pending, a.serviceTime) ==> Idle(s.queue, s.pending, s.serviceTime))
      && SumOf(a.queue, RoundsOf) + SumOf(a.pending, RoundsOf) == SumOf(s.queue, RoundsOf) + SumOf(s.pending, RoundsOf)
  {
    var m := Reached(s.pending, s.serviceTime);
    AdmitPrefixKeeps(processes, s.pending, s.queue, s.serviceTime, s.schedule, s.gantt, s.lastCompletion, s.totalWait, m);
    AdmitTraced(processes, s.pending, s.queue, s.queue + s.pending[..m], s.schedule, s.gantt, entries,
                s.totalWait, s.totalTurnaround, m);
    if m == 0 {
      assert s.queue + s.pending[..m] == s.queue && s.pending[m..] == s.pending;
    }
  }

  /** The inner loop on the loop's state. */
  method AdmitState(ghost processes: seq<Process>, s: RRState, ghost entries: seq<Process>) returns (a: RRState)
    requires Kept(processes, s, entries)
    ensures a == Admitted(s) && Kept(processes, a, entries)
    ensures |a.pending| == 0 || a.pending[0].arrival > a.serviceTime
    ensures Idle(a.queue, a.pending, a.serviceTime) ==> Idle(s.queue, s.pending, s.serviceTime)
    ensures SumOf(a.queue, RoundsOf) + SumOf(a.pending, RoundsOf) == SumOf(s.queue, RoundsOf) + SumOf(s.pending, RoundsOf)
  {
    var queue, pending := AdmitArrivals(s.pending, s.queue, s.serviceTime);
    a := s.(queue := queue, pending := pending);
    AdmittedKept(processes, s, entries);
  }

  /** The rest of an iteration, after the arrivals are queued: the head of
      the queue runs, or, with nothing queued, the clock jumps to the next arrival. */
  method Advance(ghost processes: seq<Process>, a: RRState, ghost entries: seq<Process>)
    returns (s': RRState, ghost entries': seq<Process>)
    requires Kept(processes, a, entries)
    requires |a.queue| > 0 || |a.pending| > 0
    requires |a.pending| == 0 || a.pending[0].arrival > a.serviceTime
    ensures Kept(processes, s', entries')
    ensures |a.queue| > 0 ==>
      && Dequeued(a.queue, a.serviceTime, a.schedule, a.gantt, a.totalWait,
                  s'.queue, s'.serviceTime, s'.schedule, s'.gantt, s'.lastCompletion, s'.totalWait)
      && s'.pending == a.pending
      && var p := a.queue[0];
         s'.totalTurnaround == a.totalTurnaround + (if Duration(p) == p.burst then s'.serviceTime - p.arrival else 0)
    ensures |a.queue| == 0 ==> |a.pending| > 0 && s' == a.(serviceTime := a.pending[0].arrival)
    // a round is used up, or an idle clock catches up with the next arrival
    ensures 0 <= Progress(s') < Progress(a)
  {
    if |a.queue| > 0 {
      assert a.queue[0] in a.queue;
      var queue', serviceTime', schedule', gantt', totalWait', totalTurnaround', lastCompletion' :=
        RunHead(a.queue, a.serviceTime, a.schedule, a.gantt, a.totalWait, a.totalTurnaround);
      entries' := entries + [a.queue[0]];
      s' := RRState(queue', a.pending, serviceTime', schedule', gantt', totalWait', totalTurnaround', lastCompletion');
      DequeueKept(processes, a, entries, s');
      ProgressOnDequeue(a, s');
    } else {
      entries' := entries;
      s' := a.(serviceTime := a.pending[0].arrival);
      IdleKept(processes, a, entries, s');
      ProgressOnIdle(a, s');
    }
  }

  /** One pass of the outer loop of `RRSchedule`: admit the arrivals the
      clock has reached, then run the head of the queue, or jump the clock to
      the next arrival when nothing is queued. */
  method Iterate(ghost processes: seq<Process>, s: RRState, ghost entries: seq<Process>)
    returns (s': RRState, ghost entries': seq<Process>)
    requires |s.queue| > 0 || |s.pending| > 0
    requires Kept(processes, s, entries)
    ensures Kept(processes, s', entries')
    ensures Iterated(s, s')
    // a round is used up, or an idle clock catches up with the next arrival
    ensures 0 <= Progress(s') < Progress(s)
  {
    var a := AdmitState(processes, s, entries);
    s', entries' := Advance(processes, a, entries);
    IterationOf(s, a, s');
    ProgressOnAdmission(s, a);
  }

  /** The outer loop of `RRSchedule`: it iterates until nothing is queued or
      pending, each iteration recorded in the trace. */
  method Serve(ghost processes: seq<Process>, s: RRState, ghost entries: seq<Process>, ghost trace: seq<RRState>)
    returns (s': RRState, ghost entries': seq<Process>, ghost trace': seq<RRState>)
    requires Kept(processes, s, entries)
    requires Iterations(trace) && trace[|trace| - 1] == s
    ensures Kept(processes, s', entries')
    ensures |s'.queue| == 0 && |s'.pending| == 0
    ensures Iterations(trace') && trace'[0] == trace[0] && trace'[|trace'| - 1] == s'
  {
    s', entries', trace' := s, entries, trace;
    while |s'.queue| > 0 || |s'.pending| > 0
      invariant Kept(processes, s', entries')
      invariant Iterations(trace') && trace'[0] == trace[0] && trace'[|trace'| - 1] == s'
      decreases Progress(s')
    {
      s', entries' := Iterate(processes, s', entries');
      IterationsExtend(trace', s');
      trace' := trace' + [s'];
    }
  }

  /** Sets up the empty table and runs the loop to the end: the whole run,
      ending with nothing queued or pending and both invariants kept. */
  method RunAll(processes: seq<Process>) returns (s: RRState, ghost entries: seq<Process>, ghost trace: seq<RRState>)
    requires IdsInRange(processes)
    ensures Kept(processes, s, entries)
    ensures |s.queue| == 0 && |s.pending| == 0
    ensures RRRun(processes, trace) && trace[|trace| - 1] == s
  {
    var start := RRState([], processes, 0, seq(|processes|, _ => None), [], 0, 0, 0);
    assert start == StartState(processes);
    RRStart(processes, start.schedule);
    s, entries, trace := Serve(processes, start, [], [start]);
  }

  /** The two processes of the example below, both arriving at 0 with a burst of 3. */
  function ExampleInput(): seq<Process> {
    [Process(1, 0, 3, 0, 0, 0, 0, 0), Process(2, 0, 3, 0, 0, 0, 0, 0)]
  }

  /** The states of the loop on `ExampleInput()`, iteration by iteration:
      process 1, process 2, then their residuals in the order they were put back. */
  function ExampleRun(): seq<RRState> {
    var r1, r2 := Process(1, 2, 1, 0, 0, 0, 0, 0), Process(2, 4, 1, 0, 0, 0, 0, 0);
    var row1, row2 := Row(1, 0, 3, 0, 0, 2, 2), Row(2, 0, 3, 0, 2, 4, 4);
    var last1, last2 := Row(1, 0, 1, 2, 2, 3, 5), Row(2, 0, 1, 4, 1, 2, 6);
    var g := [TimeSlice(1, 0, 2), TimeSlice(2, 2, 4), TimeSlice(1, 4, 5), TimeSlice(2, 5, 6)];
    [ RRState([], ExampleInput(), 0, [None, None], [], 0, 0, 0),
      RRState([ExampleInput()[1], r1], [], 2, [Some(row1), None], g[..1], 0, 0, 0),
      RRState([r1, r2], [], 4, [Some(row1), Some(row2)], g[..2], 2, 0, 2),
      RRState([r2], [], 5, [Some(last1), Some(row2)], g[..3], 4, 3, 5),
      RRState([], [], 6, [Some(last1), Some(last2)], g, 5, 5, 6) ]
  }

  lemma ExampleFirst()
    ensures Iterated(ExampleRun()[0], ExampleRun()[1])
  {
    var s := ExampleRun()[0];
    assert Reached(s.pending, 0) == 2;
    assert Admitted(s).queue == ExampleInput() && Admitted(s).pending == [];
  }

  lemma ExampleSecond()
    ensures Iterated(ExampleRun()[1], ExampleRun()[2])
  {
    assert Admitted(ExampleRun()[1]) == ExampleRun()[1];
  }

  lemma ExampleThird()
    ensures Iterated(ExampleRun()[2], ExampleRun()[3])
  {
    assert Admitted(ExampleRun()[2]) == ExampleRun()[2];
  }

  lemma ExampleFourth()
    ensures Iterated(ExampleRun()[3], ExampleRun()[4])
  {
    assert Admitted(ExampleRun()[3]) == ExampleRun()[3];
  }

  /** On `ExampleInput()` the loop's only run serves the two processes
      first-in, first-out, so process 2 runs before process 1's residual. */
  lemma RRTwoProcessExample(trace: seq<RRState>)
    requires RRRun(ExampleInput(), trace)
    ensures var f := trace[|trace| - 1];
      && f.gantt == [TimeSlice(1, 0, 2), TimeSlice(2, 2, 4), TimeSlice(1, 4, 5), TimeSlice(2, 5, 6)]
      && f.totalWait == 5 && f.totalTurnaround == 5 && f.lastCompletion == 6
      && f.schedule == [Some(Row(1, 0, 1, 2, 2, 3, 5)), Some(Row(2, 0, 1, 4, 1, 2, 6))]
  {
    var run := ExampleRun();
    ExampleFirst();
    ExampleSecond();
    ExampleThird();
    ExampleFourth();
    assert StartState(ExampleInput()) == run[0];
    assert RRRun(ExampleInput(), run);
    RRRunUnique(ExampleInput(), trace, run);
  }

  /** `RRSchedule`: the table indexed by process ID (`None` where no row was
      written), the Gantt timeline, the total of the clamped waits, the total
      turnaround of the finishing slices and the last completion time. */
  method RRSchedule(processes: seq<Process>)
    returns (schedule: seq<Option<Row>>, gantt: seq<TimeSlice>, totalWait: int, totalTurnaround: int,
             lastCompletion: int, ghost entries: seq<Process>, ghost trace: seq<RRState>)
    requires IdsInRange(processes)
    // the results are those of the loop's one run on `processes` (see `RRRunUnique`)
    ensures RRRun(processes, trace)
    ensures var f := trace[|trace| - 1];
      f.schedule == schedule && f.gantt == gantt && f.totalWait == totalWait
      && f.totalTurnaround == totalTurnaround && f.lastCompletion == lastCompletion
    ensures |schedule| == |processes|
    // every process gets exactly its burst of CPU time, summed over its slices
    ensures forall id :: SumOf(gantt, ServiceIf(id)) == SumOf(processes, BurstIf(id))
    ensures forall j :: 0 <= j < |gantt| ==> 1 <= gantt[j].pid <= |processes| && gantt[j].stop - gantt[j].start <= Quantum
    // each slice starts no earlier than the previous one stopped
    ensures forall i, j :: 0 <= i && j == i + 1 && j < |gantt| ==> gantt[i].stop <= gantt[j].start
    // with positive bursts, slices are non-empty and never overlap
    ensures Positive(processes) ==> forall j :: 0 <= j < |gantt| ==> gantt[j].start < gantt[j].stop
    ensures Positive(processes) ==> forall i, j :: 0 <= i < j < |gantt| ==> gantt[i].stop <= gantt[j].start
    // every input has a row; it comes from the process's last slice, so its
    // burst and arrival are those of the last residual
    ensures forall i :: 0 <= i < |processes| ==> schedule[processes[i].id - 1].Some?
    ensures forall k :: 0 <= k < |schedule| && schedule[k].Some? ==>
              RowFrom(schedule[k].value, k, gantt) && schedule[k].value.burst <= Quantum
    ensures lastCompletion == if |gantt| == 0 then 0 else gantt[|gantt| - 1].stop
    ensures totalWait >= 0
    // `entries[j]` is the queue entry that ran in slice j, for Duration(entries[j]) ticks
    ensures |entries| == |gantt|
    ensures forall j :: 0 <= j < |gantt| ==>
              entries[j].id == gantt[j].pid && gantt[j].stop == gantt[j].start + Duration(entries[j])
    // each entry is an input process or the residual put back by an earlier slice
    ensures forall j :: 0 <= j < |entries| ==> Origin(processes, entries, gantt, entries[j], j)
    // the totals add up every dequeue's clamped wait and every finishing run's turnaround
    ensures totalWait == WaitSum(entries, gantt) && totalTurnaround == TurnaroundSum(entries, gantt)
    // each row carries the id, priority, burst and arrival of the entry that ran in its last slice
    ensures forall k :: 0 <= k < |schedule| && schedule[k].Some? ==>
              var j := LastSlice(gantt, k + 1);
              0 <= j < |entries| && DescribeRow(schedule[k].value) == Describe(entries[j])
  {
    var s;
    s, entries, trace := RunAll(processes);
    schedule, gantt, totalWait, totalTurnaround, lastCompletion :=
      s.schedule, s.gantt, s.totalWait, s.totalTurnaround, s.lastCompletion;
    RRFinished(processes, s.pending, s.queue, s.serviceTime, schedule, gantt, lastCompletion, totalWait);
    TracedFinished(processes, schedule, gantt, entries, totalWait, totalTurnaround);
  }
}
