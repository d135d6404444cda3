/** First-come, first-serve: one pass over the processes in input order. */
module Fcfs {
  import opened Processes

  /** The wait FCFS reports for process `i`: the service time spent before it
      minus its arrival when its arrival is positive; otherwise the wait of
      the process before it (0 for the first). */
  function FcfsWait(ps: seq<Process>, i: int): int
    requires 0 <= i < |ps|
  {
    if ps[i].arrival > 0 then BurstSum(ps[..i]) - ps[i].arrival
    else if i == 0 then 0
    else FcfsWait(ps, i - 1)
  }

  /** The wait of process `i` is fixed by the last process at or before `i`
      whose arrival is positive, or is 0 when there is none. */
  lemma {:induction false} FcfsWaitAnchored(ps: seq<Process>, i: int, j: int)
    requires 0 <= i < |ps| && -1 <= j <= i
    requires j >= 0 ==> ps[j].arrival > 0
    requires forall k :: j < k <= i ==> ps[k].arrival <= 0
    ensures FcfsWait(ps, i) == if j < 0 then 0 else BurstSum(ps[..j]) - ps[j].arrival
    decreases i
  {
    if i != j && i > 0 {
      FcfsWaitAnchored(ps, i - 1, j);
    }
  }

  /** The service clock before process `i`: the bursts of the processes before it. */
  function ServiceBefore(ps: seq<Process>, i: int): int
    requires 0 <= i <= |ps|
  {
    BurstSum(ps[..i])
  }

  lemma ServiceStep(ps: seq<Process>, i: int)
    requires 0 <= i < |ps|
    ensures ServiceBefore(ps, i + 1) == ServiceBefore(ps, i) + ps[i].burst
  {
    assert ps[..i + 1] == ps[..i] + [ps[i]];
    SumOfSnoc(ps[..i], ps[i], BurstOf);
  }

  /** The table row FCFS writes for process `i`. */
  function FcfsRow(ps: seq<Process>, i: int): Row
    requires 0 <= i < |ps|
  {
    var w := FcfsWait(ps, i);
    Row(ps[i].id, ps[i].priority, ps[i].burst, ps[i].arrival, w, ps[i].burst + w, ps[i].burst + ps[i].arrival + w)
  }

  /** The Gantt slice FCFS appends for process `i`. */
  function FcfsSlice(ps: seq<Process>, i: int): TimeSlice
    requires 0 <= i < |ps|
  {
    TimeSlice(ps[i].id, FcfsWait(ps, i) + ps[i].arrival, ServiceBefore(ps, i + 1))
  }

  /** The rows FCFS has written after its first `i` iterations. */
  function FcfsRows(ps: seq<Process>, i: int): (rows: seq<Row>)
    requires 0 <= i <= |ps|
    ensures |rows| == i && forall k :: 0 <= k < i ==> rows[k] == FcfsRow(ps, k)
  {
    seq(i, k requires 0 <= k < i => FcfsRow(ps, k))
  }

  /** The Gantt slices FCFS has appended after its first `i` iterations. */
  function FcfsSlices(ps: seq<Process>, i: int): (g: seq<TimeSlice>)
    requires 0 <= i <= |ps|
    ensures |g| == i && forall k :: 0 <= k < i ==> g[k] == FcfsSlice(ps, k)
  {
    seq(i, k requires 0 <= k < i => FcfsSlice(ps, k))
  }

  lemma FcfsStep(ps: seq<Process>, i: int)
    requires 0 <= i < |ps|
    ensures FcfsRows(ps, i + 1) == FcfsRows(ps, i) + [FcfsRow(ps, i)]
    ensures FcfsSlices(ps, i + 1) == FcfsSlices(ps, i) + [FcfsSlice(ps, i)]
  {
  }

  /** What the rows and slices FCFS writes say, process by process. */
  lemma FcfsRowsMean(processes: seq<Process>, schedule: seq<Row>, gantt: seq<TimeSlice>)
    requires schedule == FcfsRows(processes, |processes|) && gantt == FcfsSlices(processes, |processes|)
    ensures |schedule| == |processes| && |gantt| == |processes|
    ensures forall i :: 0 <= i < |processes| ==>
      DescribeRow(schedule[i]) == Describe(processes[i])
      && schedule[i].wait == FcfsWait(processes, i)
      && schedule[i].turnaround == schedule[i].burst + schedule[i].wait
      && schedule[i].completion == schedule[i].arrival + schedule[i].turnaround
    ensures forall i :: 0 <= i < |processes| ==>
      gantt[i].pid == processes[i].id
      && gantt[i].start == processes[i].arrival + schedule[i].wait
      && gantt[i].stop == ServiceBefore(processes, i + 1)
    ensures forall i :: 0 <= i < |processes| && processes[i].arrival > 0 ==>
      gantt[i].start == ServiceBefore(processes, i) && schedule[i].completion == gantt[i].stop
  {
    forall i | 0 <= i < |processes|
      ensures processes[i].arrival > 0 ==> gantt[i].start == ServiceBefore(processes, i) && schedule[i].completion == gantt[i].stop
    {
      ServiceStep(processes, i);
    }
  }

  /** `FCFSSchedule`: one table row and one Gantt slice per process, in
      input order; `FcfsRowsMean` says what they contain. */
  method FCFSSchedule(processes: seq<Process>)
    returns (schedule: seq<Row>, gantt: seq<TimeSlice>, totalWait: int, totalTurnaround: int, lastCompletion: int)
    ensures schedule == FcfsRows(processes, |processes|) && gantt == FcfsSlices(processes, |processes|)
    ensures totalWait == WaitTotal(schedule) && totalTurnaround == TurnaroundTotal(schedule)
    ensures lastCompletion == if processes == [] then 0 else schedule[|schedule| - 1].completion
  {
    var serviceTime := 0;
    var waitingTime := 0;
    schedule, gantt := [], [];
    totalWait, totalTurnaround, lastCompletion := 0, 0, 0;
    for i := 0 to |processes|
      invariant schedule == FcfsRows(processes, i) && gantt == FcfsSlices(processes, i)
      invariant serviceTime == ServiceBefore(processes, i)
      invariant waitingTime == if i == 0 then 0 else FcfsWait(processes, i - 1)
      invariant totalWait == WaitTotal(schedule) && totalTurnaround == TurnaroundTotal(schedule)
      invariant lastCompletion == if i == 0 then 0 else schedule[i - 1].completion
    {
      var p := processes[i];
      if p.arrival > 0 {
        waitingTime := serviceTime - p.arrival;
      }
      totalWait := totalWait + waitingTime;
      var start := waitingTime + p.arrival;
      var turnaround := p.burst + waitingTime;
      totalTurnaround := totalTurnaround + turnaround;
      var completion := p.burst + p.arrival + waitingTime;
      lastCompletion := completion;
      var row := Row(p.id, p.priority, p.burst, p.arrival, waitingTime, turnaround, completion);
      assert row == FcfsRow(processes, i);
      SumOfSnoc(schedule, row, WaitOf);
      SumOfSnoc(schedule, row, TurnaroundOf);
      schedule := schedule + [row];
      ServiceStep(processes, i);
      serviceTime := serviceTime + p.burst;
      var slice := TimeSlice(p.id, start, serviceTime);
      assert slice == FcfsSlice(processes, i);
      FcfsStep(processes, i);
      gantt := gantt + [slice];
    }
  }

  /** Two processes, (arrival 0, burst 5) and (arrival 1, burst 3): the
      second waits 4 and exits at 8. */
  lemma FcfsTwoProcessExample()
    ensures var ps := [Process(1, 0, 5, 0, 0, 0, 0, 0), Process(2, 1, 3, 0, 0, 0, 0, 0)];
      FcfsWait(ps, 0) == 0 && FcfsWait(ps, 1) == 4
      && ps[1].arrival + ps[1].burst + FcfsWait(ps, 1) == 8
  {
    var ps := [Process(1, 0, 5, 0, 0, 0, 0, 0), Process(2, 1, 3, 0, 0, 0, 0, 0)];
    assert ps[..1] == [ps[0]] && [ps[0]] == [] + [ps[0]];
    SumOfSnoc([], ps[0], BurstOf);
  }

  /** As written: a process arriving at tick 0 after the first reuses the
      previous wait, so its reported exit is not where its Gantt slice stops. */
  lemma ZeroArrivalReusesWait()
    ensures var ps := [Process(1, 0, 5, 0, 0, 0, 0, 0), Process(2, 0, 3, 0, 0, 0, 0, 0)];
      FcfsWait(ps, 1) == 0
      && ps[1].arrival + ps[1].burst + FcfsWait(ps, 1) == 3
      && BurstSum(ps[..2]) == 8
  {
    var ps := [Process(1, 0, 5, 0, 0, 0, 0, 0), Process(2, 0, 3, 0, 0, 0, 0, 0)];
    assert ps[..2] == ps && ps == [ps[0]] + [ps[1]] && [ps[0]] == [] + [ps[0]];
    SumOfSnoc([], ps[0], BurstOf);
    SumOfSnoc([ps[0]], ps[1], BurstOf);
  }

  /** Corrected: the wait recomputed for every process from the service time
      before it. The reported exit then always equals the stop of the
      process's Gantt slice, and the wait is negative only when the process
      arrives after the service clock. */
  function CorrectedWait(ps: seq<Process>, i: int): (w: int)
    requires 0 <= i < |ps|
    ensures ps[i].arrival + ps[i].burst + w == BurstSum(ps[..i + 1])
    ensures w >= 0 <==> ps[i].arrival <= BurstSum(ps[..i])
  {
    assert ps[..i + 1] == ps[..i] + [ps[i]];
    SumOfSnoc(ps[..i], ps[i], BurstOf);
    BurstSum(ps[..i]) - ps[i].arrival
  }

  /** The two rules agree on every process whose arrival is positive. */
  lemma FcfsWaitAgreesOnPositiveArrival(ps: seq<Process>, i: int)
    requires 0 <= i < |ps| && ps[i].arrival > 0
    ensures FcfsWait(ps, i) == CorrectedWait(ps, i)
  {
  }
}
