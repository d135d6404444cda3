# CPU scheduling simulator, modelled in Dafny

This project models the scheduling core of a small Go CPU-scheduling
simulator. The simulator reads a list of processes. Each process has an id,
an arrival tick, a CPU burst and a priority. For each scheduling policy the
simulator produces a schedule table (ID, Priority, Burst, Arrival, Wait,
Turnaround, Exit) and, for some policies, a Gantt timeline of
`(pid, start, stop)` slices. The policies are:

- **First-come, first-serve** (`FCFSSchedule`): one pass over the input in
  input order. A running service clock is the sum of the bursts so far.
- **Preemptive shortest-job-first** (`SJFSchedule`) and **preemptive
  priority** (`SJFPrioritySchedule`): a clock that advances one tick at a
  time. The two functions are identical except for the sort applied to the
  ready queue when a process arrives: remaining time then arrival, or
  priority then burst then arrival. Here they are one method,
  `Preemptive.PreemptiveSchedule`, parameterised by an `Order`.
- **Round robin** (`RRSchedule`), with a quantum of 2. A FIFO queue of
  processes whose arrival the service clock has reached. An unfinished
  process goes back in as a residual record. Its burst is what is left, and
  its arrival is the tick at which it was put back. The residual's row
  overwrites the process's earlier row in the table, which is indexed by
  `ProcessID - 1`. So the final row shows the last residual's burst and
  arrival.

Modules follow the structure of the program:

- `Processes`: the process, time-slice and row records, and the sums over
  them.
- `Ordering`: the three comparators and the sort.
- `Queues`: the process queue class.
- `Fcfs`, `Preemptive` and `RoundRobin`: the schedulers.

Where the Go code changes state step by step, the model does too:

- the queues are a class whose methods reassign a `seq` field;
- the schedulers are methods with loops.

Each loop is proved against a specification:

- FCFS against the functions `FcfsRows`/`FcfsSlices`;
- the preemptive engine against the one-tick transition relation
  `Preemptive.Stepped` and the invariant `Preemptive.Inv`;
- round robin against the one-iteration relation `RoundRobin.Iterated`
  (admit the reached arrivals, then run the head of the queue, or jump the
  idle clock to the next arrival), built on the one-dequeue relation
  `RoundRobin.Dequeued`, and the invariant `RoundRobin.RRInv`. That relation
  is deterministic, so an input has exactly one complete run
  (`RoundRobin.RRRunUnique`). The scheduler's outputs are the last state of
  that run, which fixes the FIFO service order.

The input slice is never mutated: inputs are Dafny sequences (values), and
every working copy is a separate value.

On the processes `[(1, arrival 0, burst 5), (2, arrival 1, burst 3)]` the
FCFS code gives waits 0 and 4 and a second exit of 8
(`Fcfs.FcfsTwoProcessExample`). On two processes arriving at 0 with burst 3,
round robin runs the slices (1, 0, 2), (2, 2, 4), (1, 4, 5), (2, 5, 6)
(`RoundRobin.RRTwoProcessExample`). FCFS and the preemptive engine can report a
negative wait; only round robin clamps waits at 0.

## Model

| member | source | states |
|---|---|---|
| Processes.Minimum | Project1/main.go:425-430 | the result is at most both arguments and equals one of them |
| Ordering.LessIsLexOnKey | Project1/main.go:373-388 | each comparator is exactly the lexicographic order on its key chain (arrival, burst / remaining, arrival / priority, burst, arrival) |
| Ordering.LessIrreflexive | Project1/main.go:373-388 | no process precedes itself under any of the three comparators |
| Ordering.LessTransitive | Project1/main.go:373-388 | each comparator is transitive |
| Ordering.LessTies | Project1/main.go:373-388 | two processes are unordered under a comparator exactly when their keys are equal, so ties are the only freedom the sort has |
| Ordering.DecrementKeepsPlace | Project1/main.go:233-239 | taking one tick off a process's remaining time never lets a process that did not precede it overtake it |
| Ordering.Insert | Project1/main.go:373-388 | inserting into a sorted queue gives a sorted queue holding exactly the old elements plus the new one |
| Ordering.SortBy | Project1/main.go:373-388 | the result is sorted by the comparator and is a permutation of the input |
| Ordering.SortArrivalQueue | Project1/main.go:373-377 | a permutation of the queue in which no later process has an earlier arrival, or the same arrival and a shorter burst |
| Ordering.SortDeployQueue | Project1/main.go:379-383 | a permutation of the queue in which no later process has less remaining time, or the same remaining time and an earlier arrival |
| Ordering.SortPriorityQueue | Project1/main.go:384-388 | a permutation of the queue in which no later process precedes an earlier one by priority, then burst, then arrival |
| Queues.RemoveAt | Project1/main.go:79-81 | the elements before `index` stay, those after shift down by one, and exactly the element at `index` leaves the multiset |
| Queues.ProcessQueue.constructor | Project1/main.go:82-84 | a new queue is empty |
| Queues.ProcessQueue.AddProcess | Project1/main.go:76-78 | the process is appended at the back and the earlier contents are unchanged |
| Queues.ProcessQueue.RemoveProcess | Project1/main.go:79-81 | the new contents are the old ones with the element at `index` cut out |
| Fcfs.FcfsWaitAnchored | Project1/main.go:107-110 | a process's wait is fixed by the last process at or before it with a positive arrival (service time before that process minus its arrival), or is 0 when there is none |
| Fcfs.ServiceStep | Project1/main.go:130 | the service clock advances by exactly the burst of each process |
| Fcfs.FcfsStep | Project1/main.go:121-136 | each iteration appends exactly one row and one slice, for the current process |
| Fcfs.FcfsRowsMean | Project1/main.go:107-137 | row i describes input i, its wait follows the wait rule, turnaround = burst + wait and exit = arrival + turnaround; slice i names process i, starts at arrival + wait and stops at the service time after it; with a positive arrival the slice starts at the service time before it and the exit is the slice's stop |
| Fcfs.FCFSSchedule | Project1/main.go:97-147 | the table and timeline are exactly the rows and slices above, one per process in input order; the totals are the sums of the wait and turnaround columns; the last completion is the last row's exit (0 for no input) |
| Fcfs.FcfsTwoProcessExample | Project1/main.go:107-137 | on processes (arrival 0, burst 5) and (arrival 1, burst 3) the waits are 0 and 4 and the second exit is 8 |
| Fcfs.ZeroArrivalReusesWait | Project1/main.go:108-110 | as written: a second process arriving at 0 reuses wait 0 and reports exit 3 although the clock reaches 8 when it stops |
| Fcfs.CorrectedWait | Project1/main.go:108-110 | the wait recomputed for every process makes the reported exit equal to the service clock after it, and is negative exactly when the process arrives after the service clock before it |
| Fcfs.FcfsWaitAgreesOnPositiveArrival | Project1/main.go:108-110 | the code's rule and the corrected rule agree on every process with a positive arrival |
| Preemptive.WorkingCopy | Project1/main.go:158-161 | the working copy describes the same process and owes its whole burst |
| Preemptive.WorkingCopies | Project1/main.go:158-161 | one working copy per input, in input order |
| Preemptive.Completed | Project1/main.go:176-179 | a finished process gets completion = the current tick, turnaround = completion - arrival and wait = turnaround - burst, and keeps its identity and remaining time |
| Preemptive.RowOf | Project1/main.go:182-190 | the row carries the finished process's id, priority, burst and arrival, and its wait, turnaround and completion as the Wait, Turnaround and Exit columns |
| Preemptive.LoadQueues | Project1/main.go:158-165 | the pending queue plus the first running process are exactly the working copies of the inputs; the pending queue is sorted by arrival, then burst; the running process has the earliest arrival (shortest burst among ties) and owes its whole burst |
| Preemptive.FirstIsEarliest | Project1/main.go:162-163 | the head of the arrival-sorted copies is one of them and no input precedes it in arrival order |
| Preemptive.InitialInv | Project1/main.go:158-166 | the state before the first tick satisfies the engine invariant |
| Preemptive.RunFacts | Project1/main.go:168-174 | the process run on a tick is the head of the ready queue, owes one tick less and is still preceded by no waiting process |
| Preemptive.Retire | Project1/main.go:176-193 | the completion half of a tick produces exactly the completion successor state: the row is appended, the head leaves the ready queue, and the totals stay equal to the column sums |
| Preemptive.CompletionQueue | Project1/main.go:176-193 | after a completion the remaining ready queue is sorted and every ready process still owes work |
| Preemptive.CompletionBooks | Project1/main.go:176-193 | after a completion every admitted process is reported or ready, and the work owed drops by one |
| Preemptive.CompletionTime | Project1/main.go:176-193 | after a completion every row's metrics are consistent, its exit is no later than the clock, and exits strictly increase |
| Preemptive.CompletionStep | Project1/main.go:176-193 | a completion tick keeps the invariant, does one unit of work and admits nothing |
| Preemptive.ContinueStep | Project1/main.go:172-175 | a tick with no completion and no arrival keeps the invariant, does one unit of work, and the running process stays unpreceded |
| Preemptive.FirstArrivalAt | Project1/main.go:195-196 | finds the first pending process arriving on this tick, or reports that none does |
| Preemptive.SortQueue | Project1/main.go:373-388 | the queue re-sorted by the given comparator: sorted, and a permutation |
| Preemptive.Admit | Project1/main.go:195-205 | the waiting processes, the arrival and the process just run are re-sorted into the ready queue; the head runs next; the arrival leaves the pending queue |
| Preemptive.ResortedMembers | Project1/main.go:197-201 | the re-sorted ready queue holds exactly the waiting processes, the arrival and the process just run |
| Preemptive.ResortedWork | Project1/main.go:197-201 | re-sorting leaves the work owed unchanged |
| Preemptive.ResortedDescriptors | Project1/main.go:197-201 | the re-sorted queue describes the old ready queue plus the arrival |
| Preemptive.FirstArrivalIsShortest | Project1/main.go:195-196 | in the arrival-sorted pending queue, the first process found arriving on a tick has the shortest burst of all processes arriving on that tick |
| Preemptive.AdmissionKeepsSorted | Project1/main.go:195-200 | removing the admitted process keeps the pending queue sorted by arrival, and the admitted process has the shortest burst among those arriving on that tick |
| Preemptive.PendingStaysSorted | Project1/main.go:167-206 | every tick keeps the pending queue sorted by arrival; when a tick admits a process, no process arriving on that tick has a shorter burst |
| Preemptive.PendingWithout | Project1/main.go:200 | removing an arrival from the pending queue removes exactly its burst from the work not yet admitted |
| Preemptive.AdmissionQueue | Project1/main.go:195-205 | after an admission the ready queue is sorted and its head is not preceded by any waiting process |
| Preemptive.AdmissionBooks | Project1/main.go:195-205 | after an admission the arrival moves from pending to admitted, and the clock plus the work owed still equals the admitted bursts |
| Preemptive.AdmissionTime | Project1/main.go:195-205 | after an admission every ready process is still punctual and the rows are unchanged |
| Preemptive.AdmissionStep | Project1/main.go:195-205 | an admission tick keeps the invariant, does one unit of work, admits exactly the first process arriving on this tick, and runs a minimum of the ready queue |
| Preemptive.CompletionTick | Project1/main.go:176-193 | a tick on which the running process finishes keeps the invariant, advances the clock by one, does one unit of work and admits nothing |
| Preemptive.ContinueTick | Project1/main.go:172-175 | a tick with no completion and no arrival keeps the invariant, advances the clock by one, does one unit of work, admits nothing, and leaves the running process preceded by no waiting one |
| Preemptive.AdmissionTick | Project1/main.go:195-205 | a tick with an arrival keeps the invariant, advances the clock by one, does one unit of work, and admits exactly one process, arriving on that tick; the process run next owes work and is preceded by no waiting one |
| Preemptive.Tick | Project1/main.go:168-205 | one loop iteration moves the engine along exactly one tick of the transition relation and advances the clock by one |
| Preemptive.TickKeeps | Project1/main.go:167-206 | every tick keeps the invariant and does one unit of work; at most one process is admitted, it arrives on that tick, and none is admitted on a completion tick; the next process to run is preceded by no waiting one |
| Preemptive.TickRecorded | Project1/main.go:167-206 | a tick taken from the last state of a run keeps the invariant, uses up one unit of the measure, keeps the first admitted process, and extends the run by that tick |
| Preemptive.Drive | Project1/main.go:167-206 | the loop ends with an empty ready queue, the invariant kept, the totals equal to the column sums, and every iteration recorded as one tick of the transition relation |
| Preemptive.ExecutionAdmitsShortest | Project1/main.go:162-204 | along a whole run the pending queue stays sorted by arrival, so each admission takes the process with the shortest burst among those arriving on its tick |
| Preemptive.MeasureBounded | Project1/main.go:167 | the work owed plus the work pending is never negative, so the loop ends |
| Preemptive.Finished | Project1/main.go:167-210 | when the ready queue is empty the invariant yields the engine's report |
| Preemptive.PreemptiveSchedule | Project1/main.go:158-210 | at most n rows, written in strictly increasing exit order; per row turnaround = exit - arrival and wait = turnaround - burst; the last exit is the total burst admitted (the CPU never idles); every input is admitted or left pending, never both; the rows describe exactly the admitted processes; the first admitted has the earliest arrival; waits are at least minus the first arrival, and non-negative when some input arrives at 0 or earlier; the totals are the column sums; the table is the last state of a run that starts from the loaded queues and moves one tick of the transition relation under the given order at a time |
| Preemptive.SJFSchedule | Project1/main.go:214-281 | the report above, and the table is the outcome of a tick-by-tick run whose every admission re-sorts the ready queue by remaining time, then arrival |
| Preemptive.SJFPrioritySchedule | Project1/main.go:149-212 | the report above, and the table is the outcome of a tick-by-tick run whose every admission re-sorts the ready queue by priority, then burst, then arrival |
| RoundRobin.Residual | Project1/main.go:327-332 | the residual keeps the id and priority, owes burst - duration and arrives at the current service time |
| RoundRobin.Clamp | Project1/main.go:307-310 | a negative wait becomes 0; any other wait is kept |
| RoundRobin.Duration | Project1/main.go:314 | a process runs min(burst, 2) ticks: its whole burst exactly when the burst fits in the quantum, and the full quantum when the burst is at least the quantum; a positive burst runs at least one tick |
| RoundRobin.AdmitKeeps | Project1/main.go:297-300 | moving the first pending process to the back of the queue keeps the invariant |
| RoundRobin.AdmitPrefixKeeps | Project1/main.go:297-300 | moving any prefix of the pending processes to the back of the queue keeps the invariant and the total rounds |
| RoundRobin.Reached | Project1/main.go:297-300 | counts the leading pending processes the clock has reached: every one before the count has arrived, and the next one, if any, has not |
| RoundRobin.AdmitArrivals | Project1/main.go:297-300 | the new queue is the old one followed by the longest prefix of the pending processes the clock has reached, in input order, and the pending queue is what follows |
| RoundRobin.AdmittedKept | Project1/main.go:297-300 | queuing the reached arrivals keeps both invariants and the total rounds, and leaves no pending process the clock has reached |
| RoundRobin.AdmitState | Project1/main.go:297-300 | the loop's state after the inner loop is exactly the admission of the reached arrivals, with both invariants kept |
| RoundRobin.AdmitTraced | Project1/main.go:297-300 | processes joining the queue from the pending list are input processes, so the history of dequeues stays consistent |
| RoundRobin.IdleKeeps | Project1/main.go:351-354 | jumping the idle clock forward to the next arrival keeps the invariant |
| RoundRobin.RequeuedMembers | Project1/main.go:302-334 | the new queue holds the rest of the old one and, when the head did not finish, its residual |
| RoundRobin.RunHead | Project1/main.go:302-350 | running the head produces exactly the one-dequeue step: clock + duration, the residual re-queued, the row written at `ProcessID - 1`, one slice appended, the clamped wait added, and turnaround added only when the process finishes |
| RoundRobin.DequeueShape | Project1/main.go:302-350 | a dequeue keeps the pending queue a suffix of the input and every queued id in range |
| RoundRobin.DequeueConserved | Project1/main.go:302-350 | per process, CPU time given plus burst still queued or pending stays equal to the input burst |
| RoundRobin.DequeueTimeline | Project1/main.go:302-350 | slices stay adjacent, no longer than the quantum, and no later than the clock |
| RoundRobin.DequeueRows | Project1/main.go:337-350 | every written row comes from the last slice of its process |
| RoundRobin.RequeuedRounds | Project1/main.go:321-334 | each dequeue strictly lowers the rounds left in the queue |
| RoundRobin.DequeueKeeps | Project1/main.go:302-350 | a dequeue keeps the whole invariant and uses up a round |
| RoundRobin.DequeueTraced | Project1/main.go:302-350 | a dequeue appends its entry to the history: the totals grow by that entry's clamped wait and, when it finishes, its turnaround; its residual is traced to this slice; the row it writes describes it |
| RoundRobin.DequeueKept | Project1/main.go:302-350 | running the head of the queue keeps both invariants, adds the head to the history of dequeues, and uses up a round |
| RoundRobin.IdleKept | Project1/main.go:351-354 | jumping the idle clock to the next arrival keeps both invariants |
| RoundRobin.IteratedDeterministic | Project1/main.go:296-355 | one pass of the loop body has at most one outcome from any state |
| RoundRobin.RunsAgree | Project1/main.go:283-355 | two runs on the same input agree state by state |
| RoundRobin.RRRunUnique | Project1/main.go:283-355 | an input has exactly one complete run: its length and every state, including the final table, timeline and totals, are fixed |
| RoundRobin.IterationOf | Project1/main.go:296-355 | admitting the reached arrivals and then running the head of the queue, or, with nothing queued, jumping the clock to the next arrival, is one iteration |
| RoundRobin.Advance | Project1/main.go:302-354 | with a process queued, the head runs exactly one dequeue step and the turnaround total grows only when it finishes, with nothing pending changed; with nothing queued, the clock jumps to the next arrival and nothing else changes; both invariants are kept and the progress measure drops |
| RoundRobin.Iterate | Project1/main.go:296-355 | one pass of the outer loop is exactly one iteration: the head is served whenever something is queued, and the clock jumps only when nothing is; both invariants are kept and the progress measure drops, so the loop ends |
| RoundRobin.RRStart | Project1/main.go:283-294 | before the loop everything is pending and nothing is queued, run or written |
| RoundRobin.Serve | Project1/main.go:296-355 | the loop ends with nothing queued or pending, with the invariant and the history of dequeues kept, and every state it passes through follows the previous one by one iteration, extending the run it was given |
| RoundRobin.RunAll | Project1/main.go:283-355 | from an empty table and queue with every input pending, the loop ends with nothing queued or pending and both invariants holding, and its states form a complete run on the input, the only one there is |
| RoundRobin.SlicesDisjoint | Project1/main.go:346-350 | adjacent slices in clock order, none running backwards, never overlap pairwise |
| RoundRobin.RRFinished | Project1/main.go:296-361 | with nothing left the invariant yields every postcondition of the scheduler |
| RoundRobin.TracedFinished | Project1/main.go:296-361 | with nothing queued, the history of dequeues yields the scheduler's postconditions about entries, totals and rows |
| RoundRobin.RRTwoProcessExample | Project1/main.go:282-355 | on two processes arriving at 0 with burst 3, the only run gives the slices (1, 0, 2), (2, 2, 4), (1, 4, 5), (2, 5, 6), wait and turnaround totals of 5, a last completion of 6, and the residuals' rows (burst 1, arrival 2, wait 2, turnaround 3, exit 5) and (burst 1, arrival 4, wait 1, turnaround 2, exit 6) |
| RoundRobin.RRSchedule | Project1/main.go:282-367 | the outputs are the final state of the input's one complete run of the loop, so FIFO service order is fixed and the clock never idles while a process is queued; per process id the slices sum to the input burst; every slice is at most the quantum and starts no earlier than the one before; with positive bursts slices are non-empty and pairwise disjoint; slice j ran queue entry j for min(burst, 2) ticks, and each entry is an input process or the residual of an earlier slice (burst left over, arrival at that slice's stop); every input has a row, taken from its last slice with a clamped, non-negative wait and carrying that entry's id, priority, burst and arrival; the wait total is the sum of every dequeue's clamped wait and the turnaround total the sum over finishing runs; the last completion is the last slice's stop |

## Left out

- Reading the CSV file, the command line, and rendering the title, the Gantt chart and the table: I/O. The table is a sequence of integer `Row` records rather than strings.
- The averages and the throughput: floating-point division. The model keeps the integer totals they are computed from.
- Go's `int64` is an unbounded `int`: overflow is not modelled.
- `sort.Slice` is not stable and its tie order is unspecified. The model accepts any sorted permutation (`Preemptive.Resorted`). `Ordering.SortBy` is one such sort.
- `ProcessQueueArrivalOrder` and `ProcessQueue` are structurally identical Go types. Both are `Queues.ProcessQueue`.
- The preemptive schedulers write rows at `schedule[count]` into an n-slot table. The model appends rows, so its table has only the rows written. Unwritten slots are empty rows in Go.
- Preemptive.PreemptiveSchedule: requires a non-empty input. `pqA.processes[0]` panics otherwise.
- Preemptive.PreemptiveSchedule: requires every burst to be positive. A process with a burst of 0 or less makes the Go loop spin forever once it is loaded first or admitted, because its remaining time goes below 0 and never equals 0 again. The requirement also excludes inputs where such a process is never admitted and Go ends normally: on (id 1, arrival 0, burst 2) and (id 2, arrival 5, burst 0), Go reports one row.
- Preemptive.TickKeeps: states that the process run next is preceded by no waiting process under the ready queue's order. It does not pin down which process wins a tie.
- RoundRobin.RRSchedule: requires every id to be in 1..n. `schedule[ProcessID-1]` panics otherwise.
- RoundRobin.RRSchedule: with a non-positive burst the clock can move backwards. The pairwise non-overlap of slices is therefore stated only for positive bursts.

## Findings

| source | as written | input that shows it | evidently intended | confidence | as-written member | corrected member |
|---|---|---|---|---|---|---|
| Project1/main.go:108-110 | the FCFS wait is recomputed only when the arrival is positive, so a later process arriving at 0 reuses the previous wait | processes (id 1, arrival 0, burst 5) and (id 2, arrival 0, burst 3): process 2 reports wait 0 and exit 3, but its Gantt slice stops at 8 | recompute the wait from the service clock for every process, so the exit equals the slice's stop; the corrected wait is not clamped at 0, because with a clamp the exit would no longer equal the slice's stop when the clock lags behind the arrival | not executed | Fcfs.ZeroArrivalReusesWait | Fcfs.CorrectedWait |
