/** Records shared by every scheduler: the process record, a slice of the
    Gantt timeline and a row of the schedule table, with the sums the
    schedulers accumulate over them. */
module Processes {

  /** A process. `id`, `arrival`, `burst` and `priority` come from the input;
      `remaining`, `complete`, `turnaround` and `wait` are the bookkeeping of
      a scheduler's working copy. Go's int64 is modelled as an unbounded int. */
  datatype Process = Process(
    id: int,
    arrival: int,
    burst: int,
    priority: int,
    remaining: int,
    complete: int,
    turnaround: int,
    wait: int)

  /** One interval of the Gantt timeline: process `pid` ran from `start` to `stop`. */
  datatype TimeSlice = TimeSlice(pid: int, start: int, stop: int)

  /** One row of the schedule table: ID, Priority, Burst, Arrival, Wait,
      Turnaround and Exit, as integers rather than rendered text. */
  datatype Row = Row(
    id: int,
    priority: int,
    burst: int,
    arrival: int,
    wait: int,
    turnaround: int,
    completion: int)

  /** What the input said about a process, without any bookkeeping. */
  datatype Descriptor = Descriptor(id: int, arrival: int, burst: int, priority: int)

  function Describe(p: Process): Descriptor {
    Descriptor(p.id, p.arrival, p.burst, p.priority)
  }

  function DescribeRow(r: Row): Descriptor {
    Descriptor(r.id, r.arrival, r.burst, r.priority)
  }

  function Descriptors(s: seq<Process>): (d: seq<Descriptor>)
    ensures |d| == |s|
    ensures forall i :: 0 <= i < |s| ==> d[i] == Describe(s[i])
  {
    seq(|s|, i requires 0 <= i < |s| => Describe(s[i]))
  }

  function RowDescriptors(rows: seq<Row>): (d: seq<Descriptor>)
    ensures |d| == |rows|
    ensures forall i :: 0 <= i < |rows| ==> d[i] == DescribeRow(rows[i])
  {
    seq(|rows|, i requires 0 <= i < |rows| => DescribeRow(rows[i]))
  }

  /** `minimum` of two integers. */
  function Minimum(x: int, y: int): (m: int)
    ensures m <= x && m <= y
    ensures m == x || m == y
  {
    if x < y then x else y
  }

  /** Sum of `f` over a sequence, accumulated from the front as the Go loops do. */
  function SumOf<T>(s: seq<T>, f: T -> int): int {
    if s == [] then 0 else SumOf(s[..|s| - 1], f) + f(s[|s| - 1])
  }

  function BurstOf(p: Process): int { p.burst }

  function RemainingOf(p: Process): int { p.remaining }

  function WaitOf(r: Row): int { r.wait }

  function TurnaroundOf(r: Row): int { r.turnaround }

  /** Total CPU work asked for by a sequence of processes. */
  function BurstSum(s: seq<Process>): int { SumOf(s, BurstOf) }

  lemma {:induction false} SumOfConcat<T>(a: seq<T>, b: seq<T>, f: T -> int)
    ensures SumOf(a + b, f) == SumOf(a, f) + SumOf(b, f)
    decreases |b|
  {
    if b == [] {
      assert a + b == a;
    } else {
      assert (a + b)[..|a + b| - 1] == a + b[..|b| - 1];
      SumOfConcat(a, b[..|b| - 1], f);
    }
  }

  lemma SumOfSnoc<T>(s: seq<T>, x: T, f: T -> int)
    ensures SumOf(s + [x], f) == SumOf(s, f) + f(x)
  {
    assert (s + [x])[..|s + [x]| - 1] == s;
  }

  lemma SumOfFront<T>(s: seq<T>, f: T -> int)
    requires s != []
    ensures SumOf(s, f) == f(s[0]) + SumOf(s[1..], f)
  {
    assert s == [s[0]] + s[1..];
    SumOfConcat([s[0]], s[1..], f);
    assert [s[0]][..0] == [];
  }

  /** The last element of `a` occurs somewhere in a permutation `b` of `a`;
      removing it from both leaves permutations of each other. */
  lemma LastMatched<T>(a: seq<T>, b: seq<T>) returns (j: int)
    requires multiset(a) == multiset(b) && a != []
    ensures 0 <= j < |b| && b[j] == a[|a| - 1]
    ensures b == b[..j] + [b[j]] + b[j + 1..]
    ensures multiset(a[..|a| - 1]) == multiset(b[..j] + b[j + 1..])
  {
    var x := a[|a| - 1];
    assert a == a[..|a| - 1] + [x];
    assert x in multiset(b);
    j :| 0 <= j < |b| && b[j] == x;
    assert b == b[..j] + [x] + b[j + 1..];
    calc {
      multiset(a[..|a| - 1]);
      multiset(a) - multiset{x};
      multiset(b[..j]) + multiset{x} + multiset(b[j + 1..]) - multiset{x};
      multiset(b[..j] + b[j + 1..]);
    }
  }

  /** A sum does not depend on the order of the elements. */
  lemma {:induction false} SumOfPermutation<T>(a: seq<T>, b: seq<T>, f: T -> int)
    requires multiset(a) == multiset(b)
    ensures SumOf(a, f) == SumOf(b, f)
    decreases |a|
  {
    if a == [] {
      assert |b| == |multiset(b)| == 0;
    } else {
      var j := LastMatched(a, b);
      var x := b[j];
      SumOfPermutation(a[..|a| - 1], b[..j] + b[j + 1..], f);
      assert SumOf(a, f) == SumOf(a[..|a| - 1], f) + f(x);
      SumOfConcat(b[..j] + [x], b[j + 1..], f);
      SumOfConcat(b[..j], [x], f);
      SumOfConcat(b[..j], b[j + 1..], f);
      assert SumOf([x], f) == f(x) by {
        assert [x][..0] == [];
      }
    }
  }

  lemma {:induction false} SumOfNonnegative<T>(s: seq<T>, f: T -> int)
    requires forall x :: x in s ==> f(x) >= 0
    ensures SumOf(s, f) >= 0
  {
    if s != [] {
      assert s[|s| - 1] in s;
      assert forall x :: x in s[..|s| - 1] ==> x in s;
      SumOfNonnegative(s[..|s| - 1], f);
    }
  }

  lemma DescriptorsConcat(a: seq<Process>, b: seq<Process>)
    ensures Descriptors(a + b) == Descriptors(a) + Descriptors(b)
  {
  }

  /** Reordering processes reorders their descriptors the same way. */
  lemma {:induction false} DescriptorsPermutation(a: seq<Process>, b: seq<Process>)
    requires multiset(a) == multiset(b)
    ensures multiset(Descriptors(a)) == multiset(Descriptors(b))
    decreases |a|
  {
    if a == [] {
      assert |b| == |multiset(b)| == 0;
    } else {
      var j := LastMatched(a, b);
      var x := b[j];
      DescriptorsPermutation(a[..|a| - 1], b[..j] + b[j + 1..]);
      assert a == a[..|a| - 1] + [x];
      DescriptorsConcat(a[..|a| - 1], [x]);
      DescriptorsConcat(b[..j] + [x], b[j + 1..]);
      DescriptorsConcat(b[..j], [x]);
      DescriptorsConcat(b[..j], b[j + 1..]);
    }
  }

  /** Total wait over the rows of a schedule table. */
  function WaitTotal(rows: seq<Row>): int { SumOf(rows, WaitOf) }

  /** Total turnaround over the rows of a schedule table. */
  function TurnaroundTotal(rows: seq<Row>): int { SumOf(rows, TurnaroundOf) }
}
