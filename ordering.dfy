/** The three orderings the schedulers sort their queues by, and the sort
    itself. Each comparator is a lexicographic strict order on a chain of
    keys of the process record. */
module Ordering {
  import opened Processes

  /** Arrival order: earlier arrival first, then shorter burst. */
  predicate ArrivalLess(a: Process, b: Process) {
    a.arrival < b.arrival || (a.arrival == b.arrival && a.burst < b.burst)
  }

  /** Deploy (shortest remaining time) order: less remaining time first, then earlier arrival. */
  predicate DeployLess(a: Process, b: Process) {
    a.remaining < b.remaining || (a.remaining == b.remaining && a.arrival < b.arrival)
  }

  /** Priority order: lower priority value first, then shorter burst, then earlier arrival. */
  predicate PriorityLess(a: Process, b: Process) {
    a.priority < b.priority
    || (a.priority == b.priority && a.burst < b.burst)
    || (a.priority == b.priority && a.burst == b.burst && a.arrival < b.arrival)
  }

  /** The closed set of orderings; the preemptive engine is parameterised by one. */
  datatype Order = ArrivalOrder | DeployOrder | PriorityOrder

  predicate Less(o: Order, a: Process, b: Process) {
    match o
    case ArrivalOrder => ArrivalLess(a, b)
    case DeployOrder => DeployLess(a, b)
    case PriorityOrder => PriorityLess(a, b)
  }

  /** The chain of keys each ordering compares, most significant first. */
  function Key(o: Order, p: Process): (k: seq<int>)
    ensures |k| == (if o == PriorityOrder then 3 else 2)
  {
    match o
    case ArrivalOrder => [p.arrival, p.burst]
    case DeployOrder => [p.remaining, p.arrival]
    case PriorityOrder => [p.priority, p.burst, p.arrival]
  }

  /** Lexicographic strict order on equally long key chains. */
  predicate LexLess(x: seq<int>, y: seq<int>)
    requires |x| == |y|
  {
    x != [] && (x[0] < y[0] || (x[0] == y[0] && LexLess(x[1..], y[1..])))
  }

  lemma {:induction false} LexLessIrreflexive(x: seq<int>)
    ensures !LexLess(x, x)
  {
    if x != [] {
      LexLessIrreflexive(x[1..]);
    }
  }

  lemma {:induction false} LexLessTransitive(x: seq<int>, y: seq<int>, z: seq<int>)
    requires |x| == |y| == |z|
    requires LexLess(x, y) && LexLess(y, z)
    ensures LexLess(x, z)
  {
    if x[0] == y[0] == z[0] {
      LexLessTransitive(x[1..], y[1..], z[1..]);
    }
  }

  /** Two chains neither of which precedes the other are equal. */
  lemma {:induction false} LexLessTotal(x: seq<int>, y: seq<int>)
    requires |x| == |y|
    ensures !LexLess(x, y) && !LexLess(y, x) <==> x == y
  {
    if x == y {
      LexLessIrreflexive(x);
    } else if x != [] && x[0] == y[0] {
      LexLessTotal(x[1..], y[1..]);
      assert x == [x[0]] + x[1..] && y == [y[0]] + y[1..];
    }
  }

  /** Each comparator is exactly the lexicographic order on its key chain. */
  lemma LessIsLexOnKey(o: Order, a: Process, b: Process)
    ensures Less(o, a, b) <==> LexLess(Key(o, a), Key(o, b))
  {
    var ka, kb := Key(o, a), Key(o, b);
    var n := |ka|;
    assert LexLess(ka[n..], kb[n..]) == false;
    if o == PriorityOrder {
      assert LexLess(ka[2..], kb[2..]) == (ka[2] < kb[2]) by {
        assert ka[2..][1..] == ka[3..];
        assert kb[2..][1..] == kb[3..];
      }
    }
    assert LexLess(ka[1..], kb[1..]) == (ka[1] < kb[1] || (ka[1] == kb[1] && LexLess(ka[2..], kb[2..]))) by {
      assert ka[1..][1..] == ka[2..];
      assert kb[1..][1..] == kb[2..];
    }
  }

  lemma LessIrreflexive(o: Order, a: Process)
    ensures !Less(o, a, a)
  {
    LessIsLexOnKey(o, a, a);
    LexLessIrreflexive(Key(o, a));
  }

  lemma LessTransitive(o: Order, a: Process, b: Process, c: Process)
    requires Less(o, a, b) && Less(o, b, c)
    ensures Less(o, a, c)
  {
    LessIsLexOnKey(o, a, b);
    LessIsLexOnKey(o, b, c);
    LessIsLexOnKey(o, a, c);
    LexLessTransitive(Key(o, a), Key(o, b), Key(o, c));
  }

  /** Two processes are tied under an ordering exactly when their keys agree. */
  lemma LessTies(o: Order, a: Process, b: Process)
    ensures !Less(o, a, b) && !Less(o, b, a) <==> Key(o, a) == Key(o, b)
  {
    LessIsLexOnKey(o, a, b);
    LessIsLexOnKey(o, b, a);
    LexLessTotal(Key(o, a), Key(o, b));
  }

  /** Running a process for one tick never lets a process it was not preceded by overtake it. */
  lemma DecrementKeepsPlace(o: Order, e: Process, p: Process)
    requires !Less(o, e, p)
    ensures !Less(o, e, p.(remaining := p.remaining - 1))
  {
  }

  /** No later element is strictly less than an earlier one. */
  ghost predicate Sorted(o: Order, s: seq<Process>) {
    forall i, j :: 0 <= i < j < |s| ==> !Less(o, s[j], s[i])
  }

  /** Inserting into a sorted queue in front of the first element that `x`
      precedes, which is where an insertion sort leaves it. */
  function Insert(o: Order, x: Process, s: seq<Process>): (r: seq<Process>)
    requires Sorted(o, s)
    ensures multiset(r) == multiset(s) + multiset{x}
    ensures Sorted(o, r)
  {
    if s == [] then [x]
    else if Less(o, x, s[0]) then
      InsertFrontSorted(o, x, s);
      [x] + s
    else
      var t := Insert(o, x, s[1..]);
      assert multiset(s) == multiset{s[0]} + multiset(s[1..]) by {
        assert s == [s[0]] + s[1..];
      }
      PrependSorted(o, s[0], x, s[1..], t);
      [s[0]] + t
  }

  lemma InsertFrontSorted(o: Order, x: Process, s: seq<Process>)
    requires Sorted(o, s) && s != [] && Less(o, x, s[0])
    ensures Sorted(o, [x] + s)
  {
    forall k | 0 <= k < |s|
      ensures !Less(o, s[k], x)
    {
      if Less(o, s[k], x) {
        LessTransitive(o, s[k], x, s[0]);
        if k == 0 {
          LessIrreflexive(o, s[0]);
        }
      }
    }
  }

  lemma PrependSorted(o: Order, y: Process, x: Process, rest: seq<Process>, t: seq<Process>)
    requires Sorted(o, [y] + rest) && !Less(o, x, y)
    requires Sorted(o, t) && multiset(t) == multiset(rest) + multiset{x}
    ensures Sorted(o, [y] + t)
  {
    forall k | 0 <= k < |t|
      ensures !Less(o, t[k], y)
    {
      assert t[k] in multiset(t);
      if t[k] != x {
        assert t[k] in rest;
        var j :| 0 <= j < |rest| && rest[j] == t[k];
        assert ([y] + rest)[j + 1] == t[k] && ([y] + rest)[0] == y;
      }
    }
  }

  /** Stable insertion sort: each element in turn is inserted into the sorted prefix. */
  function SortBy(o: Order, s: seq<Process>): (r: seq<Process>)
    ensures Sorted(o, r)
    ensures multiset(r) == multiset(s)
  {
    if s == [] then []
    else
      assert s == s[..|s| - 1] + [s[|s| - 1]];
      Insert(o, s[|s| - 1], SortBy(o, s[..|s| - 1]))
  }

  /** `sortArrivalQueue`: a permutation of the queue in arrival order. */
  function SortArrivalQueue(pq: seq<Process>): (r: seq<Process>)
    ensures multiset(r) == multiset(pq)
    ensures forall i, j :: 0 <= i < j < |r| ==> !ArrivalLess(r[j], r[i])
  {
    SortBy(ArrivalOrder, pq)
  }

  /** `sortDeployQueue`: a permutation of the queue in shortest-remaining-time order. */
  function SortDeployQueue(pq: seq<Process>): (r: seq<Process>)
    ensures multiset(r) == multiset(pq)
    ensures forall i, j :: 0 <= i < j < |r| ==> !DeployLess(r[j], r[i])
  {
    SortBy(DeployOrder, pq)
  }

  /** `sortPriorityQueue`: a permutation of the queue in priority order. */
  function SortPriorityQueue(pq: seq<Process>): (r: seq<Process>)
    ensures multiset(r) == multiset(pq)
    ensures forall i, j :: 0 <= i < j < |r| ==> !PriorityLess(r[j], r[i])
  {
    SortBy(PriorityOrder, pq)
  }
}
