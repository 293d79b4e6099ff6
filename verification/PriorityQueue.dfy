/** The bounded pending queue: every enqueue pushes at the back and stable-sorts
    by descending priority, every drain removes the front.

    The refinement below compares it with an ideal queue that keeps arrivals in
    order and, on a drain, takes the earliest entry of maximal priority. */
module PriorityQueue {
  import opened Types

  datatype Entry = Entry(priority: int, id: Id)

  // ----- the stable sort -----

  /** Where a stable descending sort puts a late arrival. */
  function InsertLast(s: seq<Entry>, e: Entry): seq<Entry> {
    if s == [] || s[|s| - 1].priority >= e.priority then s + [e]
    else InsertLast(s[..|s| - 1], e) + [s[|s| - 1]]
  }

  function StableSort(s: seq<Entry>): seq<Entry> {
    if s == [] then [] else InsertLast(StableSort(s[..|s| - 1]), s[|s| - 1])
  }

  ghost predicate Descending(s: seq<Entry>) {
    forall i, j :: 0 <= i < j < |s| ==> s[i].priority >= s[j].priority
  }

  /** The entries of one priority, in order. */
  function OfPriority(s: seq<Entry>, p: int): seq<Entry> {
    if s == [] then []
    else OfPriority(s[..|s| - 1], p) + OfPart(s[|s| - 1], p)
  }

  function OfPart(e: Entry, p: int): seq<Entry> {
    if e.priority == p then [e] else []
  }

  lemma OfPriorityAppend(s: seq<Entry>, e: Entry, p: int)
    ensures OfPriority(s + [e], p) == OfPriority(s, p) + OfPart(e, p)
  {
    assert (s + [e])[..|s|] == s;
  }

  lemma {:induction false} InsertLastContents(s: seq<Entry>, e: Entry)
    ensures multiset(InsertLast(s, e)) == multiset(s) + multiset{e}
  {
    if s == [] || s[|s| - 1].priority >= e.priority {
    } else {
      var front, last := s[..|s| - 1], s[|s| - 1];
      assert s == front + [last];
      InsertLastContents(front, e);
    }
  }

  lemma InsertLastMembers(s: seq<Entry>, e: Entry, x: Entry)
    ensures x in InsertLast(s, e) <==> x in s || x == e
  {
    InsertLastContents(s, e);
    assert x in InsertLast(s, e) <==> x in multiset(InsertLast(s, e));
    assert x in s <==> x in multiset(s);
  }

  lemma {:induction false} InsertLastDescending(s: seq<Entry>, e: Entry)
    requires Descending(s)
    ensures Descending(InsertLast(s, e))
  {
    if s == [] || s[|s| - 1].priority >= e.priority {
    } else {
      var front, last := s[..|s| - 1], s[|s| - 1];
      InsertLastDescending(front, e);
      var r := InsertLast(front, e);
      forall i | 0 <= i < |r|
        ensures r[i].priority >= last.priority
      {
        InsertLastMembers(front, e, r[i]);
        assert r[i] in r;
      }
    }
  }

  lemma {:induction false} InsertLastKeepsOrder(s: seq<Entry>, e: Entry, p: int)
    requires Descending(s)
    ensures OfPriority(InsertLast(s, e), p) == OfPriority(s + [e], p)
  {
    OfPriorityAppend(s, e, p);
    if s == [] || s[|s| - 1].priority >= e.priority {
    } else {
      var front, last := s[..|s| - 1], s[|s| - 1];
      assert s == front + [last];
      InsertLastKeepsOrder(front, e, p);
      calc {
        OfPriority(InsertLast(s, e), p);
        { OfPriorityAppend(InsertLast(front, e), last, p); OfPriorityAppend(front, e, p); }
        (OfPriority(front, p) + OfPart(e, p)) + OfPart(last, p);
        { assert OfPart(e, p) == [] || OfPart(last, p) == []; }
        (OfPriority(front, p) + OfPart(last, p)) + OfPart(e, p);
        { OfPriorityAppend(front, last, p); }
        OfPriority(s, p) + OfPart(e, p);
      }
    }
  }

  /** StableSort meets the specification of a stable descending sort: sorted,
      a permutation, and each priority class keeps its order of arrival. */
  lemma {:induction false} StableSortIsStable(s: seq<Entry>, p: int)
    ensures Descending(StableSort(s))
    ensures multiset(StableSort(s)) == multiset(s)
    ensures OfPriority(StableSort(s), p) == OfPriority(s, p)
  {
    if s != [] {
      var front, last := s[..|s| - 1], s[|s| - 1];
      assert s == front + [last];
      StableSortIsStable(front, p);
      var r := StableSort(front);
      InsertLastDescending(r, last);
      InsertLastContents(r, last);
      InsertLastKeepsOrder(r, last, p);
      OfPriorityAppend(r, last, p);
      OfPriorityAppend(front, last, p);
    }
  }

  lemma StableSortMembers(s: seq<Entry>, x: Entry)
    ensures x in StableSort(s) <==> x in s
  {
    StableSortIsStable(s, 0);
    assert x in StableSort(s) <==> x in multiset(StableSort(s));
    assert x in s <==> x in multiset(s);
  }

  /** Sorting an already sorted sequence changes nothing. */
  lemma {:induction false} StableSortOfDescending(s: seq<Entry>)
    requires Descending(s)
    ensures StableSort(s) == s
  {
    if s != [] {
      StableSortOfDescending(s[..|s| - 1]);
    }
  }

  // ----- the queue's two operations -----

  /** `enqueue`: refused when full, otherwise push and stable-sort. */
  function Push(pending: seq<Entry>, cap: nat, e: Entry): seq<Entry> {
    if |pending| >= cap then pending else StableSort(pending + [e])
  }

  /** The earliest entry of maximal priority. */
  function Best(arrivals: seq<Entry>): (k: nat)
    requires arrivals != []
    ensures k < |arrivals|
    ensures forall i :: 0 <= i < |arrivals| ==> arrivals[i].priority <= arrivals[k].priority
    ensures forall i :: 0 <= i < k ==> arrivals[i].priority < arrivals[k].priority
  {
    if |arrivals| == 1 then 0
    else
      var k := Best(arrivals[..|arrivals| - 1]);
      if arrivals[|arrivals| - 1].priority > arrivals[k].priority then |arrivals| - 1 else k
  }

  function Without<T>(s: seq<T>, k: nat): seq<T>
    requires k < |s|
  {
    s[..k] + s[k + 1..]
  }

  /** Pushing onto the sorted queue sorts the arrivals. */
  lemma PushSortsArrivals(arrivals: seq<Entry>, e: Entry)
    ensures StableSort(StableSort(arrivals) + [e]) == StableSort(arrivals + [e])
  {
    SortAppend(StableSort(arrivals), e);
    SortAppend(arrivals, e);
    StableSortIsStable(arrivals, 0);
    StableSortOfDescending(StableSort(arrivals));
  }

  lemma InsertLastTail(s: seq<Entry>, e: Entry)
    requires s != [] && s[0].priority >= e.priority
    ensures InsertLast(s, e) != [] && InsertLast(s, e)[0] == s[0]
    ensures InsertLast(s, e)[1..] == InsertLast(s[1..], e)
  {
    if |s| == 1 || s[|s| - 1].priority >= e.priority {
    } else {
      var front, last := s[..|s| - 1], s[|s| - 1];
      InsertLastTail(front, e);
      assert s[1..][..|s| - 2] == front[1..];
      assert s[1..][|s| - 2] == last;
      assert InsertLast(s, e)[1..] == InsertLast(front, e)[1..] + [last];
    }
  }

  lemma InsertLastFront(s: seq<Entry>, e: Entry)
    requires forall x :: x in s ==> x.priority < e.priority
    ensures InsertLast(s, e) == [e] + s
  {
    if s != [] {
      InsertLastFront(s[..|s| - 1], e);
      assert s == s[..|s| - 1] + [s[|s| - 1]];
    }
  }

  /** The front of the sorted queue is the ideal queue's choice, and removing it
      leaves the remaining arrivals sorted. */
  lemma {:induction false} FrontIsBest(arrivals: seq<Entry>)
    requires arrivals != []
    ensures StableSort(arrivals) != []
    ensures StableSort(arrivals)[0] == arrivals[Best(arrivals)]
    ensures StableSort(arrivals)[1..] == StableSort(Without(arrivals, Best(arrivals)))
  {
    var n := |arrivals| - 1;
    var front, last := arrivals[..n], arrivals[n];
    assert arrivals == front + [last];
    if n == 0 {
      assert StableSort(arrivals) == InsertLast(StableSort([]), last);
      assert Without(arrivals, 0) == [];
    } else {
      FrontIsBest(front);
      if last.priority > front[Best(front)].priority {
        LastIsBest(front, last);
        assert Without(arrivals, n) == front;
      } else {
        LastIsNotBest(front, last);
      }
    }
  }

  lemma LastIsNotBest(front: seq<Entry>, last: Entry)
    requires front != [] && last.priority <= front[Best(front)].priority
    requires StableSort(front) != [] && StableSort(front)[0] == front[Best(front)]
    requires StableSort(front)[1..] == StableSort(Without(front, Best(front)))
    ensures StableSort(front + [last]) != []
    ensures StableSort(front + [last])[0] == front[Best(front)]
    ensures StableSort(front + [last])[1..] == StableSort(Without(front + [last], Best(front)))
  {
    var k := Best(front);
    SortAppend(front, last);
    InsertLastTail(StableSort(front), last);
    SortAppend(Without(front, k), last);
    WithoutAppend(front, last, k);
  }

  lemma SortAppend(s: seq<Entry>, e: Entry)
    ensures StableSort(s + [e]) == InsertLast(StableSort(s), e)
  {
    assert (s + [e])[..|s|] == s;
  }

  lemma WithoutAppend<T>(s: seq<T>, x: T, k: nat)
    requires k < |s|
    ensures Without(s + [x], k) == Without(s, k) + [x]
  {
  }

  lemma LastIsBest(front: seq<Entry>, last: Entry)
    requires front != [] && last.priority > front[Best(front)].priority
    ensures InsertLast(StableSort(front), last) == [last] + StableSort(front)
  {
    forall x | x in StableSort(front)
      ensures x.priority < last.priority
    {
      StableSortMembers(front, x);
    }
    InsertLastFront(StableSort(front), last);
  }

  // ----- refinement over whole runs -----

  datatype QueueOp = Enqueue(e: Entry) | Drain

  datatype Concrete = Concrete(pending: seq<Entry>, accepted: seq<Entry>, drained: seq<Entry>)

  function ConcreteStep(s: Concrete, cap: nat, op: QueueOp): Concrete {
    match op
    case Enqueue(e) =>
      if |s.pending| >= cap then s
      else Concrete(Push(s.pending, cap, e), s.accepted + [e], s.drained)
    case Drain =>
      if s.pending == [] then s
      else Concrete(s.pending[1..], s.accepted, s.drained + [s.pending[0]])
  }

  datatype Ideal = Ideal(arrivals: seq<Entry>, accepted: seq<Entry>, drained: seq<Entry>)

  function IdealStep(s: Ideal, cap: nat, op: QueueOp): Ideal {
    match op
    case Enqueue(e) =>
      if |s.arrivals| >= cap then s
      else Ideal(s.arrivals + [e], s.accepted + [e], s.drained)
    case Drain =>
      if s.arrivals == [] then s
      else
        var k := Best(s.arrivals);
        Ideal(Without(s.arrivals, k), s.accepted, s.drained + [s.arrivals[k]])
  }

  function RunConcrete(cap: nat, ops: seq<QueueOp>): Concrete {
    if ops == [] then Concrete([], [], [])
    else ConcreteStep(RunConcrete(cap, ops[..|ops| - 1]), cap, ops[|ops| - 1])
  }

  function RunIdeal(cap: nat, ops: seq<QueueOp>): Ideal {
    if ops == [] then Ideal([], [], [])
    else IdealStep(RunIdeal(cap, ops[..|ops| - 1]), cap, ops[|ops| - 1])
  }

  lemma SortedLength(s: seq<Entry>)
    ensures |StableSort(s)| == |s|
  {
    StableSortIsStable(s, 0);
    assert |multiset(StableSort(s))| == |StableSort(s)| && |multiset(s)| == |s|;
  }

  ghost predicate Refines(c: Concrete, i: Ideal, cap: nat) {
    && c.accepted == i.accepted
    && c.drained == i.drained
    && c.pending == StableSort(i.arrivals)
    && multiset(c.accepted) == multiset(c.drained) + multiset(c.pending)
    && |c.pending| <= cap
  }

  lemma EnqueueRefines(c: Concrete, i: Ideal, cap: nat, e: Entry)
    requires Refines(c, i, cap)
    ensures Refines(ConcreteStep(c, cap, Enqueue(e)), IdealStep(i, cap, Enqueue(e)), cap)
  {
    SortedLength(i.arrivals);
    if |c.pending| < cap {
      PushSortsArrivals(i.arrivals, e);
      PushContents(c.pending, cap, e);
    }
  }

  lemma DrainRefines(c: Concrete, i: Ideal, cap: nat)
    requires Refines(c, i, cap)
    ensures Refines(ConcreteStep(c, cap, Drain), IdealStep(i, cap, Drain), cap)
  {
    SortedLength(i.arrivals);
    if i.arrivals != [] {
      FrontIsBest(i.arrivals);
      assert c.pending == [c.pending[0]] + c.pending[1..];
    }
  }

  /** Over any run of enqueues and drains the sorted bounded queue accepts the
      same entries and drains them in the same order as the ideal one, nothing
      is lost or duplicated, and the cap is respected. */
  lemma {:induction false} QueueRefinesIdeal(cap: nat, ops: seq<QueueOp>)
    ensures Refines(RunConcrete(cap, ops), RunIdeal(cap, ops), cap)
  {
    if ops != [] {
      var before := ops[..|ops| - 1];
      QueueRefinesIdeal(cap, before);
      match ops[|ops| - 1]
      case Enqueue(e) => EnqueueRefines(RunConcrete(cap, before), RunIdeal(cap, before), cap, e);
      case Drain => DrainRefines(RunConcrete(cap, before), RunIdeal(cap, before), cap);
    }
  }

  // ----- what the lifecycle needs: which ids are queued -----

  function Ids(s: seq<Entry>): set<Id> {
    set e | e in s :: e.id
  }

  lemma PushContents(pending: seq<Entry>, cap: nat, e: Entry)
    requires |pending| < cap
    ensures multiset(Push(pending, cap, e)) == multiset(pending) + multiset{e}
    ensures |Push(pending, cap, e)| == |pending| + 1
  {
    StableSortIsStable(pending + [e], 0);
    SortedLength(pending + [e]);
  }

  lemma PushIds(pending: seq<Entry>, cap: nat, e: Entry)
    requires |pending| < cap
    ensures Ids(Push(pending, cap, e)) == Ids(pending) + {e.id}
  {
    var r := Push(pending, cap, e);
    forall x
      ensures x in r <==> x in pending || x == e
    {
      StableSortMembers(pending + [e], x);
    }
  }

  lemma IdsWithout(s: seq<Entry>, k: nat)
    requires k < |s|
    ensures Ids(Without(s, k)) <= Ids(s) <= Ids(Without(s, k)) + {s[k].id}
  {
    forall e | e in s
      ensures e.id in Ids(Without(s, k)) + {s[k].id}
    {
      var j :| 0 <= j < |s| && s[j] == e;
      if j != k {
        assert Without(s, k)[if j < k then j else j - 1] == e;
      }
    }
  }
}
