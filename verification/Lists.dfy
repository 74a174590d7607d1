/** How the queue operations move tasklets between places. */
module Lists {
  import opened Base
  import opened Queues
  import opened Invariant

  lemma ListPush(xs: seq<Tid>, pl: Placement, p: Place, t: Tid)
    requires ListOk(xs, pl, p) && t < |pl| && pl[t] != p
    ensures ListOk(xs + [t], pl[t := p], p)
  {
  }

  /** The head of a list goes to place q. */
  lemma ListPop(xs: seq<Tid>, pl: Placement, p: Place, q: Place)
    requires ListOk(xs, pl, p) && xs != [] && q != p
    ensures xs[0] < |pl| && ListOk(xs[1..], pl[xs[0] := q], p)
  {
    assert xs[0] in xs;
    DistinctTail(xs);
  }

  /** A tasklet outside a list moves, but not into it. */
  lemma ListApart(xs: seq<Tid>, pl: Placement, p: Place, t: Tid, q: Place)
    requires ListOk(xs, pl, p) && t < |pl| && pl[t] != p && q != p
    ensures ListOk(xs, pl[t := q], p)
  {
  }

  lemma ListRemove(xs: seq<Tid>, pl: Placement, p: Place, t: Tid, q: Place)
    requires ListOk(xs, pl, p) && t < |pl| && q != p
    ensures ListOk(Without(xs, t), pl[t := q], p)
  {
    WithoutMembers(xs, t);
  }

  lemma {:induction false} InsertMembers(tasks: seq<Task>, xs: seq<Tid>, t: Tid)
    requires Distinct(xs) && t !in xs
    ensures Distinct(InsertByWake(tasks, xs, t))
    ensures forall y :: y in InsertByWake(tasks, xs, t) <==> y == t || y in xs
  {
    if xs == [] || WakeOf(tasks, t) < WakeOf(tasks, xs[0]) {
    } else {
      DistinctTail(xs);
      InsertMembers(tasks, xs[1..], t);
    }
  }

  lemma SortedHead(tasks: seq<Task>, xs: seq<Tid>)
    requires SortedByWake(tasks, xs) && xs != []
    ensures SortedByWake(tasks, xs[1..])
    ensures forall y :: y in xs ==> WakeOf(tasks, xs[0]) <= WakeOf(tasks, y)
  {
  }

  /** The insertion keeps the sleepers ordered by deadline. */
  lemma {:induction false} InsertSorted(tasks: seq<Task>, xs: seq<Tid>, t: Tid)
    requires SortedByWake(tasks, xs)
    ensures SortedByWake(tasks, InsertByWake(tasks, xs, t))
    ensures forall y :: y in InsertByWake(tasks, xs, t) ==> y == t || y in xs
  {
    if xs == [] || WakeOf(tasks, t) < WakeOf(tasks, xs[0]) {
    } else {
      SortedHead(tasks, xs);
      InsertSorted(tasks, xs[1..], t);
      var ys := InsertByWake(tasks, xs[1..], t);
      forall y | y in ys ensures WakeOf(tasks, xs[0]) <= WakeOf(tasks, y) {
      }
    }
  }

  lemma ListInsert(tasks: seq<Task>, xs: seq<Tid>, pl: Placement, p: Place, t: Tid)
    requires ListOk(xs, pl, p) && t < |pl| && pl[t] != p
    ensures ListOk(InsertByWake(tasks, xs, t), pl[t := p], p)
  {
    InsertMembers(tasks, xs, t);
  }

  lemma SortedFrame(tasks: seq<Task>, tasks': seq<Task>, xs: seq<Tid>)
    requires SortedByWake(tasks, xs)
    requires forall t :: t in xs ==> WakeOf(tasks', t) == WakeOf(tasks, t)
    ensures SortedByWake(tasks', xs)
  {
  }

  lemma SortedWithout(tasks: seq<Task>, xs: seq<Tid>, t: Tid)
    requires SortedByWake(tasks, xs) && Distinct(xs)
    ensures SortedByWake(tasks, Without(xs, t))
  {
    if t in xs {
      var k :| 0 <= k < |xs| && xs[k] == t;
      WithoutAt(xs, k);
    } else {
      WithoutMembers(xs, t);
    }
  }
}
