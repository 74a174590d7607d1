/** The shape of the intrusive lists, with tasklets named by their ids: what the link fields of
    all tasklets are for a run queue or a wait list `q`, and what one insertion or removal does
    to them. */
module Links {
  import opened Base
  import opened Queues

  /** The values of one link field, tasklet by tasklet; a negative id stands for NULL. */
  type Field = seq<int>

  const NULL := -1

  function Nth(q: seq<Tid>, k: int): int {
    if 0 <= k < |q| then q[k] else NULL
  }

  /** `f` leads from every element of q to the one `step` places on, and from elsewhere nowhere. */
  ghost predicate Leads(f: Field, q: seq<Tid>, step: int) {
    && (forall k :: 0 <= k < |q| ==> q[k] < |f|)
    && (forall k {:trigger f[q[k]]} :: 0 <= k < |q| ==> f[q[k]] == Nth(q, k + step))
    && (forall t {:trigger f[t]} :: 0 <= t < |f| && t !in q ==> f[t] == NULL)
  }

  ghost predicate RunLinks(next: Field, q: seq<Tid>) {
    Distinct(q) && Leads(next, q, 1)
  }

  ghost predicate WaitLinks(next: Field, prev: Field, q: seq<Tid>) {
    Distinct(q) && Leads(next, q, 1) && Leads(prev, q, -1)
  }

  function Store(f: Field, t: int, n: int): Field {
    if 0 <= t < |f| then f[t := n] else f
  }

  lemma FirstIsLast(q: seq<Tid>)
    requires Distinct(q) && q != []
    ensures q[0] == q[|q| - 1] <==> |q| == 1
  {
  }

  lemma AppendNext(f: Field, q: seq<Tid>, t: Tid)
    requires Distinct(q) && Leads(f, q, 1) && t < |f| && t !in q
    ensures Distinct(q + [t]) && Leads(Store(f, Nth(q, |q| - 1), t), q + [t], 1)
  {
  }

  lemma AppendPrev(f: Field, q: seq<Tid>, t: Tid)
    requires Distinct(q) && Leads(f, q, -1) && t < |f| && t !in q
    ensures Leads(Store(f, t, Nth(q, |q| - 1)), q + [t], -1)
  {
  }

  lemma LeadsGrow(f: Field, q: seq<Tid>, step: int)
    requires Leads(f, q, step)
    ensures Leads(f + [NULL], q, step)
  {
  }

  lemma DropHead(f: Field, q: seq<Tid>)
    requires Distinct(q) && Leads(f, q, 1) && q != []
    ensures Distinct(q[1..]) && f[q[0]] == Nth(q, 1) && Leads(Store(f, q[0], NULL), q[1..], 1)
  {
  }

  lemma NthRemoved(q: seq<Tid>, i: nat, k: int)
    requires i < |q|
    ensures Nth(q[..i] + q[i + 1..], k) == Nth(q, if k < i then k else k + 1)
  {
  }

  lemma RemovedIs(q: seq<Tid>, i: nat)
    requires Distinct(q) && i < |q|
    ensures Without(q, q[i]) == q[..i] + q[i + 1..] && Distinct(Without(q, q[i]))
  {
    WithoutAt(q, i);
    WithoutMembers(q, q[i]);
  }

  lemma NotAmongRest(q: seq<Tid>, i: nat, t: Tid)
    requires Distinct(q) && i < |q| && t !in Without(q, q[i])
    ensures t == q[i] || t !in q
  {
    WithoutMembers(q, q[i]);
  }

  function Bypass(f: Field, q: seq<Tid>, i: nat, step: int): Field
    requires i < |q|
  {
    Store(Store(f, Nth(q, i - step), Nth(q, i + step)), q[i], NULL)
  }

  lemma BypassAt(f: Field, q: seq<Tid>, i: nat, step: int, j: nat)
    requires Distinct(q) && Leads(f, q, step) && i < |q| && j < |q| && j != i && (step == 1 || step == -1)
    ensures |Bypass(f, q, i, step)| == |f|
    ensures Bypass(f, q, i, step)[q[j]] == Nth(q, if j == i - step then i + step else j + step)
  {
  }

  lemma BypassElsewhere(f: Field, q: seq<Tid>, i: nat, step: int, t: nat)
    requires Distinct(q) && Leads(f, q, step) && i < |q| && t < |f| && (t == q[i] || t !in q) && (step == 1 || step == -1)
    ensures Bypass(f, q, i, step)[t] == NULL
  {
  }

  lemma RemovedStep(f: Field, q: seq<Tid>, i: nat, step: int, k: nat)
    requires Distinct(q) && Leads(f, q, step) && i < |q| && k < |q| - 1 && (step == 1 || step == -1)
    ensures var q', f' := q[..i] + q[i + 1..], Bypass(f, q, i, step);
            q'[k] < |f'| && f'[q'[k]] == Nth(q', k + step)
  {
    NthRemoved(q, i, k);
    NthRemoved(q, i, k + step);
    BypassAt(f, q, i, step, if k < i then k else k + 1);
  }

  /** Unlinking the element at index i: its neighbour on one side is led to its neighbour on the
      other, and it leads nowhere itself. */
  lemma RemoveLeads(f: Field, q: seq<Tid>, i: nat, step: int)
    requires Distinct(q) && Leads(f, q, step) && i < |q| && (step == 1 || step == -1)
    ensures Leads(Bypass(f, q, i, step), Without(q, q[i]), step)
  {
    var q', f' := Without(q, q[i]), Bypass(f, q, i, step);
    RemovedIs(q, i);
    forall k | 0 <= k < |q'| ensures q'[k] < |f'| && f'[q'[k]] == Nth(q', k + step) {
      RemovedStep(f, q, i, step, k);
    }
    forall t | 0 <= t < |f'| && t !in q' ensures f'[t] == NULL {
      NotAmongRest(q, i, t);
      BypassElsewhere(f, q, i, step, t);
    }
  }

  /** All that unpark needs to know about the list with its element at index i removed. */
  lemma RemovedWait(next: Field, prev: Field, q: seq<Tid>, i: nat)
    requires WaitLinks(next, prev, q) && i < |q|
    ensures q[i] < |next| && q[i] < |prev| && next[q[i]] == Nth(q, i + 1) && prev[q[i]] == Nth(q, i - 1)
    ensures WaitLinks(Bypass(next, q, i, 1), Bypass(prev, q, i, -1), Without(q, q[i]))
  {
    RemoveLeads(next, q, i, 1);
    RemoveLeads(prev, q, i, -1);
    RemovedIs(q, i);
  }

  /** The ends of the list that remains when the element at index i is removed. */
  ghost predicate RestOf(q: seq<Tid>, i: nat, rest: seq<Tid>) {
    && Nth(rest, 0) == (if Nth(q, i - 1) == NULL then Nth(q, i + 1) else Nth(q, 0))
    && Nth(rest, |rest| - 1) == (if Nth(q, i + 1) == NULL then Nth(q, i - 1) else Nth(q, |q| - 1))
  }

  lemma EndsOfRest(q: seq<Tid>, i: nat, rest: seq<Tid>)
    requires i < |q| && rest == q[..i] + q[i + 1..]
    ensures RestOf(q, i, rest)
  {
  }

  lemma RemovedEnds(q: seq<Tid>, i: nat, rest: seq<Tid>)
    requires Distinct(q) && i < |q| && rest == Without(q, q[i])
    ensures RestOf(q, i, rest)
  {
    WithoutAt(q, i);
    EndsOfRest(q, i, rest);
  }
}
