/** tasklet_service over linked nodes: an intrusive singly linked run queue, an intrusive doubly
    linked wait list, and the sleepers.  Each method is proved against the operation of Queues
    with the same name: the ghost field `view` is the abstract state, and `Valid` ties it to the
    pointers. */
module TaskletService {
  import opened Base
  import opened Queues
  import opened Scans
  import opened Links

  class Tasklet {
    const id: Tid
    var state: TState
    var thr: Option<nat>
    var wake: nat
    var mail: seq<Message>
    var started: bool
    var prevWaitting: Tasklet?
    var nextWaitting: Tasklet?
    var nextRunnable: Tasklet?
    ghost var sent: seq<Message>
    ghost var got: seq<Message>
    ghost var viaTimedWait: seq<bool>

    ghost function Value(): Task
      reads `state, `thr, `wake, `mail, `started, `sent, `got, `viaTimedWait
    {
      Task(state, thr, wake, mail, started, sent, got, viaTimedWait)
    }

    constructor (id: Tid)
      ensures this.id == id && Value() == FRESH_TASK
      ensures prevWaitting == null && nextWaitting == null && nextRunnable == null
    {
      this.id := id;
      state, thr, wake, mail, started := NoStart, None, 0, [], false;
      prevWaitting, nextWaitting, nextRunnable := null, null, null;
      sent, got, viaTimedWait := [], [], [];
    }
  }

  /** The node with the given id; NULL for an id that is not in range. */
  function At(all: seq<Tasklet>, t: int): Tasklet? {
    if 0 <= t < |all| then all[t] else null
  }

  class Service {
    var headRunnables: Tasklet?
    var tailRunnables: Tasklet?
    var headWaittings: Tasklet?
    var tailWaittings: Tasklet?
    var sleepers: seq<Tasklet>       // in the order of Comp, ties kept
    var signals: nat                 // calls of _condition.notify()
    ghost var all: seq<Tasklet>      // every tasklet, at the index of its id
    ghost var vals: seq<Task>        // the abstract state, list by list
    ghost var runq: seq<Tid>
    ghost var waitq: seq<Tid>
    ghost var sleepq: seq<Tid>
    ghost var nextRun: Field         // the link fields, as ids
    ghost var nextWait: Field
    ghost var prevWait: Field

    /** The abstract state that the methods are specified by. */
    ghost function View(): Core
      reads `vals, `runq, `waitq, `sleepq, `signals
    {
      Core(vals, runq, waitq, sleepq, signals)
    }

    ghost predicate Known(t: Tasklet)
      reads `all
    {
      t.id < |all| && all[t.id] == t
    }

    ghost predicate IdsValid()
      reads `all
    {
      forall t {:trigger all[t]} :: 0 <= t < |all| ==> all[t].id == t
    }

    ghost predicate TasksValid()
      reads `all, `vals, all`state, all`thr, all`wake, all`mail, all`started, all`sent, all`got, all`viaTimedWait
    {
      && |vals| == |all|
      && forall t {:trigger vals[t]} :: 0 <= t < |all| ==> all[t].Value() == vals[t]
    }

    ghost predicate RunValid()
      reads `all, `runq, `nextRun, `headRunnables, `tailRunnables, all`nextRunnable
    {
      && RunLinks(nextRun, runq) && |nextRun| == |all|
      && headRunnables == At(all, Nth(runq, 0)) && tailRunnables == At(all, Nth(runq, |runq| - 1))
      && forall t {:trigger nextRun[t]} :: 0 <= t < |all| ==> all[t].nextRunnable == At(all, nextRun[t])
    }

    ghost predicate NextTied()
      reads `all, `nextWait, all`nextWaitting
    {
      && |nextWait| == |all|
      && forall t {:trigger nextWait[t]} :: 0 <= t < |all| ==> all[t].nextWaitting == At(all, nextWait[t])
    }

    ghost predicate PrevTied()
      reads `all, `prevWait, all`prevWaitting
    {
      && |prevWait| == |all|
      && forall t {:trigger prevWait[t]} :: 0 <= t < |all| ==> all[t].prevWaitting == At(all, prevWait[t])
    }

    ghost predicate WaitValid()
      reads `all, `waitq, `nextWait, `prevWait, `headWaittings, `tailWaittings, all`nextWaitting, all`prevWaitting
    {
      && NextTied() && PrevTied() && WaitLinks(nextWait, prevWait, waitq)
      && headWaittings == At(all, Nth(waitq, 0)) && tailWaittings == At(all, Nth(waitq, |waitq| - 1))
    }

    ghost predicate SleepersValid()
      reads `all, `sleepers, `sleepq
    {
      && |sleepers| == |sleepq|
      && forall k :: 0 <= k < |sleepq| ==> sleepq[k] < |all| && sleepers[k] == all[sleepq[k]]
    }

    ghost predicate Valid()
      reads this, all
    {
      IdsValid() && TasksValid() && RunValid() && WaitValid() && SleepersValid()
    }

    constructor ()
      ensures Valid() && all == [] && View() == Core([], [], [], [], 0)
    {
      headRunnables, tailRunnables, headWaittings, tailWaittings := null, null, null, null;
      sleepers, signals, all := [], 0, [];
      vals, runq, waitq, sleepq := [], [], [], [];
      nextRun, nextWait, prevWait := [], [], [];
    }

    /** One more tasklet is known, and no node has changed. */
    twostate predicate Gains(t: Tasklet)
      reads this
    {
      && all == old(all) + [t] && runq == old(runq) && waitq == old(waitq)
      && headRunnables == old(headRunnables) && tailRunnables == old(tailRunnables)
      && headWaittings == old(headWaittings) && tailWaittings == old(tailWaittings)
      && nextRun == old(nextRun) + [NULL] && nextWait == old(nextWait) + [NULL] && prevWait == old(prevWait) + [NULL]
    }

    twostate lemma RunGrows(t: Tasklet)
      requires old(RunValid()) && Gains(t) && t.nextRunnable == null && unchanged(old(all))
      ensures RunValid()
    {
      LeadsGrow(old(nextRun), runq, 1);
      SameNodes(old(all), t, old(nextRun), runq);
    }

    twostate lemma WaitGrows(t: Tasklet)
      requires old(WaitValid()) && Gains(t) && t.nextWaitting == null && t.prevWaitting == null && unchanged(old(all))
      ensures WaitValid()
    {
      LeadsGrow(old(nextWait), waitq, 1);
      LeadsGrow(old(prevWait), waitq, -1);
      SameNodes(old(all), t, old(nextWait), waitq);
      SameNodes(old(all), t, old(prevWait), waitq);
    }

    twostate lemma TasksGrow(t: Tasklet)
      requires old(IdsValid() && TasksValid()) && Gains(t) && unchanged(old(all))
      requires t.id == |old(all)| && t.Value() == FRESH_TASK && vals == old(vals) + [FRESH_TASK]
      ensures IdsValid() && TasksValid()
    {
      forall u {:trigger vals[u]} | 0 <= u < |all| ensures all[u].Value() == vals[u] {
        if u < |old(all)| {
          assert old(all[u].Value()) == old(vals)[u];
        }
      }
    }

    twostate lemma SleepersGrow(t: Tasklet)
      requires old(SleepersValid()) && Gains(t) && sleepers == old(sleepers) && sleepq == old(sleepq)
      ensures SleepersValid()
    {
    }

    /** A tasklet constructed for this service, not started yet. */
    method Register(t: Tasklet)
      requires Valid() && t.id == |all| && t.Value() == FRESH_TASK
      requires t.nextRunnable == null && t.nextWaitting == null && t.prevWaitting == null
      modifies this
      ensures Valid() && Known(t) && all == old(all) + [t]
      ensures View() == old(View()).(tasks := old(vals) + [FRESH_TASK])
    {
      all, vals := all + [t], vals + [FRESH_TASK];
      nextRun, nextWait, prevWait := nextRun + [NULL], nextWait + [NULL], prevWait + [NULL];
      TasksGrow(t);
      RunGrows(t);
      WaitGrows(t);
      SleepersGrow(t);
    }

    /** The link fields of a tasklet say where in the lists it is, and that it is in none. */
    lemma LinksAgree(t: Tasklet)
      requires Valid() && Known(t)
      ensures t.id !in runq ==> t.nextRunnable == null
      ensures t.id !in waitq ==> t.nextWaitting == null && t.prevWaitting == null
      ensures forall k :: 0 <= k < |runq| && runq[k] == t.id ==> t.nextRunnable == At(all, Nth(runq, k + 1))
      ensures forall k :: 0 <= k < |waitq| && waitq[k] == t.id ==>
                t.nextWaitting == At(all, Nth(waitq, k + 1)) && t.prevWaitting == At(all, Nth(waitq, k - 1))
    {
      assert t.nextRunnable == At(all, nextRun[t.id]);
      assert t.nextWaitting == At(all, nextWait[t.id]);
      assert t.prevWaitting == At(all, prevWait[t.id]);
      forall k | 0 <= k < |runq| && runq[k] == t.id ensures t.nextRunnable == At(all, Nth(runq, k + 1)) {
        assert nextRun[runq[k]] == Nth(runq, k + 1);
      }
      forall k | 0 <= k < |waitq| && waitq[k] == t.id
        ensures t.nextWaitting == At(all, Nth(waitq, k + 1)) && t.prevWaitting == At(all, Nth(waitq, k - 1))
      {
        assert nextWait[waitq[k]] == Nth(waitq, k + 1) && prevWait[waitq[k]] == Nth(waitq, k - 1);
      }
    }

    // ----- the run queue

    method EmptyRunnables() returns (empty: bool)
      requires Valid()
      ensures empty <==> runq == []
    {
      if headRunnables == null {
        assert tailRunnables == null;
        return true;
      }
      return false;
    }

    /** The stores of push_runnable into the list. */
    method LinkRunnable(t: Tasklet)
      requires IdsValid() && RunValid() && Known(t) && t.id !in runq
      modifies `headRunnables, `tailRunnables, `runq, `nextRun, all`nextRunnable
      ensures RunValid() && runq == old(runq) + [t.id]
    {
      AppendNext(nextRun, runq, t.id);
      if headRunnables == null {
        assert tailRunnables == null;
        headRunnables := t;
      } else {
        tailRunnables.nextRunnable := t;
        nextRun := Store(nextRun, runq[|runq| - 1], t.id);
      }
      tailRunnables := t;
      runq := runq + [t.id];
    }

    /** The stores of pop_runnable into the list. */
    method UnlinkRunnable() returns (t: Tasklet)
      requires IdsValid() && RunValid() && runq != []
      modifies `headRunnables, `tailRunnables, `runq, `nextRun, all`nextRunnable
      ensures RunValid() && runq == old(runq)[1..] && Known(t) && t.id == old(runq)[0]
    {
      DropHead(nextRun, runq);
      FirstIsLast(runq);
      t := headRunnables;
      if headRunnables == tailRunnables {
        headRunnables := null;
        tailRunnables := null;
      } else {
        headRunnables := headRunnables.nextRunnable;
      }
      t.nextRunnable := null;
      nextRun := Store(nextRun, t.id, NULL);
      runq := runq[1..];
    }

    method SetState(t: Tasklet, st: TState)
      requires Valid() && Known(t)
      modifies `vals, t`state
      ensures Valid() && vals == old(vals)[t.id := old(vals)[t.id].(state := st)]
    {
      t.state := st;
      vals := vals[t.id := vals[t.id].(state := st)];
    }

    method Enqueue(t: Tasklet)
      requires Valid() && Known(t) && t.id !in runq
      modifies `headRunnables, `tailRunnables, `runq, `nextRun, all`nextRunnable
      ensures Valid() && runq == old(runq) + [t.id]
    {
      LinkRunnable(t);
    }

    method Dequeue() returns (t: Tasklet)
      requires Valid() && runq != []
      modifies `headRunnables, `tailRunnables, `runq, `nextRun, all`nextRunnable
      ensures Valid() && runq == old(runq)[1..] && Known(t) && t.id == old(runq)[0]
    {
      t := UnlinkRunnable();
    }

    method PushRunnable(t: Tasklet)
      requires Valid() && Known(t) && t.id !in runq
      modifies `vals, t`state, `headRunnables, `tailRunnables, `runq, `nextRun, all`nextRunnable
      ensures Valid()
      ensures Ok(View()) == Queues.PushRunnable(old(View()), t.id)
    {
      SetState(t, Runnable);
      Enqueue(t);
    }

    method PopRunnable() returns (t: Tasklet)
      requires Valid() && runq != []
      modifies this, all
      ensures Valid() && all == old(all) && Known(t)
      ensures Ok((View(), t.id)) == Queues.PopRunnable(old(View()))
    {
      t := Dequeue();
      SetState(t, Running);
    }

    /** push_tasklet: signals the condition if the queue was empty. */
    method PushTasklet(t: Tasklet)
      requires Valid() && Known(t) && t.id !in runq
      modifies this, all
      ensures Valid() && all == old(all)
      ensures Ok(View()) == Queues.PushTasklet(old(View()), t.id)
    {
      var empty := EmptyRunnables();
      PushRunnable(t);
      if empty {
        signals := signals + 1;
      }
    }

    // ----- the wait list

    method SetNextWaitting(n: Tasklet, m: Tasklet?)
      requires IdsValid() && NextTied() && Known(n) && (m != null ==> Known(m))
      modifies `nextWait, n`nextWaitting
      ensures NextTied() && nextWait == Store(old(nextWait), n.id, if m == null then NULL else m.id)
      ensures n.nextWaitting == m
    {
      n.nextWaitting := m;
      nextWait := Store(nextWait, n.id, if m == null then NULL else m.id);
    }

    method SetPrevWaitting(n: Tasklet, m: Tasklet?)
      requires IdsValid() && PrevTied() && Known(n) && (m != null ==> Known(m))
      modifies `prevWait, n`prevWaitting
      ensures PrevTied() && prevWait == Store(old(prevWait), n.id, if m == null then NULL else m.id)
      ensures n.prevWaitting == m
    {
      n.prevWaitting := m;
      prevWait := Store(prevWait, n.id, if m == null then NULL else m.id);
    }

    /** The stores of park into the list. */
    method LinkWaiting(t: Tasklet)
      requires IdsValid() && WaitValid() && Known(t) && t.id !in waitq
      modifies `headWaittings, `tailWaittings, `waitq, `nextWait, `prevWait, all`nextWaitting, all`prevWaitting
      ensures WaitValid() && waitq == old(waitq) + [t.id]
    {
      AppendNext(nextWait, waitq, t.id);
      AppendPrev(prevWait, waitq, t.id);
      assert nextWait[t.id] == NULL && prevWait[t.id] == NULL;
      if headWaittings == null {
        assert tailWaittings == null;
        headWaittings := t;
      } else {
        SetNextWaitting(tailWaittings, t);
        SetPrevWaitting(t, tailWaittings);
      }
      assert t.nextWaitting == null;
      tailWaittings := t;
      waitq := waitq + [t.id];
    }

    method Append(t: Tasklet)
      requires Valid() && Known(t) && t.id !in waitq
      modifies `headWaittings, `tailWaittings, `waitq, `nextWait, `prevWait, all`nextWaitting, all`prevWaitting
      ensures Valid() && waitq == old(waitq) + [t.id]
    {
      LinkWaiting(t);
    }

    method Park(t: Tasklet)
      requires Valid() && Known(t) && t.id !in waitq
      modifies this, all
      ensures Valid() && all == old(all)
      ensures Ok(View()) == Queues.Park(old(View()), t.id)
    {
      SetState(t, Waitting);
      Append(t);
    }

    /** The four cases of unpark: the neighbours of t, or the ends of the list, are joined. */
    method JoinNeighbours(t: Tasklet, ghost before: int, ghost after: int)
      requires IdsValid() && NextTied() && PrevTied() && Known(t)
      requires -1 <= before < |all| && -1 <= after < |all|
      requires t.prevWaitting == At(all, before) && t.nextWaitting == At(all, after)
      requires headWaittings == tailWaittings <==> before == after == NULL
      modifies `headWaittings, `tailWaittings, `nextWait, `prevWait, all`nextWaitting, all`prevWaitting
      ensures NextTied() && nextWait == Store(old(nextWait), before, after)
      ensures PrevTied() && prevWait == Store(old(prevWait), after, before)
      ensures headWaittings == if before == NULL then At(all, after) else old(headWaittings)
      ensures tailWaittings == if after == NULL then At(all, before) else old(tailWaittings)
    {
      if headWaittings == tailWaittings {
        headWaittings := null;
        tailWaittings := null;
      } else if t.nextWaitting == null {
        tailWaittings := t.prevWaitting;
        SetNextWaitting(tailWaittings, null);
      } else if t.prevWaitting == null {
        headWaittings := t.nextWaitting;
        SetPrevWaitting(headWaittings, null);
      } else {
        SetNextWaitting(t.prevWaitting, t.nextWaitting);
        SetPrevWaitting(t.nextWaitting, t.prevWaitting);
      }
    }

    lemma EndsMeet(q: seq<Tid>, i: nat)
      requires IdsValid() && Distinct(q) && i < |q| && forall k :: 0 <= k < |q| ==> q[k] < |all|
      ensures At(all, q[0]) == At(all, q[|q| - 1]) <==> Nth(q, i - 1) == Nth(q, i + 1) == NULL
    {
    }

    /** All stores of unpark into the nodes and the ends of the list. */
    method Detach(t: Tasklet, ghost before: int, ghost after: int)
      requires IdsValid() && NextTied() && PrevTied() && Known(t)
      requires -1 <= before < |all| && -1 <= after < |all|
      requires t.prevWaitting == At(all, before) && t.nextWaitting == At(all, after)
      requires headWaittings == tailWaittings <==> before == after == NULL
      modifies `headWaittings, `tailWaittings, `nextWait, `prevWait, all`nextWaitting, all`prevWaitting
      ensures NextTied() && nextWait == Store(Store(old(nextWait), before, after), t.id, NULL)
      ensures PrevTied() && prevWait == Store(Store(old(prevWait), after, before), t.id, NULL)
      ensures headWaittings == if before == NULL then At(all, after) else old(headWaittings)
      ensures tailWaittings == if after == NULL then At(all, before) else old(tailWaittings)
    {
      JoinNeighbours(t, before, after);
      SetPrevWaitting(t, null);
      SetNextWaitting(t, null);
    }

    /** What the nodes say about the element at index i of the list. */
    lemma NeighboursAt(t: Tasklet, i: nat)
      requires IdsValid() && WaitValid() && Known(t) && i < |waitq| && waitq[i] == t.id
      ensures var before, after := Nth(waitq, i - 1), Nth(waitq, i + 1);
        && -1 <= before < |all| && -1 <= after < |all|
        && t.prevWaitting == At(all, before) && t.nextWaitting == At(all, after)
        && headWaittings != null && tailWaittings != null
        && (headWaittings == tailWaittings <==> before == after == NULL)
    {
      assert nextWait[waitq[i]] == Nth(waitq, i + 1) && prevWait[waitq[i]] == Nth(waitq, i - 1);
      EndsMeet(waitq, i);
    }

    /** t is at index i of the list, which is `rest` without it. */
    method UnlinkAt(t: Tasklet, ghost i: nat, ghost rest: seq<Tid>)
      requires IdsValid() && WaitValid() && Known(t) && i < |waitq| && waitq[i] == t.id
      requires WaitLinks(Bypass(nextWait, waitq, i, 1), Bypass(prevWait, waitq, i, -1), rest)
      requires RestOf(waitq, i, rest)
      modifies `headWaittings, `tailWaittings, `waitq, `nextWait, `prevWait, all`nextWaitting, all`prevWaitting
      ensures WaitValid() && waitq == rest
    {
      NeighboursAt(t, i);
      assert headWaittings != null;
      assert tailWaittings != null;
      Detach(t, Nth(waitq, i - 1), Nth(waitq, i + 1));
      waitq := rest;
    }

    /** t may be anywhere in the list. */
    method UnlinkWaiting(t: Tasklet)
      requires IdsValid() && WaitValid() && Known(t) && t.id in waitq
      modifies `headWaittings, `tailWaittings, `waitq, `nextWait, `prevWait, all`nextWaitting, all`prevWaitting
      ensures WaitValid() && waitq == Without(old(waitq), t.id)
    {
      ghost var i :| 0 <= i < |waitq| && waitq[i] == t.id;
      RemovedWait(nextWait, prevWait, waitq, i);
      RemovedEnds(waitq, i, Without(waitq, t.id));
      UnlinkAt(t, i, Without(waitq, t.id));
    }

    method Remove(t: Tasklet)
      requires Valid() && Known(t) && t.id in waitq
      modifies `headWaittings, `tailWaittings, `waitq, `nextWait, `prevWait, all`nextWaitting, all`prevWaitting
      ensures Valid() && waitq == Without(old(waitq), t.id)
    {
      UnlinkWaiting(t);
    }

    method Unpark(t: Tasklet)
      requires Valid() && Known(t) && t.id in waitq
      modifies this, all
      ensures Valid() && all == old(all)
      ensures Ok(View()) == Queues.Unpark(old(View()), t.id)
    {
      Remove(t);
      SetState(t, Runnable);
    }

    /** True exactly for the members of the wait list. */
    method Parking(t: Tasklet) returns (r: bool)
      requires Valid() && Known(t) && (t.id in waitq ==> t.state.Waitting?)
      ensures r <==> t.id in waitq
    {
      ghost var q := waitq;
      if t.id in q {
        ghost var i :| 0 <= i < |q| && q[i] == t.id;
        assert nextWait[q[i]] == Nth(q, i + 1) && prevWait[q[i]] == Nth(q, i - 1);
      } else {
        assert nextWait[t.id] == NULL && prevWait[t.id] == NULL;
      }
      if t.prevWaitting != null || t.nextWaitting != null {
        return true;
      }
      if headWaittings == t {
        assert tailWaittings == t;
        assert t.state == Waitting;
        return true;
      }
      return false;
    }

    // ----- the sleepers

    method SetWake(t: Tasklet, wake: nat)
      requires Valid() && Known(t)
      modifies `vals, t`wake
      ensures Valid() && vals == old(vals)[t.id := old(vals)[t.id].(wake := wake)]
    {
      t.wake := wake;
      vals := vals[t.id := vals[t.id].(wake := wake)];
    }

    /** _sleepers.insert: behind every sleeper whose deadline is not later. */
    method InsertSleeper(t: Tasklet)
      requires IdsValid() && TasksValid() && SleepersValid() && Known(t)
      modifies `sleepers, `sleepq
      ensures SleepersValid() && sleepq == InsertByWake(vals, old(sleepq), t.id)
    {
      var pos := 0;
      while pos < |sleepers| && sleepers[pos].wake <= t.wake
        invariant pos <= |sleepers|
        invariant forall k :: 0 <= k < pos ==> WakeOf(vals, sleepq[k]) <= WakeOf(vals, t.id)
      {
        assert vals[sleepq[pos]].wake == sleepers[pos].wake && vals[t.id].wake == t.wake;
        pos := pos + 1;
      }
      assert pos < |sleepers| ==> vals[sleepq[pos]].wake == sleepers[pos].wake && vals[t.id].wake == t.wake;
      InsertAt(vals, sleepq, t.id, pos);
      sleepers := sleepers[..pos] + [t] + sleepers[pos..];
      sleepq := sleepq[..pos] + [t.id] + sleepq[pos..];
    }

    /** _sleepers.erase of this very tasklet, if it is there. */
    method EraseSleeper(t: Tasklet)
      requires Valid() && Known(t)
      modifies `sleepers, `sleepq
      ensures Valid() && sleepq == Without(old(sleepq), t.id)
    {
      var pos := FindSleeper(t);
      if pos < |sleepers| {
        CutSleeper(pos);
      }
    }

    method CutSleeper(pos: nat)
      requires SleepersValid() && pos < |sleepers|
      modifies `sleepers, `sleepq
      ensures SleepersValid() && sleepq == old(sleepq)[..pos] + old(sleepq)[pos + 1..]
    {
      sleepers := sleepers[..pos] + sleepers[pos + 1..];
      sleepq := sleepq[..pos] + sleepq[pos + 1..];
    }

    method FindSleeper(t: Tasklet) returns (pos: nat)
      requires Valid() && Known(t)
      ensures pos <= |sleepers| && (pos < |sleepers| ==> sleepers[pos] == t)
      ensures Without(sleepq, t.id) == if pos < |sleepers| then sleepq[..pos] + sleepq[pos + 1..] else sleepq
    {
      pos := 0;
      while pos < |sleepers| && sleepers[pos] != t
        invariant pos <= |sleepers|
        invariant forall k :: 0 <= k < pos ==> sleepq[k] != t.id
      {
        pos := pos + 1;
      }
      WithoutFirst(sleepq, t.id, pos);
    }

    method SetDeadline(t: Tasklet, st: TState, wake: nat)
      requires Valid() && Known(t)
      modifies `vals, t`state, t`wake
      ensures Valid() && vals == old(vals)[t.id := old(vals)[t.id].(state := st, wake := wake)]
    {
      t.state := st;
      t.wake := wake;
      vals := vals[t.id := vals[t.id].(state := st, wake := wake)];
    }

    /** The erase of the timer's scan. */
    method DropFirstSleeper()
      requires SleepersValid() && sleepers != []
      modifies `sleepers, `sleepq
      ensures SleepersValid() && sleepq == old(sleepq)[1..]
    {
      sleepers := sleepers[1..];
      sleepq := sleepq[1..];
    }

    method FileSleeper(t: Tasklet)
      requires Valid() && Known(t)
      modifies `sleepers, `sleepq
      ensures Valid() && sleepq == InsertByWake(vals, old(sleepq), t.id)
    {
      InsertSleeper(t);
    }

    /** The statements of sleep and of the timed recv that file t under a deadline. */
    method AddSleeper(t: Tasklet, st: TState, wake: nat)
      requires Valid() && Known(t)
      modifies `vals, `sleepers, `sleepq, t`state, t`wake
      ensures Valid()
      ensures View() == Queues.AddSleeper(old(View()), t.id, st, wake)
    {
      SetDeadline(t, st, wake);
      FileSleeper(t);
    }

    // ----- mailboxes and waking

    method Deposit(t: Tasklet, m: Message)
      requires IdsValid() && TasksValid() && Known(t)
      modifies `vals, t`mail, t`sent
      ensures TasksValid() && View() == Queues.Deposit(old(View()), t.id, m)
    {
      t.mail := t.mail + [m];
      t.sent := t.sent + [m];
      vals := vals[t.id := vals[t.id].(mail := vals[t.id].mail + [m], sent := vals[t.id].sent + [m])];
    }

    method FetchMail(t: Tasklet, timedWait: bool) returns (m: Message)
      requires Valid() && Known(t) && t.mail != []
      modifies `vals, t`mail, t`got, t`viaTimedWait
      ensures Valid() && Ok(View()) == Queues.Fetch(old(View()), t.id, timedWait) && m == old(t.mail)[0]
    {
      var k := vals[t.id];
      m := t.mail[0];
      t.mail := t.mail[1..];
      t.got := t.got + [m];
      t.viaTimedWait := t.viaTimedWait + [timedWait];
      vals := vals[t.id := t.Value()];
    }

    /** What active_tasklet does for a timed receiver before it queues it. */
    method Unfile(t: Tasklet, deleteFromSleepers: bool)
      requires Valid() && Known(t)
      modifies `vals, `sleepers, `sleepq, t`wake
      ensures Valid() && View() == Queues.Unfile(old(View()), t.id, deleteFromSleepers)
    {
      SetWake(t, 0);
      if deleteFromSleepers {
        EraseSleeper(t);
      }
    }

    method WakeWaiter(t: Tasklet)
      requires Valid() && Known(t) && t.id !in runq && t.id in waitq && t.state.Waitting?
      modifies this, all
      ensures Valid() && all == old(all)
      ensures Ok(View()) == Queues.ActiveTasklet(old(View()), t.id, true) == Queues.ActiveTasklet(old(View()), t.id, false)
    {
      assert vals[t.id].state == t.state;
      Unpark(t);
      PushTasklet(t);
    }

    method WakeTimed(t: Tasklet, deleteFromSleepers: bool)
      requires Valid() && Known(t) && t.id !in runq && t.state.TimeoutWaitting?
      modifies this, all
      ensures Valid() && all == old(all)
      ensures Ok(View()) == Queues.ActiveTasklet(old(View()), t.id, deleteFromSleepers)
    {
      assert vals[t.id].state == t.state;
      Unfile(t, deleteFromSleepers);
      PushTasklet(t);
    }

    /** active_tasklet; any other state makes it throw. */
    method ActiveTasklet(t: Tasklet, deleteFromSleepers: bool) returns (r: Outcome<()>)
      requires Valid() && Known(t) && t.id !in runq && (t.state.Waitting? ==> t.id in waitq)
      modifies this, all
      ensures Valid() && all == old(all)
      ensures r.Ok? <==> Waits(old(t.state))
      ensures r.Ok? ==> Ok(View()) == Queues.ActiveTasklet(old(View()), t.id, deleteFromSleepers)
      ensures r.Bad? ==> View() == old(View()) && r.fault == NotWaiting
    {
      if t.state == Waitting {
        WakeWaiter(t);
      } else if t.state == TimeoutWaitting {
        WakeTimed(t, deleteFromSleepers);
      } else {
        return Bad(NotWaiting);
      }
      return Ok(());
    }

    /** channel_manager::dispatch. */
    method Dispatch(t: Tasklet, m: Message, deleteFromSleepers: bool)
      requires Valid() && Known(t) && (Waits(t.state) ==> t.id !in runq) && (t.state.Waitting? ==> t.id in waitq)
      modifies this, all
      ensures Valid() && all == old(all)
      ensures Ok(View()) == Queues.Dispatch(old(View()), t.id, m, deleteFromSleepers)
    {
      Deposit(t, m);
      assert vals[t.id].state == t.state;
      if t.state == Waitting || t.state == TimeoutWaitting {
        var r := ActiveTasklet(t, deleteFromSleepers);
        assert r.Ok?;
      }
    }

    // ----- the parts of yield, recv, sleep and start around the context switch

    method PickNext() returns (next: Tasklet?)
      requires Valid()
      modifies this, all
      ensures Valid() && all == old(all) && (next != null ==> Known(next))
      ensures Ok((View(), IdOf(next))) == Queues.PickNext(old(View()))
    {
      var empty := EmptyRunnables();
      if empty {
        return null;
      }
      next := PopRunnable();
    }

    method YieldPick(t: Tasklet) returns (next: Tasklet?)
      requires Valid() && Known(t) && t.id !in runq
      modifies this, all
      ensures Valid() && all == old(all) && (next != null ==> Known(next))
      ensures Ok((View(), IdOf(next))) == Queues.YieldPick(old(View()), t.id)
    {
      var empty := EmptyRunnables();
      if empty {
        return null;
      }
      PushRunnable(t);
      assert runq != [];
      next := PopRunnable();
    }

    method ParkPick(t: Tasklet) returns (next: Tasklet?)
      requires Valid() && Known(t) && t.id !in waitq
      modifies this, all
      ensures Valid() && all == old(all) && (next != null ==> Known(next))
      ensures Ok((View(), IdOf(next))) == Queues.ParkPick(old(View()), t.id)
    {
      Park(t);
      next := PickNext();
    }

    method SleepPick(t: Tasklet, st: TState, wake: nat) returns (next: Tasklet?)
      requires Valid() && Known(t)
      modifies this, all
      ensures Valid() && all == old(all) && (next != null ==> Known(next))
      ensures Ok((View(), IdOf(next))) == Queues.SleepPick(old(View()), t.id, st, wake)
    {
      AddSleeper(t, st, wake);
      next := PickNext();
    }

    method SetThreadlet(t: Tasklet, p: Option<nat>)
      requires Valid() && Known(t)
      modifies `vals, t`thr
      ensures Valid() && View() == SetThr(old(View()), t.id, p)
    {
      t.thr := p;
      vals := vals[t.id := vals[t.id].(thr := p)];
    }

    /** switch_tasklet(current, next), up to its swapcontext. */
    method SwitchTasklet(current: Tasklet, next: Tasklet)
      requires Valid() && Known(current) && Known(next) && current != next
      modifies `vals, current`thr, next`thr, next`state
      ensures Valid()
      ensures View() == Queues.SetState(SetThr(SetThr(old(View()), current.id, None), next.id, old(current.thr)), next.id, Running)
    {
      var threadlet := current.thr;
      SetThreadlet(current, None);
      SetThreadlet(next, threadlet);
      SetState(next, Running);
    }

    /** tasklet::start, once the mutex is held: queues t the first time only. */
    method Start(t: Tasklet)
      requires Valid() && Known(t) && (!t.started ==> t.id !in runq)
      modifies this, all
      ensures Valid() && all == old(all)
      ensures old(t.started) ==> View() == old(View())
      ensures !old(t.started) ==>
                var c := Queues.PushTasklet(old(View()), t.id).value;
                View() == c.(tasks := c.tasks[t.id := c.tasks[t.id].(started := true)])
    {
      if !t.started {
        PushTasklet(t);
        SetStarted(t);
      }
    }

    /** tasklet_service::add: makes t known, and starts it. */
    method Add(t: Tasklet)
      requires Valid() && t.id == |all| && t.Value() == FRESH_TASK
      requires t.nextRunnable == null && t.nextWaitting == null && t.prevWaitting == null
      modifies this, all, t
      ensures Valid() && all == old(all) + [t]
      ensures var c := Queues.PushTasklet(old(View()).(tasks := old(vals) + [FRESH_TASK]), t.id);
              c.Ok? && View() == c.value.(tasks := c.value.tasks[t.id := c.value.tasks[t.id].(started := true)])
    {
      Register(t);
      assert vals[t.id].started == t.started;
      Start(t);
    }

    method SetStarted(t: Tasklet)
      requires IdsValid() && TasksValid() && Known(t)
      modifies `vals, t`started
      ensures TasksValid() && vals == old(vals)[t.id := old(vals)[t.id].(started := true)]
    {
      t.started := true;
      vals := vals[t.id := vals[t.id].(started := true)];
    }

    // ----- check_waittings

    /** unpark, then push_runnable. */
    method Requeue(t: Tasklet)
      requires Valid() && Known(t) && t.id in waitq && t.id !in runq
      modifies this, all
      ensures Valid() && all == old(all) && sleepq == old(sleepq) && signals == old(signals)
      ensures vals == old(vals)[t.id := old(vals)[t.id].(state := Runnable)]
      ensures waitq == Without(old(waitq), t.id) && runq == old(runq) + [t.id]
    {
      Unpark(t);
      PushRunnable(t);
    }

    /** One turn of the traversal, at the element with index p of the wait list: its successor is
        read before it may be unlinked. */
    method Visit(t: Tasklet, ghost p: nat) returns (next: Tasklet?, moved: bool)
      requires Valid() && Known(t) && p < |waitq| && waitq[p] == t.id && t.id !in runq
      modifies this, all
      ensures Valid() && all == old(all) && sleepq == old(sleepq) && signals == old(signals)
      ensures next == At(all, Nth(old(waitq), p + 1))
      ensures moved == HasMail(old(vals), t.id)
      ensures moved ==> vals == old(vals)[t.id := old(vals)[t.id].(state := Runnable)] &&
                        waitq == Without(old(waitq), t.id) && runq == old(runq) + [t.id]
      ensures !moved ==> vals == old(vals) && waitq == old(waitq) && runq == old(runq)
    {
      assert nextWait[waitq[p]] == Nth(waitq, p + 1);
      assert vals[t.id].mail == t.mail;
      next, moved := t.nextWaitting, false;
      if t.mail != [] {
        Requeue(t);
        moved := true;
      }
    }

    /** The traversal of the wait list `q` has come to its element with index i: what it has moved
        so far, where it goes on, and whether it has moved anything. */
    ghost predicate TraversedTo(vals0: seq<Task>, q: seq<Tid>, run0: seq<Tid>, i: nat, it: Tasklet?, found: bool)
      reads this
    {
      && Scanned(vals0, q, run0, i, vals, waitq, runq)
      && it == At(all, Nth(q, i))
      && (found <==> AnyMail(vals0, q, i))
    }

    /** One turn, in terms of the whole traversal. */
    method VisitNext(t: Tasklet, found: bool, ghost vals0: seq<Task>, ghost q: seq<Tid>, ghost run0: seq<Tid>, ghost i: nat)
      returns (next: Tasklet?, found': bool)
      requires Valid() && TraversedTo(vals0, q, run0, i, t, found) && Distinct(q)
      requires i < |q| && q[i] < |all| && forall u :: u in q ==> u !in run0 && u < |vals0|
      modifies this, all
      ensures Valid() && all == old(all) && sleepq == old(sleepq) && signals == old(signals)
      ensures TraversedTo(vals0, q, run0, i + 1, next, found')
    {
      ghost var v, w, r := vals, waitq, runq;
      ghost var p := ScannedAt(vals0, q, run0, i, v, w, r);
      var moved;
      next, moved := Visit(t, p);
      found' := found || moved;
      ScannedNext(vals0, q, run0, i, v, w, r, vals, waitq, runq);
    }

    /** From any well-formed state: the wait list keeps exactly its members without mail, in
        order; the others are appended to the run queue, in order. */
    method CheckWaittings() returns (found: bool)
      requires Valid() && forall t :: t in waitq ==> t !in runq
      modifies this, all
      ensures Valid() && all == old(all)
      ensures waitq == ByMail(old(vals), old(waitq), false)
      ensures runq == old(runq) + ByMail(old(vals), old(waitq), true)
      ensures found <==> ByMail(old(vals), old(waitq), true) != []
      ensures sleepq == old(sleepq) && signals == old(signals)
      ensures MadeRunnable(old(vals), ByMail(old(vals), old(waitq), true), vals)
    {
      if headWaittings == null {
        assert tailWaittings == null;
        assert waitq == [];
        return false;
      }
      found := Traverse();
      ScannedAll(old(vals), old(waitq), old(runq), |old(waitq)|, vals, waitq, runq);
      AnyMailIs(old(vals), old(waitq), |old(waitq)|);
    }

    /** The loop of check_waittings. */
    method Traverse() returns (found: bool)
      requires Valid() && forall t :: t in waitq ==> t !in runq
      modifies this, all
      ensures Valid() && all == old(all) && sleepq == old(sleepq) && signals == old(signals)
      ensures var q := old(waitq); TraversedTo(old(vals), q, old(runq), |q|, null, found)
    {
      found := false;
      ghost var q, i := waitq, 0;
      var it := headWaittings;
      while it != null
        invariant Valid() && all == old(all) && sleepq == old(sleepq) && signals == old(signals)
        invariant TraversedTo(old(vals), q, old(runq), i, it, found) && i <= |q| && WithinAll(q, |all|)
        decreases |q| - i
      {
        it, found := VisitNext(it, found, old(vals), q, old(runq), i);
        i := i + 1;
      }
      EndReached(all, q, i);
    }
  }

  /** timer::loop over a service whose mutex is held. */
  class Timer {
    const service: Service
    var time: nat

    constructor (service: Service, time: nat)
      ensures this.service == service && this.time == time
    {
      this.service := service;
      this.time := time;
    }

    /** One iteration: the first sleeper leaves the set, a timed receiver gets a message. */
    method ExpireFirst()
      requires service.Valid() && SleepersOk(service.View()) && service.sleepq != []
      modifies service, service.all
      ensures service.Valid() && service.all == old(service.all)
      ensures Ok(service.View()) == Queues.ExpireFirst(old(service.View()))
    {
      var t := service.sleepers[0];
      assert service.sleepq[0] in service.sleepq;
      service.DropFirstSleeper();
      assert service.vals[t.id].state == t.state;
      if t.state == TimeoutWaitting {
        service.Dispatch(t, NoMsg, false);
      } else {
        service.PushTasklet(t);
      }
    }

    /** Stops at the first sleeper that is not due. */
    method Loop()
      requires service.Valid() && SleepersOk(service.View())
      modifies service, service.all
      ensures service.Valid() && service.all == old(service.all)
      ensures Ok(service.View()) == Scan(old(service.View()), time)
      ensures DueMoved(old(service.View()), time, service.View())
    {
      ScanIsFilter(service.View(), time);
      while service.sleepers != []
        invariant service.Valid() && service.all == old(service.all) && SleepersOk(service.View())
        invariant Scan(service.View(), time) == Scan(old(service.View()), time)
        decreases |service.sleepers|
      {
        var t := service.sleepers[0];
        assert service.vals[service.sleepq[0]].wake == t.wake;
        if t.wake > time {
          return;
        }
        ExpireFirstWakes(service.View());
        ExpireFirst();
      }
    }
  }

  /** One more tasklet changes none of the nodes that links and list ends name. */
  lemma SameNodes(all: seq<Tasklet>, t: Tasklet, f: Field, q: seq<Tid>)
    requires (exists step :: Leads(f, q, step)) && |f| == |all|
    ensures forall u {:trigger f[u]} :: 0 <= u < |f| ==> At(all + [t], f[u]) == At(all, f[u])
    ensures forall k :: At(all + [t], Nth(q, k)) == At(all, Nth(q, k))
  {
  }

  /** Some of the first i members have mail. */
  predicate AnyMail(vals0: seq<Task>, q: seq<Tid>, i: nat) {
    0 < i <= |q| && (AnyMail(vals0, q, i - 1) || HasMail(vals0, q[i - 1]))
  }

  lemma {:induction false} AnyMailIs(vals0: seq<Task>, q: seq<Tid>, i: nat)
    requires i <= |q|
    ensures AnyMail(vals0, q, i) <==> ByMail(vals0, q[..i], true) != []
  {
    if i == 0 {
    } else {
      AnyMailIs(vals0, q, i - 1);
      assert q[..i] == q[..i - 1] + [q[i - 1]];
      ByMailAppend(vals0, q[..i - 1], q[i - 1], true);
    }
  }

  ghost predicate WithinAll(q: seq<Tid>, n: nat) {
    forall k :: 0 <= k < |q| ==> q[k] < n
  }

  lemma EndReached(all: seq<Tasklet>, q: seq<Tid>, i: nat)
    requires i <= |q| && WithinAll(q, |all|) && At(all, Nth(q, i)) == null
    ensures i == |q|
  {
  }

  ghost function IdOf(t: Tasklet?): Option<Tid> {
    if t == null then None else Some(t.id)
  }

  lemma {:induction false} InsertAt(tasks: seq<Task>, xs: seq<Tid>, t: Tid, pos: nat)
    requires pos <= |xs| && (pos < |xs| ==> WakeOf(tasks, t) < WakeOf(tasks, xs[pos]))
    requires forall k :: 0 <= k < pos ==> WakeOf(tasks, xs[k]) <= WakeOf(tasks, t)
    ensures InsertByWake(tasks, xs, t) == xs[..pos] + [t] + xs[pos..]
  {
    if pos == 0 {
      assert xs[..0] + [t] + xs[0..] == [t] + xs;
    } else {
      InsertAt(tasks, xs[1..], t, pos - 1);
      assert xs[..pos] == [xs[0]] + xs[1..][..pos - 1] && xs[pos..] == xs[1..][pos - 1..];
    }
  }

  lemma WithoutFirst(xs: seq<Tid>, t: Tid, pos: nat)
    requires pos <= |xs| && (pos < |xs| ==> xs[pos] == t)
    requires forall k :: 0 <= k < pos ==> xs[k] != t
    ensures Without(xs, t) == if pos < |xs| then xs[..pos] + xs[pos + 1..] else xs
  {
    assert xs[..pos] + xs[pos..] == xs;
    WithoutRight(xs[..pos], xs[pos..], t);
    if pos < |xs| {
      assert xs[pos..][0] == t && xs[pos..][1..] == xs[pos + 1..];
    }
  }
}
