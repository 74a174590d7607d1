/** The operations a tasklet runs inside its critical section keep the invariant. */
module Operations {
  import opened Base
  import opened Queues
  import opened Machine
  import opened Invariant
  import opened Lists
  import opened Preservation

  // ----- moving a tasklet between lists, on the core alone

  lemma CoreMove(c: Core, pl: Placement, t: Tid, p: Place, q: Place, c': Core)
    requires ListsOk(c, pl) && |c.tasks| == |c'.tasks| == |pl| && t < |pl| && pl[t] == p && p != q
    requires c' == c.(tasks := c.tasks[t := c'.tasks[t]], runq := c'.runq, waitq := c'.waitq, sleepers := c'.sleepers)
    requires c'.runq == (if q.RunQ? then c.runq + [t] else if p.RunQ? then Without(c.runq, t) else c.runq)
    requires c'.waitq == (if q.WaitQ? then c.waitq + [t] else if p.WaitQ? then Without(c.waitq, t) else c.waitq)
    requires c'.sleepers == (if q.Asleep? then InsertByWake(c'.tasks, c.sleepers, t)
                             else if p.Asleep? then Without(c.sleepers, t) else c.sleepers)
    ensures ListsOk(c', pl[t := q])
  {
    assert ListOk(c'.runq, pl[t := q], RunQ) by {
      if q.RunQ? { ListPush(c.runq, pl, RunQ, t); }
      else if p.RunQ? { ListRemove(c.runq, pl, RunQ, t, q); }
    }
    assert ListOk(c'.waitq, pl[t := q], WaitQ) by {
      if q.WaitQ? { ListPush(c.waitq, pl, WaitQ, t); }
      else if p.WaitQ? { ListRemove(c.waitq, pl, WaitQ, t, q); }
    }
    assert ListOk(c'.sleepers, pl[t := q], Asleep) by {
      if q.Asleep? { ListInsert(c'.tasks, c.sleepers, pl, Asleep, t); }
      else if p.Asleep? { ListRemove(c.sleepers, pl, Asleep, t, q); }
    }
    if p.Asleep? {
      SortedWithout(c.tasks, c.sleepers, t);
      WithoutMembers(c.sleepers, t);
      SortedFrame(c.tasks, c'.tasks, c'.sleepers);
    } else {
      SortedFrame(c.tasks, c'.tasks, c.sleepers);
      if q.Asleep? { InsertSorted(c'.tasks, c.sleepers, t); }
    }
  }

  // ----- leaving for a queue

  /** t has filed itself under `q`; without a successor it heads for the threadlet's context. */
  function Filed(s: State, i: nat, t: Tid, c: Core, cont: Cont): State
    requires i < |s.threads| && t < |s.ctx|
  {
    SetPc(SetCont(s, t, cont).(core := c), i, Exec(t, SwapBack))
  }

  lemma KeepsFiled(s: State, pl: Placement, i: nat, t: Tid, c: Core, cont: Cont, q: Place)
    requires Executes(s, pl, i, t) && s.threads[i].pc.w.Enter?
    requires t < |s.ctx| == |pl| == |c.tasks| && pl[t] == On(i) && Queued(q)
    requires c == c.(tasks := s.core.tasks[t := c.tasks[t]]) && c.tasks[t] == s.core.tasks[t].(state := c.tasks[t].state, wake := c.tasks[t].wake)
    requires PlaceOk(c.tasks[t], s.ctx[t].(cont := cont), q, true)
    requires ListsOk(c, pl[t := q])
    ensures InvAt(Filed(s, i, t, c, cont), pl[t := q])
  {
    assert ThreadOk(s, pl, i);
    assert TaskOk(s.core.tasks[t], s.ctx[t], pl[t], false);
    QueueStep(s, Filed(s, i, t, c, cont), pl, pl[t := q], i, t);
  }

  function Picked(s: State, i: nat, t: Tid, c: Core, n: Tid): State
    requires i < |s.threads|
  {
    SetPc(s.(core := c), i, Exec(t, SwapTo(n)))
  }

  lemma PickMoves(s: State, s': State, pl: Placement, i: nat, t: Tid, n: Tid)
    requires i < |s.threads| && t < |pl| && n < |pl| == |s.ctx| == |s.core.tasks| && n != t && pl[n] == RunQ
    requires ThreadOk(s, pl, i) && TaskOk(s.core.tasks[n], s.ctx[n], pl[n], false)
    requires s.threads[i].pc == Exec(t, SwapBack) && s.threads[i].slot == None && !s.stop
    requires s' == Picked(s, i, t, s'.core, n)
    requires s'.core.tasks == s.core.tasks[n := s.core.tasks[n].(state := Running)]
    ensures Moves(s, s', pl, pl[n := On(i)], i, n)
  {
  }

  /** Choosing a successor from the run queue before the swap. */
  lemma KeepsPick(s: State, pl: Placement, i: nat, t: Tid)
    requires Executes(s, pl, i, t) && s.threads[i].pc.w.SwapBack? && s.threads[i].slot == None && !s.stop
    requires s.core.runq != [] && s.core.runq[0] != t
    ensures s.core.runq[0] < |pl| && PopRunnable(s.core).Ok?
    ensures InvAt(Picked(s, i, t, PopRunnable(s.core).value.0, s.core.runq[0]), pl[s.core.runq[0] := On(i)])
  {
    var n := s.core.runq[0];
    PopCore(s.core, pl, i);
    assert ThreadOk(s, pl, i);
    assert TaskOk(s.core.tasks[n], s.ctx[n], pl[n], false);
    var s' := Picked(s, i, t, PopRunnable(s.core).value.0, n);
    PickMoves(s, s', pl, i, t, n);
    QueueStep(s, s', pl, pl[n := On(i)], i, n);
  }

  /** What `Leave` does once t is filed. */
  lemma LeaveIsFiledThenPicked(s: State, i: nat, t: Tid, c: Core, cont: Cont)
    requires i < |s.threads| && t < |s.ctx|
    requires c.runq != [] ==> c.runq[0] < |c.tasks|
    ensures Leave(s, i, t, PickNext(c), cont) ==
            Next(if c.runq == [] then Filed(s, i, t, c, cont)
                 else Picked(Filed(s, i, t, c, cont), i, t, PopRunnable(c).value.0, c.runq[0]))
  {
  }

  /** Both together: file t in a queue, then pick a successor if there is one. */
  lemma KeepsLeave(s: State, pl: Placement, i: nat, t: Tid, c: Core, cont: Cont, q: Place) returns (pl': Placement)
    requires Executes(s, pl, i, t) && s.threads[i].pc.w.Enter? && !s.stop
    requires t < |s.ctx| == |pl| == |c.tasks| && pl[t] == On(i) && Queued(q)
    requires c == c.(tasks := s.core.tasks[t := c.tasks[t]]) && c.tasks[t] == s.core.tasks[t].(state := c.tasks[t].state, wake := c.tasks[t].wake)
    requires PlaceOk(c.tasks[t], s.ctx[t].(cont := cont), q, true)
    requires ListsOk(c, pl[t := q])
    requires c.runq != [] ==> c.runq[0] != t
    ensures Keeps(Leave(s, i, t, PickNext(c), cont), pl')
  {
    assert s.threads[i].slot == None by { assert ThreadOk(s, pl, i); }
    KeepsFiled(s, pl, i, t, c, cont, q);
    assert c.runq != [] ==> c.runq[0] in c.runq;
    LeaveIsFiledThenPicked(s, i, t, c, cont);
    pl' := pl[t := q];
    if c.runq != [] {
      KeepsPick(Filed(s, i, t, c, cont), pl', i, t);
      pl' := pl'[c.runq[0] := On(i)];
    }
  }

  lemma KeepsYieldLeave(s: State, pl: Placement, i: nat, t: Tid, cont: Cont) returns (pl': Placement)
    requires Executes(s, pl, i, t) && s.threads[i].pc.w.Enter? && !s.stop && s.core.runq != []
    requires t < |s.ctx| == |s.core.tasks| && (cont == InYield || (cont == InRecvYield && s.core.tasks[t].mail != []))
    ensures Keeps(Leave(s, i, t, YieldPick(s.core, t), cont), pl')
  {
    assert ThreadOk(s, pl, i);
    assert TaskOk(s.core.tasks[t], s.ctx[t], pl[t], false);
    assert t !in s.core.runq;
    var c := PushRunnable(s.core, t).value;
    CoreMove(s.core, pl, t, On(i), RunQ, c);
    pl' := KeepsLeave(s, pl, i, t, c, cont, RunQ);
  }

  lemma KeepsParkLeave(s: State, pl: Placement, i: nat, t: Tid) returns (pl': Placement)
    requires Executes(s, pl, i, t) && s.threads[i].pc.w.Enter? && !s.stop
    requires t < |s.ctx| == |s.core.tasks| && s.core.tasks[t].mail == []
    ensures Keeps(Leave(s, i, t, ParkPick(s.core, t), InRecv), pl')
  {
    assert ThreadOk(s, pl, i);
    assert TaskOk(s.core.tasks[t], s.ctx[t], pl[t], false);
    assert t !in s.core.waitq;
    var c := Park(s.core, t).value;
    CoreMove(s.core, pl, t, On(i), WaitQ, c);
    pl' := KeepsLeave(s, pl, i, t, c, InRecv, WaitQ);
  }

  lemma KeepsSleepLeave(s: State, pl: Placement, i: nat, t: Tid, st: TState, wake: nat, cont: Cont)
    returns (pl': Placement)
    requires Executes(s, pl, i, t) && s.threads[i].pc.w.Enter? && !s.stop
    requires t < |s.ctx| == |s.core.tasks|
    requires (st.Sleeping? && cont.InSleep?) || (st.TimeoutWaitting? && cont == InRecvTimed(wake) && s.core.tasks[t].mail == [])
    ensures Keeps(Leave(s, i, t, SleepPick(s.core, t, st, wake), cont), pl')
  {
    assert ThreadOk(s, pl, i);
    assert TaskOk(s.core.tasks[t], s.ctx[t], pl[t], false);
    var c := AddSleeper(s.core, t, st, wake);
    CoreMove(s.core, pl, t, On(i), Asleep, c);
    pl' := KeepsLeave(s, pl, i, t, c, cont, Asleep);
  }

  // ----- operations that do not leave

  lemma KeepsDoneWith(s: State, pl: Placement, i: nat, t: Tid)
    requires Executes(s, pl, i, t) && (s.threads[i].pc.w.Enter? || s.threads[i].pc.w.Resumed?)
    requires t < |s.ctx| && (s.threads[i].pc.w.Resumed? ==> s.ctx[t].cont.InYield? || s.ctx[t].cont.InSleep?)
    ensures InvAt(SetPc(SetCont(s, t, Executing), i, Exec(t, Release(false))), pl)
  {
    assert ThreadOk(s, pl, i);
    assert TaskOk(s.core.tasks[t], s.ctx[t], pl[t], false);
    TaskStep(s, SetPc(SetCont(s, t, Executing), i, Exec(t, Release(false))), pl, pl, i, t);
  }

  lemma FetchMoves(s: State, s': State, pl: Placement, i: nat, t: Tid, timedWait: bool)
    requires i < |s.threads| && t < |pl| == |s.ctx| == |s.core.tasks| && pl[t] == On(i)
    requires ThreadOk(s, pl, i) && TaskOk(s.core.tasks[t], s.ctx[t], pl[t], false)
    requires s.threads[i].pc.Exec? && s.threads[i].pc.t == t && (s.threads[i].pc.w.Enter? || s.threads[i].pc.w.Resumed?)
    requires s.core.tasks[t].mail != [] && (s.ctx[t].cont.InRecvTimed? ==> timedWait)
    requires Next(s') == FetchAnd(s, i, t, timedWait)
    ensures Moves(s, s', pl, pl, i, t)
  {
  }

  lemma KeepsFetch(s: State, pl: Placement, i: nat, t: Tid, timedWait: bool)
    requires Executes(s, pl, i, t) && (s.threads[i].pc.w.Enter? || s.threads[i].pc.w.Resumed?)
    requires t < |s.ctx| && t < |s.core.tasks| && s.core.tasks[t].mail != []
    requires s.ctx[t].cont.InRecvTimed? ==> timedWait
    ensures Keeps(FetchAnd(s, i, t, timedWait), pl)
  {
    assert ThreadOk(s, pl, i);
    assert TaskOk(s.core.tasks[t], s.ctx[t], pl[t], false);
    var s' := FetchAnd(s, i, t, timedWait).s;
    FetchMoves(s, s', pl, i, t, timedWait);
    TaskStep(s, s', pl, pl, i, t);
  }

  /** The last step of a tasklet's code: into the finished slot of its threadlet. */
  function Ended(s: State, i: nat, t: Tid, st: TState): State
    requires i < |s.threads| && t < |s.ctx| && t < |s.core.tasks|
  {
    SetPc(IntoSlot(SetCont(s.(core := SetState(s.core, t, st)), t, Done), i, t), i, Exec(t, SwapBack))
  }

  lemma EndedMoves(s: State, pl: Placement, i: nat, t: Tid, st: TState)
    requires i < |s.threads| && t < |pl| == |s.ctx| == |s.core.tasks| && pl[t] == On(i)
    requires ThreadOk(s, pl, i) && TaskOk(s.core.tasks[t], s.ctx[t], pl[t], false)
    requires s.threads[i].pc.Exec? && s.threads[i].pc.t == t && s.threads[i].pc.w.Enter?
    requires st.Finished? || st.Running?
    ensures Moves(s, Ended(s, i, t, st), pl, pl[t := Slot(i)], i, t)
  {
  }

  lemma KeepsEnd(s: State, pl: Placement, i: nat, t: Tid, st: TState)
    requires Executes(s, pl, i, t) && s.threads[i].pc.w.Enter? && (st.Finished? || st.Running?)
    ensures t < |pl| == |s.ctx| == |s.core.tasks| && InvAt(Ended(s, i, t, st), pl[t := Slot(i)])
  {
    assert ThreadOk(s, pl, i);
    assert TaskOk(s.core.tasks[t], s.ctx[t], pl[t], false);
    EndedMoves(s, pl, i, t, st);
    TaskStep(s, Ended(s, i, t, st), pl, pl[t := Slot(i)], i, t);
  }
}
