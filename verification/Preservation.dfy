/** Every step keeps the invariant and faults nowhere. */
module Preservation {
  import opened Base
  import opened Queues
  import opened Machine
  import opened Invariant
  import opened Lists

  /** What each lemma about a step shows: no fault, and the given placement fits the next state. */
  ghost predicate Keeps(r: Result, pl: Placement) {
    !r.Faulty? && (r.Next? ==> InvAt(r.s, pl))
  }

  // ----- frames

  predicate Queued(p: Place) {
    p.RunQ? || p.WaitQ? || p.Asleep?
  }

  /** A tasklet that threadlets other than i run, hold, are leaving or have in their slot. */
  ghost predicate Foreign(s: State, pl: Placement, i: int, t: Tid)
    requires t < |pl|
  {
    || ((pl[t].On? || pl[t].Slot?) && pl[t].i != i)
    || (Leaver(s) == Some(t) && s.mutex.value.i != i)
  }

  /** Such tasklets keep their place, context and threadlet field, and lose no last message. */
  ghost predicate Undisturbed(s: State, s': State, pl: Placement, pl': Placement, i: int) {
    && |s.core.tasks| == |s.ctx| == |pl| <= |s'.core.tasks| == |s'.ctx| == |pl'|
    && forall t :: 0 <= t < |pl| && Foreign(s, pl, i, t) ==>
         && pl'[t] == pl[t] && s'.ctx[t] == s.ctx[t] && s'.core.tasks[t].thr == s.core.tasks[t].thr
         && (s.core.tasks[t].mail != [] ==> s'.core.tasks[t].mail != [])
  }

  predicate NotOther(m: Option<Agent>, i: int) {
    m.Some? && m.value.Thr? ==> m.value.i == i
  }

  /** Only the acting threadlet i (none, if i is negative) moves; the others may be woken. */
  ghost predicate OthersStay(s: State, s': State, i: int) {
    && |s'.threads| == |s.threads| && s'.stop == s.stop
    && (forall j :: 0 <= j < |s.threads| && j != i ==>
          s'.threads[j] == s.threads[j] || s'.threads[j] == WakeThread(s.threads[j]))
    && (s'.mutex == s.mutex || (NotOther(s.mutex, i) && NotOther(s'.mutex, i)))
  }

  lemma OtherThreads(s: State, s': State, pl: Placement, pl': Placement, i: int)
    requires ThreadsOk(s, pl) && OthersStay(s, s', i) && Undisturbed(s, s', pl, pl', i)
    ensures forall j :: 0 <= j < |s.threads| && j != i ==> ThreadOk(s', pl', j)
    ensures forall j :: 0 <= j < |s.threads| && j != i ==>
              Held(s'.threads[j].pc) == Held(s.threads[j].pc) && s'.threads[j].slot == s.threads[j].slot
  {
    forall j | 0 <= j < |s.threads| && j != i
      ensures ThreadOk(s', pl', j)
      ensures Held(s'.threads[j].pc) == Held(s.threads[j].pc) && s'.threads[j].slot == s.threads[j].slot
    {
      assert ThreadOk(s, pl, j);
    }
  }

  /** The tasks part of the invariant, when only tasklet t changes. */
  lemma TasksFrame(s: State, s': State, pl: Placement, pl': Placement, t: Tid)
    requires TasksOk(s, pl) && t < |pl|
    requires |s'.core.tasks| == |s'.ctx| == |pl'| == |pl|
    requires forall u :: 0 <= u < |pl| && u != t ==>
               s'.core.tasks[u] == s.core.tasks[u] && s'.ctx[u] == s.ctx[u] && pl'[u] == pl[u]
    requires forall u :: 0 <= u < |pl| && u != t ==> (Leaver(s') == Some(u)) == (Leaver(s) == Some(u))
    requires TaskOk(s'.core.tasks[t], s'.ctx[t], pl'[t], Leaver(s') == Some(t))
    ensures TasksOk(s', pl')
  {
  }

  lemma OwnedFrame(ths: seq<Thread>, ths': seq<Thread>, pl: Placement, pl': Placement, i: int)
    requires OwnedOk(ths, pl) && |ths'| == |ths| && |pl| <= |pl'|
    requires forall j :: 0 <= j < |ths| && j != i ==> Held(ths'[j].pc) == Held(ths[j].pc) && ths'[j].slot == ths[j].slot
    requires forall t :: 0 <= t < |pl'| && pl'[t].On? ==>
               if pl'[t].i == i then 0 <= i < |ths| && Held(ths'[i].pc) == Some(t) else t < |pl| && pl'[t] == pl[t]
    requires forall t :: 0 <= t < |pl'| && pl'[t].Slot? ==>
               if pl'[t].i == i then 0 <= i < |ths| && ths'[i].slot == Some(t) else t < |pl| && pl'[t] == pl[t]
    ensures OwnedOk(ths', pl')
  {
  }

  /** Puts the invariant together after a step of threadlet i. */
  lemma Assemble(s: State, s': State, pl: Placement, pl': Placement, i: nat)
    requires ThreadsOk(s, pl) && OwnedOk(s.threads, pl) && i < |s.threads|
    requires OthersStay(s, s', i) && Undisturbed(s, s', pl, pl', i)
    requires ThreadOk(s', pl', i) && AgentsOk(s')
    requires TasksOk(s', pl') && ListsOk(s'.core, pl')
    requires forall t :: 0 <= t < |pl'| && (pl'[t].On? || pl'[t].Slot?) && pl'[t].i != i ==> t < |pl| && pl'[t] == pl[t]
    requires forall t :: 0 <= t < |pl'| && pl'[t] == On(i) ==> Held(s'.threads[i].pc) == Some(t)
    requires forall t :: 0 <= t < |pl'| && pl'[t] == Slot(i) ==> s'.threads[i].slot == Some(t)
    requires Started(s'.threads[i]) && (IsBlocked(s'.threads[i]) ==> s'.core.runq == [])
    ensures InvAt(s', pl')
  {
    OtherThreads(s, s', pl, pl', i);
    OwnedFrame(s.threads, s'.threads, pl, pl', i);
    assert ThreadsOk(s', pl');
    if s'.core.runq != [] {
      assert WakeupOk(s') by { assert Awake(s'.threads[i]); }
    }
  }

  lemma LeaverPlace(s: State, pl: Placement)
    requires ThreadsOk(s, pl) && Leaver(s).Some?
    ensures var t := Leaver(s).value;
            t < |pl| && (pl[t].RunQ? || pl[t].WaitQ? || pl[t].Asleep? || pl[t] == Slot(s.mutex.value.i))
  {
    assert ThreadOk(s, pl, s.mutex.value.i);
  }

  /** A step of threadlet i that moves its program point, flag and the mutex only. */
  lemma PcStep(s: State, s': State, pl: Placement, i: nat)
    requires InvAt(s, pl) && i < |s.threads|
    requires |s'.threads| == |s.threads| && s' == s.(threads := s.threads[i := s'.threads[i]], mutex := s'.mutex)
    requires s'.threads[i].slot == s.threads[i].slot && Held(s'.threads[i].pc) == Held(s.threads[i].pc)
    requires s'.mutex == s.mutex || (NotOther(s.mutex, i) && NotOther(s'.mutex, i))
    requires ThreadOk(s', pl, i) && AgentsOk(s') && Leaver(s') == Leaver(s)
    requires Started(s'.threads[i]) && (IsBlocked(s'.threads[i]) ==> s.core.runq == [])
    ensures InvAt(s', pl)
  {
    assert TasksOk(s', pl);
    Assemble(s, s', pl, pl, i);
  }

  /** The part of a state that a step of threadlet i on tasklet t leaves alone. */
  ghost predicate OnlyTask(s: State, s': State, i: nat, t: Tid) {
    && i < |s.threads| == |s'.threads| && t < |s.ctx| == |s'.ctx| == |s.core.tasks| == |s'.core.tasks|
    && s' == s.(threads := s.threads[i := s'.threads[i]], ctx := s.ctx[t := s'.ctx[t]],
                core := s'.core.(tasks := s.core.tasks[t := s'.core.tasks[t]]))
  }

  /** t changes, and nothing else that threadlet i or the mutex holder knows about. */
  ghost predicate Moves(s: State, s': State, pl: Placement, pl': Placement, i: nat, t: Tid)
    requires i < |s.threads| == |s'.threads| && t < |s'.ctx| == |s'.core.tasks| == |pl'| == |pl|
  {
    var h, h' := s.threads[i], s'.threads[i];
    && !Foreign(s, pl, i, t)
    && (Leaver(s') == Leaver(s) || (Leaver(s) in {None, Some(t)} && Leaver(s') in {None, Some(t)}))
    && TaskOk(s'.core.tasks[t], s'.ctx[t], pl'[t], Leaver(s') == Some(t))
    && ThreadOk(s', pl', i)
    && (Held(h.pc) in {None, Some(t), Held(h'.pc)})
    && (h.slot in {None, Some(t), h'.slot})
    && (pl'[t].On? ==> if pl'[t].i == i then Held(h'.pc) == Some(t) else pl'[t] == pl[t])
    && (pl'[t].Slot? ==> if pl'[t].i == i then h'.slot == Some(t) else pl'[t] == pl[t])
    && Awake(h')
  }

  /** A step of threadlet i that moves tasklet t between places. */
  lemma QueueStep(s: State, s': State, pl: Placement, pl': Placement, i: nat, t: Tid)
    requires InvAt(s, pl) && OnlyTask(s, s', i, t)
    requires |pl'| == |pl| && pl' == pl[t := pl'[t]] && Moves(s, s', pl, pl', i, t)
    requires ListsOk(s'.core, pl')
    ensures InvAt(s', pl')
  {
    TasksFrame(s, s', pl, pl', t);
    Assemble(s, s', pl, pl', i);
  }

  /** The same when no list is involved. */
  lemma TaskStep(s: State, s': State, pl: Placement, pl': Placement, i: nat, t: Tid)
    requires InvAt(s, pl) && OnlyTask(s, s', i, t)
    requires |pl'| == |pl| && pl' == pl[t := pl'[t]] && Moves(s, s', pl, pl', i, t)
    requires s'.core == s.core.(tasks := s'.core.tasks) && s'.core.tasks[t].wake == s.core.tasks[t].wake
    requires pl'[t] == pl[t] || (!Queued(pl[t]) && !Queued(pl'[t]))
    ensures InvAt(s', pl')
  {
    SortedFrame(s.core.tasks, s'.core.tasks, s.core.sleepers);
    assert ListsOk(s'.core, pl');
    QueueStep(s, s', pl, pl', i, t);
  }

  // ----- steps of a threadlet on its own stack

  /** Deleting the tasklet in the finished slot. */
  lemma KeepsReap(s: State, pl: Placement, i: nat) returns (pl': Placement)
    requires InvAt(s, pl) && i < |s.threads| && s.threads[i].pc.Top?
    ensures InvAt(Reap(s, i), pl')
  {
    assert ThreadOk(s, pl, i);
    var s' := Reap(s, i);
    match s.threads[i].slot
    case None => pl' := pl;
    case Some(t) =>
      pl' := pl[t := Deleted];
      assert Leaver(s') == Leaver(s);
      if Leaver(s).Some? {
        LeaverPlace(s, pl);
      }
      TaskStep(s, s', pl, pl[t := Deleted], i, t);
  }

  lemma KeepsAtTop(s: State, pl: Placement, i: nat) returns (pl': Placement)
    requires InvAt(s, pl) && i < |s.threads| && s.threads[i].pc.Top?
    ensures InvAt(AtTop(s, i), pl')
  {
    pl' := KeepsReap(s, pl, i);
    var s1 := Reap(s, i);
    assert ThreadOk(s1, pl', i);
    PcStep(s1, AtTop(s, i), pl', i);
  }

  lemma KeepsLock(s: State, pl: Placement, i: nat)
    requires InvAt(s, pl) && i < |s.threads| && s.mutex == None
    requires s.threads[i].pc.Locking? || s.threads[i].pc.Woken?
    ensures InvAt(SetPc(s.(mutex := Some(Thr(i))), i, Popping), pl)
  {
    assert ThreadOk(s, pl, i);
    PcStep(s, SetPc(s.(mutex := Some(Thr(i))), i, Popping), pl, i);
  }

  lemma KeepsUnlock(s: State, pl: Placement, i: nat, w: nat)
    requires InvAt(s, pl) && i < |s.threads| && (s.threads[i].pc.Back? || s.threads[i].pc.Unwind?)
    ensures Keeps(RunThread(s, i, w), pl)
  {
    assert ThreadOk(s, pl, i);
    PcStep(s, RunThread(s, i, w).s, pl, i);
  }

  lemma KeepsSwitchIn(s: State, pl: Placement, i: nat)
    requires InvAt(s, pl) && i < |s.threads| && s.threads[i].pc.SwitchIn?
    ensures Keeps(AtSwitchIn(s, i, s.threads[i].pc.t), pl)
  {
    assert ThreadOk(s, pl, i);
    var t := s.threads[i].pc.t;
    assert TaskOk(s.core.tasks[t], s.ctx[t], pl[t], false);
    var s' := AtSwitchIn(s, i, t).s;
    TaskStep(s, s', pl, pl, i, t);
  }

  /** Taking the head of the run queue for threadlet i. */
  lemma PopCore(c: Core, pl: Placement, i: nat)
    requires ListsOk(c, pl) && |c.tasks| == |pl| && c.runq != []
    ensures PopRunnable(c).Ok? && c.runq[0] < |pl| && pl[c.runq[0]] == RunQ
    ensures ListsOk(PopRunnable(c).value.0, pl[c.runq[0] := On(i)])
  {
    var t := c.runq[0];
    assert t in c.runq;
    var c', pl' := PopRunnable(c).value.0, pl[t := On(i)];
    ListPop(c.runq, pl, RunQ, On(i));
    ListApart(c.waitq, pl, WaitQ, t, On(i));
    ListApart(c.sleepers, pl, Asleep, t, On(i));
    SortedFrame(c.tasks, c'.tasks, c.sleepers);
  }

  lemma KeepsPopping(s: State, pl: Placement, i: nat) returns (pl': Placement)
    requires InvAt(s, pl) && i < |s.threads| && s.threads[i].pc.Popping?
    ensures Keeps(AtPopping(s, i), pl')
  {
    assert ThreadOk(s, pl, i);
    pl' := pl;
    if s.stop || s.core.runq == [] {
      PcStep(s, AtPopping(s, i).s, pl, i);
    } else {
      pl' := KeepsPop(s, pl, i);
    }
  }

  lemma KeepsPop(s: State, pl: Placement, i: nat) returns (pl': Placement)
    requires InvAt(s, pl) && i < |s.threads| && s.threads[i].pc.Popping? && !s.stop && s.core.runq != []
    ensures Keeps(AtPopping(s, i), pl')
  {
    assert ThreadOk(s, pl, i);
    var t := s.core.runq[0];
    PopCore(s.core, pl, i);
    assert TaskOk(s.core.tasks[t], s.ctx[t], pl[t], false);
    pl' := pl[t := On(i)];
    var h := s.threads[i].(pc := SwitchIn(t), cur := Some(t));
    var s' := s.(core := PopRunnable(s.core).value.0, threads := s.threads[i := h]);
    assert AtPopping(s, i) == Next(s');
    QueueStep(s, s', pl, pl', i, t);
  }

  // ----- steps on the stack of a tasklet: locking

  ghost predicate Executes(s: State, pl: Placement, i: nat, t: Tid) {
    InvAt(s, pl) && i < |s.threads| && s.threads[i].pc.Exec? && s.threads[i].pc.t == t
  }

  lemma KeepsCall(s: State, pl: Placement, i: nat, t: Tid, op: Op)
    requires Executes(s, pl, i, t) && s.threads[i].pc.w.User? && Allowed(op)
    ensures Keeps(CallOp(s, i, t, op), pl)
  {
    assert ThreadOk(s, pl, i);
    PcStep(s, CallOp(s, i, t, op).s, pl, i);
  }

  lemma KeepsAcquire(s: State, pl: Placement, i: nat, t: Tid)
    requires Executes(s, pl, i, t) && s.threads[i].pc.w.Acquire?
    ensures Keeps(AtExec(s, i, t, s.threads[i].pc.w, 0), pl)
  {
    assert ThreadOk(s, pl, i);
    if s.mutex == None {
      PcStep(s, AtExec(s, i, t, s.threads[i].pc.w, 0).s, pl, i);
    }
  }

  lemma KeepsRelease(s: State, pl: Placement, i: nat, t: Tid)
    requires Executes(s, pl, i, t) && s.threads[i].pc.w.Release?
    ensures Keeps(AtRelease(s, i, t, s.threads[i].pc.w.thrown), pl)
  {
    assert ThreadOk(s, pl, i);
    PcStep(s, AtRelease(s, i, t, s.threads[i].pc.w.thrown).s, pl, i);
  }

  lemma KeepsCatch(s: State, pl: Placement, i: nat, t: Tid)
    requires Executes(s, pl, i, t) && s.threads[i].pc.w.Thrown?
    ensures InvAt(SetPc(s, i, Exec(t, User)), pl)
  {
    assert ThreadOk(s, pl, i);
    PcStep(s, SetPc(s, i, Exec(t, User)), pl, i);
  }

  lemma KeepsPropagate(s: State, pl: Placement, i: nat, t: Tid)
    requires Executes(s, pl, i, t) && s.threads[i].pc.w.Thrown?
    ensures t < |pl| && InvAt(SetPc(s.(ctx := DeleteOne(s.ctx, t)), i, Exited), pl[t := Deleted])
  {
    assert ThreadOk(s, pl, i);
    var s' := SetPc(s.(ctx := DeleteOne(s.ctx, t)), i, Exited);
    if Leaver(s).Some? {
      LeaverPlace(s, pl);
    }
    assert TaskOk(s.core.tasks[t], s.ctx[t], pl[t], false);
    TaskStep(s, s', pl, pl[t := Deleted], i, t);
  }

  lemma KeepsThrow(s: State, pl: Placement, i: nat, t: Tid)
    requires Executes(s, pl, i, t) && s.threads[i].pc.w.Enter? && s.stop
    ensures Keeps(ThrowStop(s, i, t), pl)
  {
    assert ThreadOk(s, pl, i);
    PcStep(s, ThrowStop(s, i, t).s, pl, i);
  }

  // ----- steps on the stack of a tasklet: the switch

  lemma KeepsSwapBack(s: State, pl: Placement, i: nat, t: Tid)
    requires Executes(s, pl, i, t) && s.threads[i].pc.w.SwapBack?
    ensures Keeps(AtSwapBack(s, i, t), pl)
  {
    assert ThreadOk(s, pl, i);
    assert Leaver(s) == Some(t);
    assert TaskOk(s.core.tasks[t], s.ctx[t], pl[t], true);
    var s' := AtSwapBack(s, i, t).s;
    TaskStep(s, s', pl, pl, i, t);
  }

  /** The state in the middle of switch_tasklet: t's context is stored, and `next` is about to
      be entered just as if the threadlet had popped it. */
  function StoreContext(s: State, i: nat, t: Tid, next: Tid): State
    requires i < |s.threads| && t < |s.core.tasks| && t < |s.ctx|
  {
    s.(core := SetThr(s.core, t, None), ctx := s.ctx[t := s.ctx[t].(saved := true)],
       threads := s.threads[i := s.threads[i].(pc := SwitchIn(next), cur := Some(next))])
  }

  lemma KeepsStore(s: State, pl: Placement, i: nat, t: Tid, next: Tid)
    requires Executes(s, pl, i, t) && s.threads[i].pc.w == SwapTo(next)
    ensures t < |s.core.tasks| && t < |s.ctx| && InvAt(StoreContext(s, i, t, next), pl)
  {
    assert ThreadOk(s, pl, i);
    assert Leaver(s) == Some(t);
    assert TaskOk(s.core.tasks[t], s.ctx[t], pl[t], true);
    TaskStep(s, StoreContext(s, i, t, next), pl, pl, i, t);
  }

  lemma SwapToIsSwitchIn(s: State, i: nat, t: Tid, next: Tid)
    requires i < |s.threads| && OnThread(s, i, t) && !s.threads[i].stop
    requires next < |s.core.tasks| && next < |s.ctx| && next != t && s.core.tasks[next].state.Running?
    ensures AtSwapTo(s, i, t, next) == AtSwitchIn(StoreContext(s, i, t, next), i, next)
  {
  }

  lemma KeepsSwapTo(s: State, pl: Placement, i: nat, t: Tid, next: Tid)
    requires Executes(s, pl, i, t) && s.threads[i].pc.w == SwapTo(next)
    ensures Keeps(AtSwapTo(s, i, t, next), pl)
  {
    assert ThreadOk(s, pl, i);
    assert TaskOk(s.core.tasks[next], s.ctx[next], pl[next], false);
    KeepsStore(s, pl, i, t, next);
    KeepsSwitchIn(StoreContext(s, i, t, next), pl, i);
    SwapToIsSwitchIn(s, i, t, next);
  }
}
