/** Every step of every agent keeps the invariant and faults nowhere; hence every run does. */
module Steps {
  import opened Base
  import opened Queues
  import opened Machine
  import opened Invariant
  import opened Preservation
  import opened Operations
  import opened Waking

  // ----- the operations of a tasklet

  lemma EnterKnows(s: State, pl: Placement, i: nat, t: Tid)
    requires Executes(s, pl, i, t) && (s.threads[i].pc.w.Enter? || s.threads[i].pc.w.Resumed?)
    ensures OnThread(s, i, t) && |s.ctx| == |s.core.tasks| == |pl| && Leaver(s) == None
    ensures s.core.tasks[t].state.Running? && HistoryOk(s.core.tasks[t])
    ensures s.threads[i].pc.w.Resumed? ==> Resumable(s.core.tasks[t], s.ctx[t]) && !s.stop
    ensures s.threads[i].pc.w.Enter? ==> s.ctx[t].cont.Executing?
    ensures s.threads[i].pc.w == Enter(BeforeStart) ==> !s.stop
    ensures s.threads[i].pc.w.Enter? && s.threads[i].pc.w.op.Send? ==> s.threads[i].pc.w.op.msg != NoMsg
    ensures s.threads[i].locked
  {
    assert ThreadOk(s, pl, i);
    assert TaskOk(s.core.tasks[t], s.ctx[t], pl[t], false);
  }

  lemma KeepsYieldOr(s: State, pl: Placement, i: nat, t: Tid, cont: Cont) returns (pl': Placement)
    requires Executes(s, pl, i, t) && s.threads[i].pc.w.Enter? && !s.stop
    requires t < |s.ctx| && t < |s.core.tasks|
    requires cont == InYield || (cont == InRecvYield && s.core.tasks[t].mail != [])
    ensures Keeps(YieldOr(s, i, t, cont), pl')
  {
    EnterKnows(s, pl, i, t);
    pl' := pl;
    if s.core.runq != [] {
      pl' := KeepsYieldLeave(s, pl, i, t, cont);
    } else if cont == InRecvYield {
      KeepsFetch(s, pl, i, t, false);
    } else {
      KeepsDoneWith(s, pl, i, t);
    }
  }

  lemma KeepsRecvLoop(s: State, pl: Placement, i: nat, t: Tid, cont: Cont) returns (pl': Placement)
    requires Executes(s, pl, i, t) && s.threads[i].pc.w.Enter? && !s.stop
    requires t < |s.ctx| && t < |s.core.tasks| && (cont.InRecv? || cont.InRecvTimed?)
    ensures Keeps(RecvLoop(s, i, t, cont, false), pl')
  {
    EnterKnows(s, pl, i, t);
    if s.core.tasks[t].mail != [] {
      pl' := KeepsYieldOr(s, pl, i, t, InRecvYield);
    } else if cont.InRecvTimed? {
      pl' := KeepsSleepLeave(s, pl, i, t, TimeoutWaitting, cont.wake, cont);
    } else {
      pl' := KeepsParkLeave(s, pl, i, t);
    }
  }

  lemma KeepsSend(s: State, pl: Placement, i: nat, t: Tid, target: Tid, msg: Message, w: nat) returns (pl': Placement)
    requires Executes(s, pl, i, t) && s.threads[i].pc.w.Enter? && !s.stop
    requires t < |s.ctx| && t < |s.core.tasks| && Live(s, target) && msg != NoMsg
    ensures Keeps(AtSend(s, i, t, target, msg, w), pl')
  {
    EnterKnows(s, pl, i, t);
    var pl1 := DispatchWakes(s, pl, target, msg);
    var c := Dispatch(s.core, target, msg, true).value;
    KeepsSettle(s, pl, c, w, pl1, target);
    SettleEffect(s, c, w);
    var r := Settle(s, c, w);
    pl' := pl1;
    if r.Next? {
      pl' := KeepsYieldOr(r.s, pl1, i, t, InYield);
    }
  }

  lemma KeepsEnterPlain(s: State, pl: Placement, i: nat, t: Tid, w: nat) returns (pl': Placement)
    requires Executes(s, pl, i, t) && s.threads[i].pc.w.Enter?
    requires var op := s.threads[i].pc.w.op; op.BeforeStart? || op.Finish? || op.Fail?
    ensures Keeps(AtEnter(s, i, t, s.threads[i].pc.w.op, w), pl')
  {
    EnterKnows(s, pl, i, t);
    var op := s.threads[i].pc.w.op;
    pl' := pl[t := Slot(i)];
    if op.BeforeStart? {
      pl' := pl;
      assert s == SetCont(s, t, Executing) by { assert s.ctx == s.ctx[t := s.ctx[t]]; }
      KeepsDoneWith(s, pl, i, t);
    } else if op.Finish? {
      KeepsEnd(s, pl, i, t, Finished);
    } else {
      assert s.core == SetState(s.core, t, Running) by { assert s.core.tasks == s.core.tasks[t := s.core.tasks[t]]; }
      KeepsEnd(s, pl, i, t, Running);
    }
  }

  /** The requests that have one thing to do. */
  lemma RequestIs(s: State, i: nat, t: Tid, op: Op, w: nat)
    requires i < |s.threads| && t < |s.ctx| && t < |s.core.tasks|
    ensures op.Recv? ==> AtRequest(s, i, t, op, w) == RecvLoop(s, i, t, InRecv, false)
    ensures op.RecvTimed? ==> AtRequest(s, i, t, op, w) == RecvLoop(s, i, t, InRecvTimed(s.time + op.delay), false)
    ensures op.Sleep? ==> AtRequest(s, i, t, op, w) == SleepUntil(s, i, t, s.time + op.delay)
    ensures op.Yield? ==> AtRequest(s, i, t, op, w) == YieldOr(s, i, t, InYield)
  {
  }

  lemma KeepsRecv(s: State, pl: Placement, i: nat, t: Tid, w: nat) returns (pl': Placement)
    requires Executes(s, pl, i, t) && s.threads[i].pc.w == Enter(Recv) && !s.stop
    requires t < |s.ctx| && t < |s.core.tasks|
    ensures Keeps(AtRequest(s, i, t, Recv, w), pl')
  {
    pl' := KeepsRecvLoop(s, pl, i, t, InRecv);
    RequestIs(s, i, t, Recv, w);
  }

  lemma KeepsRecvTimed(s: State, pl: Placement, i: nat, t: Tid, delay: nat, w: nat) returns (pl': Placement)
    requires Executes(s, pl, i, t) && s.threads[i].pc.w == Enter(RecvTimed(delay)) && !s.stop
    requires t < |s.ctx| && t < |s.core.tasks|
    ensures Keeps(AtRequest(s, i, t, RecvTimed(delay), w), pl')
  {
    var cont := InRecvTimed(s.time + delay);
    var r := RecvLoop(s, i, t, cont, false);
    assert AtRequest(s, i, t, RecvTimed(delay), w) == r by {
      RequestIs(s, i, t, RecvTimed(delay), w);
    }
    pl' := KeepsRecvLoop(s, pl, i, t, cont);
  }

  lemma KeepsSleep(s: State, pl: Placement, i: nat, t: Tid, wake: nat) returns (pl': Placement)
    requires Executes(s, pl, i, t) && s.threads[i].pc.w.Enter? && !s.stop && t < |s.ctx| == |s.core.tasks|
    ensures Keeps(SleepUntil(s, i, t, wake), pl')
  {
    pl' := KeepsSleepLeave(s, pl, i, t, Sleeping, wake, InSleep);
  }

  lemma KeepsRequest(s: State, pl: Placement, i: nat, t: Tid, op: Op, w: nat) returns (pl': Placement)
    requires Executes(s, pl, i, t) && s.threads[i].pc.w == Enter(op) && !s.stop
    requires t < |s.ctx| && t < |s.core.tasks|
    ensures Keeps(AtRequest(s, i, t, op, w), pl')
  {
    EnterKnows(s, pl, i, t);
    pl' := pl;
    if op.Send? {
      if Live(s, op.target) {
        pl' := KeepsSend(s, pl, i, t, op.target, op.msg, w);
      }
    } else if op.Yield? {
      pl' := KeepsYieldOr(s, pl, i, t, InYield);
    } else if op.Sleep? {
      RequestIs(s, i, t, op, w);
      pl' := KeepsSleep(s, pl, i, t, s.time + op.delay);
    } else if op.Recv? {
      pl' := KeepsRecv(s, pl, i, t, w);
    } else if op.RecvTimed? {
      pl' := KeepsRecvTimed(s, pl, i, t, op.delay, w);
    }
  }

  lemma KeepsEnter(s: State, pl: Placement, i: nat, t: Tid, w: nat) returns (pl': Placement)
    requires Executes(s, pl, i, t) && s.threads[i].pc.w.Enter?
    ensures Keeps(AtEnter(s, i, t, s.threads[i].pc.w.op, w), pl')
  {
    EnterKnows(s, pl, i, t);
    var op := s.threads[i].pc.w.op;
    if op.BeforeStart? || op.Finish? || op.Fail? {
      pl' := KeepsEnterPlain(s, pl, i, t, w);
    } else if s.stop {
      pl' := pl;
      KeepsThrow(s, pl, i, t);
    } else {
      pl' := KeepsRequest(s, pl, i, t, op, w);
    }
  }

  lemma KeepsFreshStart(s: State, pl: Placement, i: nat, t: Tid)
    requires Executes(s, pl, i, t) && s.threads[i].pc.w.Resumed? && t < |s.ctx| && s.ctx[t].cont.Fresh?
    ensures Keeps(AtResumed(s, i, t), pl)
  {
    EnterKnows(s, pl, i, t);
    assert ThreadOk(s, pl, i);
    assert TaskOk(s.core.tasks[t], s.ctx[t], pl[t], false);
    TaskStep(s, AtResumed(s, i, t).s, pl, pl, i, t);
  }

  lemma KeepsResumed(s: State, pl: Placement, i: nat, t: Tid)
    requires Executes(s, pl, i, t) && s.threads[i].pc.w.Resumed?
    ensures Keeps(AtResumed(s, i, t), pl)
  {
    EnterKnows(s, pl, i, t);
    assert s.(core := SetState(s.core, t, Running)) == s by {
      assert s.core.tasks == s.core.tasks[t := s.core.tasks[t]];
    }
    match s.ctx[t].cont
    case Fresh => KeepsFreshStart(s, pl, i, t);
    case InYield => KeepsDoneWith(s, pl, i, t);
    case InSleep => KeepsDoneWith(s, pl, i, t);
    case InRecvYield => KeepsFetch(s, pl, i, t, false);
    case InRecv => KeepsFetch(s, pl, i, t, false);
    case InRecvTimed(_) => KeepsFetch(s, pl, i, t, true);
    case _ =>
  }

  lemma KeepsExec(s: State, pl: Placement, i: nat, t: Tid, w: nat) returns (pl': Placement)
    requires Executes(s, pl, i, t)
    ensures Keeps(AtExec(s, i, t, s.threads[i].pc.w, w), pl')
  {
    pl' := pl;
    match s.threads[i].pc.w
    case User =>
    case Thrown =>
    case Acquire(_) => KeepsAcquire(s, pl, i, t);
    case Enter(_) => pl' := KeepsEnter(s, pl, i, t, w);
    case SwapTo(next) => KeepsSwapTo(s, pl, i, t, next);
    case SwapBack => KeepsSwapBack(s, pl, i, t);
    case Resumed => KeepsResumed(s, pl, i, t);
    case Release(_) => KeepsRelease(s, pl, i, t);
  }

  lemma KeepsRun(s: State, pl: Placement, i: nat, w: nat) returns (pl': Placement)
    requires InvAt(s, pl) && i < |s.threads|
    ensures Keeps(RunThread(s, i, w), pl')
  {
    pl' := pl;
    match s.threads[i].pc
    case Top => pl' := KeepsAtTop(s, pl, i);
    case Locking => if s.mutex == None { KeepsLock(s, pl, i); }
    case Woken => if s.mutex == None { KeepsLock(s, pl, i); }
    case Popping => pl' := KeepsPopping(s, pl, i);
    case SwitchIn(t) => KeepsSwitchIn(s, pl, i);
    case Back => KeepsUnlock(s, pl, i, w);
    case Unwind => KeepsUnlock(s, pl, i, w);
    case Exec(t, _) => pl' := KeepsExec(s, pl, i, t, w);
    case _ =>
  }

  // ----- the other agents

  lemma CreateTasks(s: State, s': State, pl: Placement)
    requires TasksOk(s, pl) && Leaver(s') == Leaver(s) && (Leaver(s).Some? ==> Leaver(s).value < |pl|)
    requires s'.core.tasks == s.core.tasks + [FRESH_TASK] && s'.ctx == s.ctx + [Ctx(Fresh, true, 0)]
    ensures TasksOk(s', pl + [Nowhere])
  {
  }

  lemma CreateLists(c: Core, pl: Placement)
    requires ListsOk(c, pl) && |c.tasks| == |pl|
    ensures ListsOk(c.(tasks := c.tasks + [FRESH_TASK]), pl + [Nowhere])
  {
  }

  lemma CreateThreads(s: State, s': State, pl: Placement)
    requires InvAt(s, pl) && s' == Created(s)
    ensures ThreadsOk(s', pl + [Nowhere]) && OwnedOk(s'.threads, pl + [Nowhere])
  {
    OtherThreads(s, s', pl, pl + [Nowhere], -1);
    OwnedFrame(s.threads, s'.threads, pl, pl + [Nowhere], -1);
  }

  lemma KeepsCreate(s: State, pl: Placement)
    requires InvAt(s, pl)
    ensures InvAt(Created(s), pl + [Nowhere])
  {
    var s' := Created(s);
    assert Leaver(s') == Leaver(s);
    if Leaver(s).Some? {
      LeaverPlace(s, pl);
    }
    CreateTasks(s, s', pl);
    CreateLists(s.core, pl);
    CreateThreads(s, s', pl);
  }

  lemma KeepsStartThread(s: State, pl: Placement, i: nat)
    requires InvAt(s, pl) && i < |s.threads| && s.threads[i].pc.NotStarted?
    ensures InvAt(SetPc(s, i, Top), pl)
  {
    assert ThreadOk(s, pl, i);
    PcStep(s, SetPc(s, i, Top), pl, i);
  }

  lemma KeepsSpurious(s: State, pl: Placement, i: nat)
    requires InvAt(s, pl) && i < |s.threads| && IsBlocked(s.threads[i])
    ensures InvAt(SetPc(s, i, Woken), pl)
  {
    assert ThreadOk(s, pl, i);
    PcStep(s, SetPc(s, i, Woken), pl, i);
  }

  /** Taking or releasing the mutex by an agent that is not a threadlet. */
  lemma KeepsMutex(s: State, s': State, pl: Placement)
    requires InvAt(s, pl) && AgentsOk(s')
    requires s' == s.(mutex := s'.mutex, timerIn := s'.timerIn, portIn := s'.portIn, ext := s'.ext, time := s'.time)
    requires s'.mutex == s.mutex || (NotOther(s.mutex, -1) && NotOther(s'.mutex, -1))
    ensures InvAt(s', pl)
  {
    assert Leaver(s') == Leaver(s);
    OtherThreads(s, s', pl, pl, -1);
    assert WakeupOk(s');
  }

  lemma KeepsStop(s: State, pl: Placement, k: nat)
    requires InvAt(s, pl) && k in s.ext
    ensures Keeps(Step(s, ExtStop(k)), pl)
  {
    var s' := Step(s, ExtStop(k)).s;
    assert Leaver(s') == None && Leaver(s) == None;
    forall j | 0 <= j < |s'.threads| ensures ThreadOk(s', pl, j) {
      assert ThreadOk(s, pl, j);
    }
    assert OwnedOk(s'.threads, pl);
  }

  lemma KeepsTimer(s: State, pl: Placement, a: Action) returns (pl': Placement)
    requires InvAt(s, pl) && (a.Tick? || a.TimerLock? || a.TimerStep? || a.TimerUnlock?)
    ensures Keeps(Step(s, a), pl')
  {
    pl' := pl;
    var r := Step(s, a);
    if a.TimerStep? {
      if s.timerIn && Due(s.core, s.time) {
        ExpireWakes(s, pl);
        pl' := pl[s.core.sleepers[0] := RunQ];
        KeepsSettle(s, pl, ExpireFirst(s.core).value, a.w, pl', s.core.sleepers[0]);
      }
    } else if r.Next? {
      KeepsMutex(s, r.s, pl);
    }
  }

  lemma KeepsPort(s: State, pl: Placement, a: Action) returns (pl': Placement)
    requires InvAt(s, pl) && (a.PortLock? || a.PortPost? || a.PortUnlock?)
    ensures Keeps(Step(s, a), pl')
  {
    pl' := pl;
    var r := Step(s, a);
    if a.PortPost? {
      if s.portIn && Live(s, a.t) {
        pl' := DispatchWakes(s, pl, a.t, PortMsg(a.content));
        KeepsSettle(s, pl, Dispatch(s.core, a.t, PortMsg(a.content), true).value, a.w, pl', a.t);
      }
    } else if r.Next? {
      KeepsMutex(s, r.s, pl);
    }
  }

  lemma KeepsExt(s: State, pl: Placement, a: Action) returns (pl': Placement)
    requires InvAt(s, pl) && (a.ExtLock? || a.ExtStart? || a.ExtUnlock?)
    ensures Keeps(Step(s, a), pl')
  {
    pl' := pl;
    var r := Step(s, a);
    if a.ExtStart? {
      if a.k in s.ext && Live(s, a.t) && !s.core.tasks[a.t].started {
        StartWakes(s, pl, a.t);
        pl' := pl[a.t := RunQ];
        var c := PushTasklet(s.core, a.t).value;
        KeepsSettle(s, pl, c.(tasks := c.tasks[a.t := c.tasks[a.t].(started := true)]), a.w, pl', a.t);
      }
    } else if r.Next? {
      KeepsMutex(s, r.s, pl);
    }
  }

  // ----- the destructor

  function Occurrences(xs: seq<Tid>, t: Tid): nat {
    if xs == [] then 0 else (if xs[0] == t then 1 else 0) + Occurrences(xs[1..], t)
  }

  lemma {:induction false} DeleteEachCounts(ctx: seq<Ctx>, xs: seq<Tid>)
    ensures |DeleteEach(ctx, xs)| == |ctx|
    ensures forall t :: 0 <= t < |ctx| ==> DeleteEach(ctx, xs)[t] == ctx[t].(deleted := ctx[t].deleted + Occurrences(xs, t))
    decreases xs
  {
    if xs == [] {
    } else {
      DeleteEachCounts(DeleteOne(ctx, xs[0]), xs[1..]);
    }
  }

  lemma {:induction false} OccurrencesAppend(xs: seq<Tid>, ys: seq<Tid>, t: Tid)
    ensures Occurrences(xs + ys, t) == Occurrences(xs, t) + Occurrences(ys, t)
  {
    if xs == [] {
      assert xs + ys == ys;
    } else {
      assert (xs + ys)[1..] == xs[1..] + ys;
      OccurrencesAppend(xs[1..], ys, t);
    }
  }

  lemma {:induction false} OccurrencesOfDistinct(xs: seq<Tid>, t: Tid)
    requires Distinct(xs)
    ensures Occurrences(xs, t) == (if t in xs then 1 else 0)
  {
    if xs == [] {
    } else {
      DistinctTail(xs);
      OccurrencesOfDistinct(xs[1..], t);
    }
  }

  lemma NobodyHolds(s: State, pl: Placement)
    requires InvAt(s, pl) && Joined(s)
    ensures forall t :: 0 <= t < |pl| ==> !pl[t].On? && !pl[t].Slot?
  {
    forall j | 0 <= j < |s.threads| ensures s.threads[j].slot == None && Held(s.threads[j].pc) == None {
      assert ThreadOk(s, pl, j);
    }
  }

  lemma CountInLists(c: Core, pl: Placement, t: Tid)
    requires ListsOk(c, pl) && t < |pl|
    ensures Occurrences(c.runq + c.waitq + c.sleepers, t) == (if Queued(pl[t]) then 1 else 0)
  {
    OccurrencesAppend(c.runq + c.waitq, c.sleepers, t);
    OccurrencesAppend(c.runq, c.waitq, t);
    OccurrencesOfDistinct(c.runq, t);
    OccurrencesOfDistinct(c.waitq, t);
    OccurrencesOfDistinct(c.sleepers, t);
  }

  lemma DeletedIfStarted(s: State, pl: Placement, t: Tid)
    requires InvAt(s, pl) && t < |s.ctx| && t < |pl| && !pl[t].On? && !pl[t].Slot?
    ensures t < |s.core.tasks| && s.ctx[t].deleted + Occurrences(s.core.runq + s.core.waitq + s.core.sleepers, t)
                                  == (if s.core.tasks[t].started then 1 else 0)
  {
    CountInLists(s.core, pl, t);
    assert TaskOk(s.core.tasks[t], s.ctx[t], pl[t], Leaver(s) == Some(t));
  }

  lemma LeftInLists(s: State, pl: Placement)
    requires InvAt(s, pl) && (forall t :: 0 <= t < |pl| ==> !pl[t].On? && !pl[t].Slot?)
    ensures |s.ctx| == |s.core.tasks|
    ensures forall t :: 0 <= t < |s.ctx| ==>
              s.ctx[t].deleted + Occurrences(s.core.runq + s.core.waitq + s.core.sleepers, t)
              == (if s.core.tasks[t].started then 1 else 0)
  {
    forall t | 0 <= t < |s.ctx|
      ensures s.ctx[t].deleted + Occurrences(s.core.runq + s.core.waitq + s.core.sleepers, t)
              == (if s.core.tasks[t].started then 1 else 0)
    {
      DeletedIfStarted(s, pl, t);
    }
  }

  /** Once every thread has been joined, whatever is left sits in exactly one list. */
  lemma KeepsDestroy(s: State, pl: Placement)
    requires InvAt(s, pl) && Joined(s)
    ensures Step(s, Destroy) == Next(Destroyed(s)) && AllGone(Destroyed(s))
  {
    NobodyHolds(s, pl);
    DeleteEachCounts(s.ctx, s.core.runq + s.core.waitq + s.core.sleepers);
    LeftInLists(s, pl);
  }

  // ----- every step, every run

  lemma KeepsStep(s: State, pl: Placement, a: Action) returns (pl': Placement)
    requires InvAt(s, pl) && !a.Destroy?
    ensures Keeps(Step(s, a), pl')
  {
    pl' := pl;
    match a
    case Create => KeepsCreate(s, pl); pl' := pl + [Nowhere];
    case StartThread(i) => if i < |s.threads| && s.threads[i].pc.NotStarted? { KeepsStartThread(s, pl, i); }
    case Run(i, w) => if i < |s.threads| { pl' := KeepsRun(s, pl, i, w); }
    case Call(i, op) =>
      if i < |s.threads| && s.threads[i].pc.Exec? && s.threads[i].pc.w.User? && Allowed(op) {
        KeepsCall(s, pl, i, s.threads[i].pc.t, op);
      }
    case Catch(i) =>
      if i < |s.threads| && s.threads[i].pc.Exec? && s.threads[i].pc.w.Thrown? {
        KeepsCatch(s, pl, i, s.threads[i].pc.t);
      }
    case Propagate(i) =>
      if i < |s.threads| && s.threads[i].pc.Exec? && s.threads[i].pc.w.Thrown? {
        KeepsPropagate(s, pl, i, s.threads[i].pc.t);
        pl' := pl[s.threads[i].pc.t := Deleted];
      }
    case Spurious(i) => if i < |s.threads| && IsBlocked(s.threads[i]) { KeepsSpurious(s, pl, i); }
    case ExtStop(k) => if k in s.ext { KeepsStop(s, pl, k); }
    case Tick(_) => pl' := KeepsTimer(s, pl, a);
    case TimerLock => pl' := KeepsTimer(s, pl, a);
    case TimerStep(_) => pl' := KeepsTimer(s, pl, a);
    case TimerUnlock => pl' := KeepsTimer(s, pl, a);
    case PortLock => pl' := KeepsPort(s, pl, a);
    case PortPost(_, _, _) => pl' := KeepsPort(s, pl, a);
    case PortUnlock => pl' := KeepsPort(s, pl, a);
    case ExtLock(_) => pl' := KeepsExt(s, pl, a);
    case ExtStart(_, _, _) => pl' := KeepsExt(s, pl, a);
    case ExtUnlock(_) => pl' := KeepsExt(s, pl, a);
  }

  /** Main lemma: from a state that satisfies the invariant no step faults, and every step
      leads to a state that satisfies it. */
  lemma StepKeepsInv(s: State, a: Action)
    requires Inv(s)
    ensures !Step(s, a).Faulty?
    ensures Step(s, a).Next? ==> Inv(Step(s, a).s)
  {
    if !s.destroyed {
      var pl :| InvAt(s, pl);
      if a.Destroy? {
        if Joined(s) {
          KeepsDestroy(s, pl);
        }
      } else {
        var pl' := KeepsStep(s, pl, a);
      }
    }
  }

  lemma InitInv(pool: nat)
    ensures Inv(Init(pool))
  {
    var s := Init(pool);
    forall i | 0 <= i < |s.threads| ensures ThreadOk(s, [], i) {
    }
    assert InvAt(s, []);
  }

  /** No run faults, and every state of every run satisfies the invariant. */
  lemma {:induction false} RunsKeepInv(s: State, actions: seq<Action>)
    requires Inv(s)
    ensures !Execute(s, actions).Faulty?
    ensures Execute(s, actions).Next? ==> Inv(Execute(s, actions).s)
    decreases actions
  {
    if actions == [] {
    } else {
      StepKeepsInv(s, actions[0]);
      if Step(s, actions[0]).Next? {
        RunsKeepInv(Step(s, actions[0]).s, actions[1..]);
      }
    }
  }
}
