/** What single steps do, in every reachable state: when they can be taken, and the whole next state.
    What the requests of a tasklet do, in Requests.dfy, begins and ends with these. */
module Effects {
  import opened Base
  import opened Queues
  import opened Machine
  import opened Invariant
  import opened Safety
  import opened Steps

  /** s with another program point and flag of threadlet i. */
  function Goes(s: State, i: nat, locked: bool, pc: Pc): State
    requires i < |s.threads|
  {
    s.(threads := s.threads[i := s.threads[i].(locked := locked, pc := pc)])
  }

  // ----- into a request and out of it

  /** User code may ask for anything but the check before its own start and the timer's message; the
      call raises the threadlet's flag and goes for the mutex, for just this operation. */
  lemma CallEnters(s: State, i: nat, t: Tid, op: Op)
    requires Reachable(s) && !s.destroyed && i < |s.threads| && s.threads[i].pc == Exec(t, User)
    ensures Step(s, Call(i, op)) ==
            if op == BeforeStart || (op.Send? && op.msg == NoMsg) then Disabled
            else Next(Goes(s, i, true, Exec(t, Acquire(op))))
  {
    var pl := ReachablePlacement(s);
    assert ThreadOk(s, pl, i);
  }

  lemma AcquireTakes(s: State, i: nat, t: Tid, op: Op, w: nat)
    requires Reachable(s) && !s.destroyed && i < |s.threads| && s.threads[i].pc == Exec(t, Acquire(op))
    ensures Step(s, Run(i, w)) ==
            if s.mutex == None then Next(Goes(s, i, true, Exec(t, Enter(op))).(mutex := Some(Thr(i)))) else Disabled
  {
    var pl := ReachablePlacement(s);
    assert ThreadOk(s, pl, i);
  }

  /** A request leaves the critical section where it entered it, or with its stop_exception in flight. */
  lemma ReleaseFrees(s: State, i: nat, t: Tid, thrown: bool, w: nat)
    requires Reachable(s) && !s.destroyed && i < |s.threads| && s.threads[i].pc == Exec(t, Release(thrown))
    ensures Step(s, Run(i, w)) == Next(Goes(s, i, false, Exec(t, if thrown then Thrown else User)).(mutex := None))
  {
    var pl := ReachablePlacement(s);
    assert ThreadOk(s, pl, i);
  }

  /** User code may swallow the exception; one that it lets go deletes its tasklet and ends the thread. */
  lemma ThrownEnds(s: State, i: nat, t: Tid)
    requires Reachable(s) && !s.destroyed && i < |s.threads| && s.threads[i].pc == Exec(t, Thrown)
    ensures t < |s.ctx| && s.ctx[t].deleted == 0
    ensures Step(s, Catch(i)) == Next(Goes(s, i, false, Exec(t, User)))
    ensures Step(s, Propagate(i)) == Next(Goes(s, i, false, Exited).(ctx := s.ctx[t := s.ctx[t].(deleted := 1)]))
  {
    var pl := ReachablePlacement(s);
    assert ThreadOk(s, pl, i);
    assert TaskOk(s.core.tasks[t], s.ctx[t], pl[t], Leaver(s) == Some(t));
  }

  /** These three are the steps of user code, and nobody else takes them. */
  lemma OnlyUserCode(s: State, i: nat, op: Op)
    ensures Step(s, Call(i, op)).Next? ==> i < |s.threads| && s.threads[i].pc.Exec? && s.threads[i].pc.w.User?
    ensures Step(s, Catch(i)).Next? || Step(s, Propagate(i)).Next? ==>
              i < |s.threads| && s.threads[i].pc.Exec? && s.threads[i].pc.w.Thrown?
  {
  }

  /** The check ahead of a tasklet's body lets it pass. */
  lemma BeforeStartPasses(s: State, i: nat, t: Tid, w: nat)
    requires Reachable(s) && !s.destroyed && i < |s.threads| && s.threads[i].pc == Exec(t, Enter(BeforeStart))
    ensures Step(s, Run(i, w)) == Next(Goes(s, i, true, Exec(t, Release(false))))
  {
    var pl := ReachablePlacement(s);
    assert ThreadOk(s, pl, i);
  }

  // ----- a threadlet on its own stack

  /** s once the tasklet in the finished slot of threadlet i, if any, has been deleted. */
  function Emptied(s: State, i: nat): State
    requires i < |s.threads|
  {
    var slot := s.threads[i].slot;
    var ctx := if slot.Some? && slot.value < |s.ctx| then s.ctx[slot.value := s.ctx[slot.value].(deleted := 1)] else s.ctx;
    s.(ctx := ctx, threads := s.threads[i := s.threads[i].(slot := None)])
  }

  lemma SlotIsLive(s: State, i: nat)
    requires Reachable(s) && !s.destroyed && i < |s.threads|
    ensures s.threads[i].slot.Some? ==> s.threads[i].slot.value < |s.ctx| && s.ctx[s.threads[i].slot.value].deleted == 0
    ensures s.threads[i].slot.Some? ==>
              s.threads[i].pc.Top? || s.threads[i].pc.Back? || (s.threads[i].pc.Exec? && s.threads[i].pc.w.SwapBack?)
  {
    var pl := ReachablePlacement(s);
    assert ThreadOk(s, pl, i);
    if s.threads[i].slot.Some? {
      var t := s.threads[i].slot.value;
      assert TaskOk(s.core.tasks[t], s.ctx[t], pl[t], Leaver(s) == Some(t));
    }
  }

  /** At the head of its loop a threadlet deletes its finished tasklet; then it ends if it was stopped,
      and goes for the mutex otherwise. */
  lemma TopGoesOn(s: State, i: nat, w: nat)
    requires Reachable(s) && !s.destroyed && i < |s.threads| && s.threads[i].pc.Top?
    ensures Step(s, Run(i, w)) ==
            Next(if s.stop then Goes(Emptied(s, i), i, false, Exited) else Goes(Emptied(s, i), i, true, Locking))
  {
    var pl := ReachablePlacement(s);
    assert ThreadOk(s, pl, i);
    SlotIsLive(s, i);
    TopIs(s, i);
  }

  lemma TopIs(s: State, i: nat)
    requires i < |s.threads| && !s.threads[i].locked
    requires s.threads[i].slot.Some? ==> s.threads[i].slot.value < |s.ctx| && s.ctx[s.threads[i].slot.value].deleted == 0
    ensures AtTop(s, i) == if s.threads[i].stop then Goes(Emptied(s, i), i, false, Exited) else Goes(Emptied(s, i), i, true, Locking)
  {
    if s.threads[i].slot == None {
      assert s.threads[i].(slot := None) == s.threads[i] && s.threads[i := s.threads[i]] == s.threads;
    }
  }

  /** It gets the mutex, at first or back from the condition wait, when the mutex is free. */
  lemma LockTakes(s: State, i: nat, w: nat)
    requires Reachable(s) && !s.destroyed && i < |s.threads| && (s.threads[i].pc.Locking? || s.threads[i].pc.Woken?)
    ensures Step(s, Run(i, w)) ==
            if s.mutex == None then Next(Goes(s, i, true, Popping).(mutex := Some(Thr(i)))) else Disabled
  {
    var pl := ReachablePlacement(s);
    assert ThreadOk(s, pl, i);
  }

  /** Inside pop_tasklet it finds the service stopped and goes, or nobody queued and waits, or takes the
      first of the queue. */
  lemma PoppingGoesOn(s: State, i: nat, w: nat)
    requires Reachable(s) && !s.destroyed && i < |s.threads| && s.threads[i].pc.Popping?
    ensures var q, r := s.core.runq, Step(s, Run(i, w));
      if s.stop then r == Next(Goes(s, i, true, Unwind))
      else if q == [] then r == Next(Goes(s, i, true, Blocked).(mutex := None))
      else
        && q[0] < |s.core.tasks|
        && var c := s.core.(tasks := s.core.tasks[q[0] := s.core.tasks[q[0]].(state := Running)], runq := q[1..]);
           r == Next(s.(core := c, threads := s.threads[i := s.threads[i].(pc := SwitchIn(q[0]), cur := Some(q[0]))]))
  {
    var pl := ReachablePlacement(s);
    assert ThreadOk(s, pl, i);
    if s.core.runq != [] {
      assert s.core.runq[0] in s.core.runq;
    }
  }

  lemma BackFrees(s: State, i: nat, w: nat)
    requires Reachable(s) && !s.destroyed && i < |s.threads| && s.threads[i].pc.Back?
    ensures Step(s, Run(i, w)) == Next(Goes(s, i, false, Top).(mutex := None))
  {
    var pl := ReachablePlacement(s);
    assert ThreadOk(s, pl, i);
  }

  lemma UnwindEnds(s: State, i: nat, w: nat)
    requires Reachable(s) && !s.destroyed && i < |s.threads| && s.threads[i].pc.Unwind?
    ensures Step(s, Run(i, w)) == Next(Goes(s, i, false, Exited).(mutex := None))
  {
    var pl := ReachablePlacement(s);
    assert ThreadOk(s, pl, i);
    assert s.threads[i].slot == None;
  }

  // ----- context switches

  /** t is entered on threadlet i, from its stored context. */
  function EntersOn(s: State, i: nat, t: Tid): State
    requires i < |s.threads| && t < |s.ctx| && t < |s.core.tasks|
  {
    s.(core := s.core.(tasks := s.core.tasks[t := s.core.tasks[t].(thr := Some(i), state := Running)]),
       ctx := s.ctx[t := s.ctx[t].(saved := false)],
       threads := s.threads[i := s.threads[i].(pc := Exec(t, Resumed), cur := Some(t))])
  }

  /** The context of t is stored, and its threadlet field cleared unless it has finished. */
  function LeftBy(s: State, t: Tid): State
    requires t < |s.ctx| && t < |s.core.tasks|
  {
    var k := s.core.tasks[t];
    s.(core := s.core.(tasks := s.core.tasks[t := k.(thr := if k.state.Finished? then k.thr else None)]),
       ctx := s.ctx[t := s.ctx[t].(saved := true)])
  }

  lemma SwitchInEnters(s: State, i: nat, t: Tid, w: nat)
    requires Reachable(s) && !s.destroyed && i < |s.threads| && s.threads[i].pc == SwitchIn(t)
    ensures t < |s.ctx| && t < |s.core.tasks| && Step(s, Run(i, w)) == Next(EntersOn(s, i, t))
  {
    var pl := ReachablePlacement(s);
    assert ThreadOk(s, pl, i);
    assert TaskOk(s.core.tasks[t], s.ctx[t], pl[t], Leaver(s) == Some(t));
  }

  lemma SwapToKnows(s: State, i: nat, t: Tid, next: Tid)
    requires Reachable(s) && !s.destroyed && i < |s.threads| && s.threads[i].pc == Exec(t, SwapTo(next))
    ensures OnThread(s, i, t) && next < |s.ctx| && next < |s.core.tasks| && next != t && s.ctx[next].saved
    ensures !s.core.tasks[t].state.Finished?
  {
    var pl := ReachablePlacement(s);
    assert ThreadOk(s, pl, i);
    assert TaskOk(s.core.tasks[t], s.ctx[t], pl[t], Leaver(s) == Some(t));
  }

  lemma SwapToIs(s: State, i: nat, t: Tid, next: Tid)
    requires i < |s.threads| && OnThread(s, i, t)
    requires next < |s.ctx| && next < |s.core.tasks| && next != t && s.ctx[next].saved
    requires !s.core.tasks[t].state.Finished?
    ensures AtSwapTo(s, i, t, next) == Next(EntersOn(LeftBy(s, t), i, next))
  {
  }

  lemma SwapToEnters(s: State, i: nat, t: Tid, next: Tid, w: nat)
    requires Reachable(s) && !s.destroyed && i < |s.threads| && s.threads[i].pc == Exec(t, SwapTo(next))
    ensures t < |s.ctx| && t < |s.core.tasks| && next < |s.ctx| && next < |s.core.tasks| && next != t
    ensures Step(s, Run(i, w)) == Next(EntersOn(LeftBy(s, t), i, next))
  {
    SwapToKnows(s, i, t, next);
    SwapToIs(s, i, t, next);
  }

  lemma SwapBackLeaves(s: State, i: nat, t: Tid, w: nat)
    requires Reachable(s) && !s.destroyed && i < |s.threads| && s.threads[i].pc == Exec(t, SwapBack)
    ensures t < |s.ctx| && t < |s.core.tasks| && Step(s, Run(i, w)) == Next(Goes(LeftBy(s, t), i, true, Back))
  {
    var pl := ReachablePlacement(s);
    assert ThreadOk(s, pl, i);
  }

  /** A tasklet that is entered anew checks for a stop, still in the critical section; one that comes
      back into `yield` or `sleep` leaves them. */
  lemma ResumedGoesOn(s: State, i: nat, t: Tid, w: nat)
    requires Reachable(s) && !s.destroyed && i < |s.threads| && s.threads[i].pc == Exec(t, Resumed)
    requires t < |s.ctx| && !InsideRecv(s.ctx[t].cont)
    ensures s.ctx[t].cont.Fresh? || s.ctx[t].cont.InYield? || s.ctx[t].cont.InSleep?
    ensures Step(s, Run(i, w)) ==
            Next(Goes(s, i, true, Exec(t, if s.ctx[t].cont.Fresh? then Enter(BeforeStart) else Release(false)))
                 .(ctx := s.ctx[t := s.ctx[t].(cont := Executing)]))
  {
    var pl := ReachablePlacement(s);
    EnterKnows(s, pl, i, t);
    assert s.core.tasks == s.core.tasks[t := s.core.tasks[t]];
  }

  // ----- the other agents

  lemma CreateAdds(s: State)
    requires Reachable(s) && !s.destroyed
    ensures Step(s, Create) == Next(s.(core := s.core.(tasks := s.core.tasks + [Task(NoStart, None, 0, [], false, [], [], [])]),
                                       ctx := s.ctx + [Ctx(Fresh, true, 0)]))
  {
  }

  lemma ThreadStarts(s: State, i: nat)
    requires Reachable(s) && !s.destroyed
    ensures Step(s, StartThread(i)) ==
            if i < |s.threads| && s.threads[i].pc.NotStarted? then Next(Goes(s, i, false, Top)) else Disabled
  {
    var pl := ReachablePlacement(s);
    if i < |s.threads| {
      assert ThreadOk(s, pl, i);
    }
  }

  lemma SpuriousWakes(s: State, i: nat)
    requires Reachable(s) && !s.destroyed
    ensures Step(s, Spurious(i)) ==
            if i < |s.threads| && s.threads[i].pc.Blocked? then Next(Goes(s, i, true, Woken)) else Disabled
  {
    var pl := ReachablePlacement(s);
    if i < |s.threads| {
      assert ThreadOk(s, pl, i);
    }
  }

  /** The timer sets its clock to anything while it is outside the critical section. */
  lemma TickSets(s: State, now: nat)
    requires Reachable(s) && !s.destroyed
    ensures Step(s, Tick(now)) == if s.mutex == Some(TimerAgent) then Disabled else Next(s.(time := now))
  {
    var pl := ReachablePlacement(s);
  }

  /** The timer, the port service and outside threads enter when the mutex is free. */
  lemma AgentsEnter(s: State, k: nat)
    requires Reachable(s) && !s.destroyed
    ensures Step(s, TimerLock) == if s.mutex == None then Next(s.(mutex := Some(TimerAgent), timerIn := true)) else Disabled
    ensures Step(s, PortLock) == if s.mutex == None then Next(s.(mutex := Some(PortAgent), portIn := true)) else Disabled
    ensures Step(s, ExtLock(k)) == if s.mutex == None then Next(s.(mutex := Some(Ext(k)), ext := {k})) else Disabled
  {
    var pl := ReachablePlacement(s);
    if s.mutex == None {
      assert s.ext == {};
    }
  }

  /** They leave when they are in it, the timer not before the last due sleeper is gone. */
  lemma AgentsLeave(s: State, k: nat)
    requires Reachable(s) && !s.destroyed
    ensures Step(s, TimerUnlock) ==
            if s.mutex == Some(TimerAgent) && !Due(s.core, s.time) then Next(s.(mutex := None, timerIn := false)) else Disabled
    ensures Step(s, PortUnlock) == if s.mutex == Some(PortAgent) then Next(s.(mutex := None, portIn := false)) else Disabled
    ensures Step(s, ExtUnlock(k)) == if s.mutex == Some(Ext(k)) then Next(s.(mutex := None, ext := {})) else Disabled
  {
    var pl := ReachablePlacement(s);
    if s.mutex == Some(Ext(k)) {
      assert s.ext == {k};
    }
  }

  /** `stop` sets the service's flag and every threadlet's, and wakes all that wait on the condition. */
  lemma StopSets(s: State, k: nat)
    requires Reachable(s) && !s.destroyed
    ensures var r := Step(s, ExtStop(k));
      if s.mutex != Some(Ext(k)) then r == Disabled
      else
        && r.Next? && |r.s.threads| == |s.threads| && r.s == s.(stop := true, threads := r.s.threads)
        && forall i :: 0 <= i < |s.threads| ==>
             r.s.threads[i] == s.threads[i].(stop := true, pc := if s.threads[i].pc.Blocked? then Woken else s.threads[i].pc)
  {
    var pl := ReachablePlacement(s);
  }

  /** The destructor goes on once every thread that was started has ended and nobody is inside. */
  lemma DestroyWhenAtRest(s: State)
    requires Reachable(s) && !s.destroyed
    ensures Step(s, Destroy).Next? <==>
              s.mutex == None && forall i :: 0 <= i < |s.threads| ==> s.threads[i].pc.Exited? || s.threads[i].pc.NotStarted?
    ensures Step(s, Destroy).Next? <==> Joined(s)
  {
    var pl := ReachablePlacement(s);
    if s.mutex.Some? && s.mutex.value.Thr? {
      assert ThreadOk(s, pl, s.mutex.value.i);
    }
    assert s.mutex == None ==> s.ext == {};
    assert s.mutex.Some? && s.mutex.value.Ext? ==> s.mutex.value.k in s.ext;
  }

  lemma DeletesOnce(s: State, t: Tid)
    requires Reachable(s) && !s.destroyed && t < |s.ctx|
    ensures Occurrences(s.core.runq + s.core.waitq + s.core.sleepers, t) ==
            if t in s.core.runq || t in s.core.waitq || t in s.core.sleepers then 1 else 0
  {
    var pl := ReachablePlacement(s);
    CountInLists(s.core, pl, t);
  }

  /** Then all that is left in the lists is deleted, once, and nothing else. */
  lemma DestroyDeletes(s: State)
    requires Reachable(s) && !s.destroyed && Joined(s)
    ensures var r := Step(s, Destroy);
      && r.Next? && |r.s.ctx| == |s.ctx| && r.s == s.(destroyed := true, ctx := r.s.ctx)
      && forall t :: 0 <= t < |s.ctx| ==>
           r.s.ctx[t] == s.ctx[t].(deleted := s.ctx[t].deleted +
                                     if t in s.core.runq || t in s.core.waitq || t in s.core.sleepers then 1 else 0)
  {
    DeleteEachCounts(s.ctx, s.core.runq + s.core.waitq + s.core.sleepers);
    forall t | 0 <= t < |s.ctx|
      ensures Occurrences(s.core.runq + s.core.waitq + s.core.sleepers, t) ==
              if t in s.core.runq || t in s.core.waitq || t in s.core.sleepers then 1 else 0
    {
      DeletesOnce(s, t);
    }
  }

  // ----- steps that may signal the condition

  /** Between cores with n and n' signals thread w is woken if it waited, when there was a signal. */
  function Signalled(h: Thread, n: nat, n': nat): Thread {
    if n' != n && h.pc.Blocked? then h.(pc := Woken) else h
  }

  /** s' is s with a new core, and thread w woken if it waited and the new core brings a signal. */
  ghost predicate SignalsOnly(s: State, s': State, w: nat) {
    && |s'.threads| == |s.threads| && s' == s.(core := s'.core, threads := s'.threads)
    && forall j :: 0 <= j < |s.threads| ==>
         s'.threads[j] == if j == w then Signalled(s.threads[j], s.core.signals, s'.core.signals) else s.threads[j]
  }

  /** s' comes from a request of t on threadlet i: t's continuation and the program point have moved,
      thread w is woken if it waited and there was a signal, and nothing else has changed but the core. */
  ghost predicate RequestsOnly(s: State, s': State, i: nat, t: Tid, w: nat) {
    && i < |s.threads| == |s'.threads| && t < |s.ctx| == |s'.ctx|
    && s' == s.(core := s'.core, ctx := s.ctx[t := s.ctx[t].(cont := s'.ctx[t].cont)], threads := s'.threads)
    && s'.threads[i] == s.threads[i].(pc := s'.threads[i].pc)
    && forall j :: 0 <= j < |s.threads| && j != i ==>
         s'.threads[j] == if j == w then Signalled(s.threads[j], s.core.signals, s'.core.signals) else s.threads[j]
  }

  lemma SettleSignals(s: State, c: Core, w: nat, s': State)
    requires Settle(s, c, w) == Next(s')
    ensures SignalsOnly(s, s', w) && s'.core == c
  {
  }

  lemma LeaveOnly(s: State, i: nat, t: Tid, c: Core, cont: Cont, s': State, w: nat)
    requires i < |s.threads| && t < |s.ctx| && Leave(s, i, t, PickNext(c), cont) == Next(s') && c.signals == s.core.signals
    ensures RequestsOnly(s, s', i, t, w) && s'.core.signals == s.core.signals
  {
  }

  lemma FetchOnly(s: State, i: nat, t: Tid, timedWait: bool, s': State, w: nat)
    requires i < |s.threads| && t < |s.ctx| && t < |s.core.tasks| && FetchAnd(s, i, t, timedWait) == Next(s')
    ensures RequestsOnly(s, s', i, t, w)
  {
  }

  lemma YieldOnly(s: State, i: nat, t: Tid, cont: Cont, s': State, w: nat)
    requires i < |s.threads| && t < |s.ctx| && t < |s.core.tasks| && YieldOr(s, i, t, cont) == Next(s')
    ensures RequestsOnly(s, s', i, t, w) && s'.core.signals == s.core.signals
  {
    if s.core.runq != [] {
      LeaveOnly(s, i, t, PushRunnable(s.core, t).value, cont, s', w);
    } else if cont == InRecvYield {
      FetchOnly(s, i, t, false, s', w);
    }
  }

  lemma RecvOnly(s: State, i: nat, t: Tid, cont: Cont, switched: bool, s': State, w: nat)
    requires i < |s.threads| && t < |s.ctx| && t < |s.core.tasks| && RecvLoop(s, i, t, cont, switched) == Next(s')
    ensures RequestsOnly(s, s', i, t, w)
  {
    if s.core.tasks[t].mail != [] {
      if switched {
        FetchOnly(s, i, t, cont.InRecvTimed?, s', w);
      } else {
        YieldOnly(s, i, t, InRecvYield, s', w);
      }
    } else if cont.InRecvTimed? {
      LeaveOnly(s, i, t, AddSleeper(s.core, t, TimeoutWaitting, cont.wake), cont, s', w);
    } else {
      LeaveOnly(s, i, t, Park(s.core, t).value, cont, s', w);
    }
  }

  lemma SignalThenRequest(s: State, s1: State, s': State, i: nat, t: Tid, w: nat)
    requires SignalsOnly(s, s1, w) && RequestsOnly(s1, s', i, t, w) && s'.core.signals == s1.core.signals
    requires i < |s.threads| && !s.threads[i].pc.Blocked?
    ensures RequestsOnly(s, s', i, t, w)
  {
  }

  lemma SendOnly(s: State, i: nat, t: Tid, target: Tid, msg: Message, w: nat, s': State)
    requires i < |s.threads| && t < |s.ctx| && t < |s.core.tasks| && Live(s, target) && !s.threads[i].pc.Blocked?
    requires AtSend(s, i, t, target, msg, w) == Next(s')
    ensures RequestsOnly(s, s', i, t, w)
  {
    var c := Dispatch(s.core, target, msg, true).value;
    var s1 := Settle(s, c, w).s;
    SettleSignals(s, c, w, s1);
    YieldOnly(s1, i, t, InYield, s', w);
    SignalThenRequest(s, s1, s', i, t, w);
  }

  lemma RequestOnly(s: State, i: nat, t: Tid, op: Op, w: nat, s': State)
    requires i < |s.threads| && t < |s.ctx| && t < |s.core.tasks| && !s.threads[i].pc.Blocked?
    requires AtRequest(s, i, t, op, w) == Next(s')
    ensures RequestsOnly(s, s', i, t, w)
  {
    match op
    case Send(target, msg) => SendOnly(s, i, t, target, msg, w, s');
    case Recv => RecvOnly(s, i, t, InRecv, false, s', w);
    case RecvTimed(delay) => RecvOnly(s, i, t, InRecvTimed(s.time + delay), false, s', w);
    case Sleep(delay) => LeaveOnly(s, i, t, AddSleeper(s.core, t, Sleeping, s.time + delay), InSleep, s', w);
    case Yield => YieldOnly(s, i, t, InYield, s', w);
  }

  /** What a request and the end of a waiting `recv` leave alone.  (After `stop`, and for the end of the
      tasklet's code, see StoppedThrows and EndsInSlot.) */
  lemma RequestLeavesRest(s: State, i: nat, t: Tid, op: Op, w: nat, s': State)
    requires Reachable(s) && !s.destroyed && !s.stop && i < |s.threads| && s.threads[i].pc == Exec(t, Enter(op))
    requires !op.BeforeStart? && !op.Finish? && !op.Fail? && Step(s, Run(i, w)) == Next(s')
    ensures RequestsOnly(s, s', i, t, w)
  {
    var pl := ReachablePlacement(s);
    EnterKnows(s, pl, i, t);
    RequestOnly(s, i, t, op, w, s');
  }

  lemma ResumedLeavesRest(s: State, i: nat, t: Tid, w: nat, s': State)
    requires Reachable(s) && !s.destroyed && i < |s.threads| && s.threads[i].pc == Exec(t, Resumed)
    requires t < |s.ctx| && InsideRecv(s.ctx[t].cont) && Step(s, Run(i, w)) == Next(s')
    ensures RequestsOnly(s, s', i, t, w)
  {
    var pl := ReachablePlacement(s);
    EnterKnows(s, pl, i, t);
    assert s.(core := SetState(s.core, t, Running)) == s by {
      assert s.core.tasks == s.core.tasks[t := s.core.tasks[t]];
    }
    match s.ctx[t].cont
    case InRecv => RecvOnly(s, i, t, InRecv, true, s', w);
    case InRecvTimed(wake) => RecvOnly(s, i, t, InRecvTimed(wake), true, s', w);
    case _ => FetchOnly(s, i, t, false, s', w);
  }

  /** Posts, deadlines and starts change the core, and wake a thread if they signal. */
  lemma AgentLeavesRest(s: State, a: Action, w: nat, s': State)
    requires Reachable(s) && Step(s, a) == Next(s')
    requires (a.PortPost? && a.w == w) || a == TimerStep(w) || (a.ExtStart? && a.w == w)
    ensures SignalsOnly(s, s', w)
  {
    match a
    case PortPost(t, content, _) => SettleSignals(s, Dispatch(s.core, t, PortMsg(content), true).value, w, s');
    case TimerStep(_) => SettleSignals(s, ExpireFirst(s.core).value, w, s');
    case ExtStart(_, t, _) => StartLeavesRest(s, t, w, s');
  }

  lemma StartLeavesRest(s: State, t: Tid, w: nat, s': State)
    requires t < |s.core.tasks| && StartTasklet(s, t, w) == Next(s')
    ensures SignalsOnly(s, s', w)
  {
    if !s.core.tasks[t].started {
      var c := PushTasklet(s.core, t).value;
      SettleSignals(s, c.(tasks := c.tasks[t := c.tasks[t].(started := true)]), w, s');
    }
  }

  // ----- who may step at all

  /** A threadlet has no step of its own before it is started, in the condition wait, in user code and
      after its end; and nobody has any once the service is destroyed. */
  lemma NothingToRun(s: State, a: Action, i: nat, w: nat)
    ensures i < |s.threads| && (s.threads[i].pc.NotStarted? || s.threads[i].pc.Blocked? || s.threads[i].pc.Exited?) ==>
              !Step(s, Run(i, w)).Next?
    ensures i < |s.threads| && s.threads[i].pc.Exec? && (s.threads[i].pc.w.User? || s.threads[i].pc.w.Thrown?) ==>
              !Step(s, Run(i, w)).Next?
    ensures s.destroyed || i >= |s.threads| ==> !Step(s, Run(i, w)).Next?
    ensures s.destroyed ==> !Step(s, a).Next?
  {
  }

  /** Posts, deadlines and starts take place inside the critical section, for tasklets that exist; and the
      timer's turn while somebody is due. */
  lemma OnlyInside(s: State, w: nat, k: nat, t: Tid, content: int)
    ensures Step(s, PortPost(t, content, w)).Next? ==> s.portIn && Live(s, t)
    ensures Step(s, ExtStart(k, t, w)).Next? ==> k in s.ext && Live(s, t)
    ensures Step(s, TimerStep(w)).Next? ==> s.timerIn && Due(s.core, s.time)
  {
  }

  // ----- what no other step changes

  ghost predicate ClockKept(s: State, s': State) {
    && s'.time == s.time && s'.stop == s.stop && |s'.threads| == |s.threads| && s'.destroyed == s.destroyed
    && s'.timerIn == s.timerIn && s'.portIn == s.portIn && s'.ext == s.ext
  }

  lemma IdleKeepsClock(s: State, i: nat, w: nat, s': State)
    requires Reachable(s) && i < |s.threads| && Step(s, Run(i, w)) == Next(s')
    requires s.threads[i].pc.Top? || s.threads[i].pc.Locking? || s.threads[i].pc.Woken? || s.threads[i].pc.Popping?
    ensures ClockKept(s, s')
  {
    match s.threads[i].pc
    case Top => TopGoesOn(s, i, w);
    case Locking => LockTakes(s, i, w);
    case Woken => LockTakes(s, i, w);
    case Popping => PoppingGoesOn(s, i, w);
  }

  lemma OwnStackKeepsClock(s: State, i: nat, w: nat, s': State)
    requires Reachable(s) && i < |s.threads| && !s.threads[i].pc.Exec? && Step(s, Run(i, w)) == Next(s')
    ensures ClockKept(s, s')
  {
    match s.threads[i].pc
    case SwitchIn(t) => SwitchInEnters(s, i, t, w);
    case Back => BackFrees(s, i, w);
    case Unwind => UnwindEnds(s, i, w);
    case _ => IdleKeepsClock(s, i, w, s');
  }

  lemma EnterKeepsClock(s: State, i: nat, t: Tid, op: Op, w: nat, s': State)
    requires Reachable(s) && !s.destroyed && i < |s.threads| && s.threads[i].pc == Exec(t, Enter(op))
    requires Step(s, Run(i, w)) == Next(s')
    ensures ClockKept(s, s')
  {
    if op.BeforeStart? || op.Finish? || op.Fail? || s.stop {
      EndsKeepClock(s, i, t, op, w, s');
    } else {
      RequestLeavesRest(s, i, t, op, w, s');
    }
  }

  lemma EndsKeepClock(s: State, i: nat, t: Tid, op: Op, w: nat, s': State)
    requires i < |s.threads| && AtEnter(s, i, t, op, w) == Next(s') && (op.BeforeStart? || op.Finish? || op.Fail? || s.stop)
    ensures ClockKept(s, s')
  {
  }

  lemma ExecKeepsClock(s: State, i: nat, t: Tid, at: Where, w: nat, s': State)
    requires Reachable(s) && !s.destroyed && i < |s.threads| && s.threads[i].pc == Exec(t, at) && Step(s, Run(i, w)) == Next(s')
    ensures ClockKept(s, s')
  {
    var pl := ReachablePlacement(s);
    assert ThreadOk(s, pl, i);
    match at
    case Acquire(op) => AcquireTakes(s, i, t, op, w);
    case Enter(op) => EnterKeepsClock(s, i, t, op, w, s');
    case SwapTo(next) => SwapToEnters(s, i, t, next, w);
    case SwapBack => SwapBackLeaves(s, i, t, w);
    case Resumed => if InsideRecv(s.ctx[t].cont) { ResumedLeavesRest(s, i, t, w, s'); } else { ResumedGoesOn(s, i, t, w); }
    case Release(thrown) => ReleaseFrees(s, i, t, thrown, w);
    case _ =>
  }

  lemma AgentClock(s: State, a: Action, s': State)
    requires Reachable(s) && Step(s, a) == Next(s') && !a.Run?
    ensures s'.time == (if a.Tick? then a.now else s.time) && s'.stop == (s.stop || a.ExtStop?)
    ensures |s'.threads| == |s.threads| && s'.destroyed == a.Destroy?
  {
    if a.PortPost? || a.TimerStep? || a.ExtStart? {
      AgentLeavesRest(s, a, a.w, s');
    } else {
      PlainClock(s, a, s');
    }
  }

  lemma PlainClock(s: State, a: Action, s': State)
    requires Step(s, a) == Next(s') && !a.Run? && !a.PortPost? && !a.TimerStep? && !a.ExtStart?
    ensures s'.time == (if a.Tick? then a.now else s.time) && s'.stop == (s.stop || a.ExtStop?)
    ensures |s'.threads| == |s.threads| && s'.destroyed == a.Destroy?
  {
  }

  /** The clock moves by a tick alone, the service is stopped by `stop` alone, and for good, and the
      pool keeps its size. */
  lemma ClockAndStop(s: State, a: Action, s': State)
    requires Reachable(s) && Step(s, a) == Next(s')
    ensures s'.time == (if a.Tick? then a.now else s.time) && s'.stop == (s.stop || a.ExtStop?)
    ensures |s'.threads| == |s.threads| && s'.destroyed == a.Destroy?
  {
    if a.Run? {
      if s.threads[a.i].pc.Exec? {
        ExecKeepsClock(s, a.i, s.threads[a.i].pc.t, s.threads[a.i].pc.w, a.w, s');
      } else {
        OwnStackKeepsClock(s, a.i, a.w, s');
      }
    } else {
      AgentClock(s, a, s');
    }
  }

  /** Construction makes a pool of threadlets that have not been started, and nothing else; and the pool
      keeps its size. */
  lemma PoolKept(pool: nat, actions: seq<Action>)
    ensures var s := Init(pool);
      && |s.threads| == pool && (forall i :: 0 <= i < pool ==> s.threads[i] == Thread(NotStarted, false, false, None, None))
      && s.core == Core([], [], [], [], 0) && s.ctx == [] && s.mutex == None && !s.stop && !s.destroyed
    ensures Execute(Init(pool), actions).Next? ==> |Execute(Init(pool), actions).s.threads| == pool
  {
    assert Execute(Init(pool), []) == Next(Init(pool));
    PoolAlong(Init(pool), actions);
  }

  lemma {:induction false} PoolAlong(s: State, actions: seq<Action>)
    requires Reachable(s)
    ensures Execute(s, actions).Next? ==> |Execute(s, actions).s.threads| == |s.threads|
    decreases actions
  {
    if actions == [] {
    } else if Step(s, actions[0]).Next? {
      var s1 := Step(s, actions[0]).s;
      ClockAndStop(s, actions[0], s1);
      StepReachable(s, actions[0]);
      PoolAlong(s1, actions[1..]);
    }
  }
}
