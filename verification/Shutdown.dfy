/** Progress: critical sections end, and a service that was stopped can always be shut down. */
module Shutdown {
  import opened Base
  import opened Queues
  import opened Machine
  import opened Invariant
  import opened Safety

  // ----- the holder of the mutex moves

  /** Threadlet i is about to run a send whose target does not exist any more. */
  predicate SendsToDead(s: State, i: nat)
    requires i < |s.threads|
  {
    var pc := s.threads[i].pc;
    !s.stop && pc.Exec? && pc.w.Enter? && pc.w.op.Send? && !Live(s, pc.w.op.target)
  }

  /** A thread that a signal may reach, if one waits for it. */
  lemma SomeSignal(ths: seq<Thread>) returns (w: nat)
    ensures MaySignal(ths, w)
  {
    w := 0;
    if i :| 0 <= i < |ths| && IsBlocked(ths[i]) {
      w := i;
    }
  }

  lemma EnterMoves(s: State, i: nat, t: Tid, op: Op, w: nat)
    requires i < |s.threads| && MaySignal(s.threads, w) && (!s.stop && op.Send? ==> Live(s, op.target))
    ensures !AtEnter(s, i, t, op, w).Disabled?
  {
  }

  lemma ResumedMoves(s: State, i: nat, t: Tid)
    requires i < |s.threads|
    ensures !AtResumed(s, i, t).Disabled?
  {
  }

  /** The threadlet that holds the mutex can always take its next step, whichever it is, except when it
      is at a send to a tasklet that has been deleted. */
  lemma HolderMovesIff(s: State, i: nat)
    requires Reachable(s) && !s.destroyed && i < |s.threads| && s.mutex == Some(Thr(i))
    ensures (exists w :: Step(s, Run(i, w)).Next?) <==> !SendsToDead(s, i)
  {
    var pl := ReachablePlacement(s);
    assert ThreadOk(s, pl, i);
    var w := SomeSignal(s.threads);
    StepReachable(s, Run(i, w));
    match s.threads[i].pc
    case Exec(t, at) =>
      if at.Enter? {
        if SendsToDead(s, i) {
          SendDisabled(s, i, t, at.op);
        } else {
          EnterMoves(s, i, t, at.op, w);
        }
      } else if at.Resumed? {
        ResumedMoves(s, i, t);
      }
    case _ =>
  }

  lemma SendDisabled(s: State, i: nat, t: Tid, op: Op)
    requires Reachable(s) && !s.destroyed && i < |s.threads| && s.threads[i].pc == Exec(t, Enter(op)) && SendsToDead(s, i)
    ensures forall w :: !Step(s, Run(i, w)).Next?
  {
  }

  /** So can the timer, the port service and an outside thread while they hold it. */
  lemma AgentHolderMoves(s: State) returns (a: Action)
    requires Reachable(s) && !s.destroyed && s.mutex.Some? && !s.mutex.value.Thr?
    ensures Step(s, a).Next?
  {
    var pl := ReachablePlacement(s);
    match s.mutex.value
    case TimerAgent =>
      var w := SomeSignal(s.threads);
      a := if Due(s.core, s.time) then TimerStep(w) else TimerUnlock;
      StepReachable(s, a);
    case PortAgent => a := PortUnlock;
    case Ext(k) => a := ExtUnlock(k);
  }

  // ----- critical sections end

  /** How many more steps a threadlet can take before it leaves the critical section. */
  function SectionRank(pc: Pc): nat {
    match pc
    case Popping => 6
    case SwitchIn(_) => 5
    case Back => 1
    case Unwind => 1
    case Exec(_, at) => (match at
                         case Enter(op) => if op.BeforeStart? then 3 else 6
                         case SwapTo(_) => 5
                         case Resumed => 4
                         case SwapBack => 2
                         case Release(_) => 1
                         case _ => 0)
    case _ => 0
  }

  /** s' comes from a step of threadlet i in the critical section: it has left it, or comes closer. */
  ghost predicate LeavesBy(s: State, s': State, i: nat) {
    && i < |s.threads| == |s'.threads| && !s'.destroyed
    && (s'.mutex == None || (s'.mutex == s.mutex && SectionRank(s'.threads[i].pc) < SectionRank(s.threads[i].pc)))
    && (s'.mutex != None ==> !SendsToDead(s', i))
  }

  lemma OwnStackLeaves(s: State, i: nat, w: nat, s': State)
    requires i < |s.threads| && s.mutex == Some(Thr(i)) && s.threads[i].locked && !s.destroyed
    requires s.threads[i].pc.Popping? || s.threads[i].pc.SwitchIn? || s.threads[i].pc.Back?
    requires RunThread(s, i, w) == Next(s')
    ensures LeavesBy(s, s', i)
  {
  }

  lemma UnwindLeaves(s: State, i: nat, s': State)
    requires i < |s.threads| && s.mutex == Some(Thr(i)) && s.threads[i].locked && !s.destroyed && AtUnwind(s, i) == Next(s')
    ensures LeavesBy(s, s', i)
  {
  }

  lemma SwapLeaves(s: State, i: nat, t: Tid, at: Where, w: nat, s': State)
    requires i < |s.threads| && s.mutex == Some(Thr(i)) && s.threads[i].locked && !s.destroyed && s.threads[i].pc == Exec(t, at)
    requires at.SwapTo? || at.SwapBack? || at.Release?
    requires AtExec(s, i, t, at, w) == Next(s')
    ensures LeavesBy(s, s', i)
  {
  }

  lemma LeaveLeaves(s: State, i: nat, t: Tid, c: Core, cont: Cont, s': State)
    requires i < |s.threads| && t < |s.ctx| && Leave(s, i, t, PickNext(c), cont) == Next(s')
    ensures |s'.threads| == |s.threads| && s'.mutex == s.mutex && s'.destroyed == s.destroyed
    ensures s'.threads[i].pc == Exec(t, SwapBack) || (s'.threads[i].pc.Exec? && s'.threads[i].pc.w.SwapTo?)
  {
  }

  lemma YieldOrLeaves(s: State, i: nat, t: Tid, cont: Cont, s': State)
    requires i < |s.threads| && t < |s.ctx| && t < |s.core.tasks| && YieldOr(s, i, t, cont) == Next(s')
    ensures |s'.threads| == |s.threads| && s'.mutex == s.mutex && s'.destroyed == s.destroyed
    ensures s'.threads[i].pc.Exec? && (s'.threads[i].pc.w.SwapBack? || s'.threads[i].pc.w.SwapTo? || s'.threads[i].pc.w.Release?)
  {
    if s.core.runq != [] {
      LeaveLeaves(s, i, t, PushRunnable(s.core, t).value, cont, s');
    }
  }

  lemma RecvLoopLeaves(s: State, i: nat, t: Tid, cont: Cont, switched: bool, s': State)
    requires i < |s.threads| && t < |s.ctx| && t < |s.core.tasks| && RecvLoop(s, i, t, cont, switched) == Next(s')
    ensures |s'.threads| == |s.threads| && s'.mutex == s.mutex && s'.destroyed == s.destroyed && s'.threads[i].pc.Exec?
    ensures s'.threads[i].pc.w.SwapBack? || s'.threads[i].pc.w.SwapTo? || s'.threads[i].pc.w.Release?
    ensures switched && s.core.tasks[t].mail != [] ==> s'.threads[i].pc.w.Release?
  {
    if s.core.tasks[t].mail != [] {
      if !switched {
        YieldOrLeaves(s, i, t, InRecvYield, s');
      }
    } else if cont.InRecvTimed? {
      LeaveLeaves(s, i, t, AddSleeper(s.core, t, TimeoutWaitting, cont.wake), cont, s');
    } else {
      LeaveLeaves(s, i, t, Park(s.core, t).value, cont, s');
    }
  }

  lemma SendLeaves(s: State, i: nat, t: Tid, target: Tid, msg: Message, w: nat, s': State)
    requires i < |s.threads| && t < |s.ctx| && t < |s.core.tasks| && Live(s, target)
    requires AtSend(s, i, t, target, msg, w) == Next(s')
    ensures |s'.threads| == |s.threads| && s'.mutex == s.mutex && s'.destroyed == s.destroyed && s'.threads[i].pc.Exec?
    ensures s'.threads[i].pc.w.SwapBack? || s'.threads[i].pc.w.SwapTo? || s'.threads[i].pc.w.Release?
  {
    var c := Dispatch(s.core, target, msg, true).value;
    YieldOrLeaves(Settle(s, c, w).s, i, t, InYield, s');
  }

  lemma RequestLeaves(s: State, i: nat, t: Tid, op: Op, w: nat, s': State)
    requires i < |s.threads| && t < |s.ctx| && t < |s.core.tasks| && AtRequest(s, i, t, op, w) == Next(s')
    ensures |s'.threads| == |s.threads| && s'.mutex == s.mutex && s'.destroyed == s.destroyed && s'.threads[i].pc.Exec?
    ensures s'.threads[i].pc.w.SwapBack? || s'.threads[i].pc.w.SwapTo? || s'.threads[i].pc.w.Release?
  {
    match op
    case Send(target, msg) =>
      SendLeaves(s, i, t, target, msg, w, s');
    case Recv => RecvLoopLeaves(s, i, t, InRecv, false, s');
    case RecvTimed(delay) => RecvLoopLeaves(s, i, t, InRecvTimed(s.time + delay), false, s');
    case Sleep(delay) => LeaveLeaves(s, i, t, AddSleeper(s.core, t, Sleeping, s.time + delay), InSleep, s');
    case Yield => YieldOrLeaves(s, i, t, InYield, s');
  }

  lemma EnterLeaves(s: State, i: nat, t: Tid, op: Op, w: nat, s': State)
    requires i < |s.threads| && s.mutex == Some(Thr(i)) && !s.destroyed && s.threads[i].pc == Exec(t, Enter(op))
    requires AtEnter(s, i, t, op, w) == Next(s')
    ensures LeavesBy(s, s', i)
  {
    if !op.BeforeStart? && !op.Finish? && !op.Fail? && !s.stop {
      RequestLeaves(s, i, t, op, w, s');
    }
  }

  lemma ResumedLeaves(s: State, i: nat, t: Tid, s': State)
    requires i < |s.threads| && s.mutex == Some(Thr(i)) && s.threads[i].locked && !s.destroyed && s.threads[i].pc == Exec(t, Resumed)
    requires AtResumed(s, i, t) == Next(s') && t < |s.ctx| && t < |s.core.tasks|
    requires InsideRecv(s.ctx[t].cont) ==> s.core.tasks[t].mail != []
    ensures LeavesBy(s, s', i)
  {
    var s1 := s.(core := SetState(s.core, t, Running));
    match s.ctx[t].cont
    case InRecv => RecvLoopLeaves(s1, i, t, InRecv, true, s');
    case InRecvTimed(wake) => RecvLoopLeaves(s1, i, t, InRecvTimed(wake), true, s');
    case _ =>
  }

  /** Every step of the threadlet in the critical section brings it closer to leaving it. */
  lemma HolderLeaves(s: State, i: nat, w: nat, s': State)
    requires Reachable(s) && !s.destroyed && i < |s.threads| && s.mutex == Some(Thr(i)) && Step(s, Run(i, w)) == Next(s')
    ensures LeavesBy(s, s', i)
  {
    var pl := ReachablePlacement(s);
    assert ThreadOk(s, pl, i);
    match s.threads[i].pc
    case Unwind => UnwindLeaves(s, i, s');
    case Exec(t, at) =>
      if at.Enter? {
        EnterLeaves(s, i, t, at.op, w, s');
      } else if at.Resumed? {
        NoMissedMessage(s, t);
        ResumedLeaves(s, i, t, s');
      } else {
        SwapLeaves(s, i, t, at, w, s');
      }
    case _ => OwnStackLeaves(s, i, w, s');
  }

  /** Critical sections end: a threadlet that holds the mutex frees it by at most six steps of its own,
      unless it is at a send to a tasklet that has been deleted. */
  lemma {:induction false} CriticalSectionEnds(s: State, i: nat) returns (ws: seq<nat>)
    requires Reachable(s) && !s.destroyed && i < |s.threads| && s.mutex == Some(Thr(i)) && !SendsToDead(s, i)
    ensures |ws| <= SectionRank(s.threads[i].pc) <= 6
    ensures Execute(s, Runs(i, ws)).Next? && Execute(s, Runs(i, ws)).s.mutex == None
    decreases SectionRank(s.threads[i].pc)
  {
    HolderMovesIff(s, i);
    var w :| Step(s, Run(i, w)).Next?;
    var s' := Step(s, Run(i, w)).s;
    HolderLeaves(s, i, w, s');
    StepReachable(s, Run(i, w));
    if s'.mutex == None {
      ws := [w];
      assert Runs(i, ws)[1..] == [] && Execute(s', []) == Next(s');
      InsideRanked(s, i);
    } else {
      var rest := CriticalSectionEnds(s', i);
      ws := [w] + rest;
      assert Runs(i, ws)[1..] == Runs(i, rest);
    }
  }

  /** Steps of threadlet i, with the given choices of the thread that a signal reaches. */
  function Runs(i: nat, ws: seq<nat>): seq<Action> {
    seq(|ws|, k requires 0 <= k < |ws| => Run(i, ws[k]))
  }

  lemma InsideRanked(s: State, i: nat)
    requires Reachable(s) && !s.destroyed && i < |s.threads| && s.mutex == Some(Thr(i))
    ensures 0 < SectionRank(s.threads[i].pc) <= 6
  {
    var pl := ReachablePlacement(s);
    assert ThreadOk(s, pl, i);
  }

  // ----- shutting down

  /** How far a threadlet is from its end once the service is stopped, if its tasklet's code returns. */
  function Rank(pc: Pc): nat {
    match pc
    case Top => 1
    case Unwind => 1
    case Popping => 2
    case Back => 2
    case Locking => 3
    case Woken => 3
    case Exec(_, at) => RankAt(at)
    case _ => 0
  }

  function RankAt(at: Where): nat {
    match at
    case Thrown => 1
    case SwapBack => 3
    case Enter(op) => if op.Finish? || op.Fail? then 4 else 8
    case Acquire(op) => if op.Finish? || op.Fail? then 5 else 9
    case User => 6
    case Release(_) => 7
    case _ => 0
  }

  function Ranks(ths: seq<Thread>): nat {
    if ths == [] then 0 else Rank(ths[0].pc) + Ranks(ths[1..])
  }

  lemma {:induction false} RanksUpdate(ths: seq<Thread>, i: nat, h: Thread)
    requires i < |ths|
    ensures Ranks(ths[i := h]) == Ranks(ths) - Rank(ths[i].pc) + Rank(h.pc)
  {
    if i == 0 {
      assert ths[i := h][1..] == ths[1..];
    } else {
      assert ths[i := h][1..] == ths[1..][i - 1 := h];
      RanksUpdate(ths[1..], i - 1, h);
    }
  }

  /** What the agents that are no threadlets still have to do in the critical section. */
  function AgentWork(s: State): nat {
    if s.timerIn then |s.core.sleepers| + 1 else if s.mutex.Some? && !s.mutex.value.Thr? then 1 else 0
  }

  function Work(s: State): nat {
    Ranks(s.threads) + AgentWork(s)
  }

  /** The step of threadlet i towards its end. */
  function Onward(i: nat, pc: Pc): Action {
    if pc.Exec? && pc.w.User? then Call(i, Finish)
    else if pc.Exec? && pc.w.Thrown? then Propagate(i)
    else Run(i, 0)
  }

  /** s' comes from a step of threadlet i towards its end. */
  ghost predicate CloserBy(s: State, s': State, i: nat) {
    && i < |s.threads| == |s'.threads| && s'.threads == s.threads[i := s'.threads[i]]
    && Rank(s'.threads[i].pc) < Rank(s.threads[i].pc)
    && !s'.timerIn && (s'.mutex.Some? ==> s'.mutex.value.Thr?) && s'.stop && !s'.destroyed
  }

  /** Program points of a stopped threadlet from which it goes on. */
  lemma StoppedPc(s: State, i: nat) returns (pl: Placement)
    requires Reachable(s) && !s.destroyed && s.stop && i < |s.threads|
    ensures InvAt(s, pl) && ThreadOk(s, pl, i)
    ensures var pc := s.threads[i].pc;
      && !pc.Blocked? && !pc.SwitchIn? && (pc.Exec? ==> !pc.w.SwapTo? && !pc.w.Resumed?)
      && (pc.Exec? ==> pc.w != Enter(BeforeStart))
      && (pc.Exec? && pc.w.Acquire? ==> !pc.w.op.BeforeStart?)
  {
    pl := ReachablePlacement(s);
    assert ThreadOk(s, pl, i);
  }

  lemma TopOnward(s: State, i: nat)
    requires i < |s.threads| && s.stop && s.threads[i].stop && !s.timerIn && !s.destroyed && s.threads[i].pc.Top?
    requires s.mutex.Some? ==> s.mutex.value.Thr?
    ensures CloserBy(s, AtTop(s, i), i)
  {
  }

  lemma UnwindOnward(s: State, i: nat, s': State)
    requires i < |s.threads| && s.stop && !s.timerIn && !s.destroyed && s.threads[i].pc.Unwind?
    requires (s.mutex.Some? ==> s.mutex.value.Thr?) && AtUnwind(s, i) == Next(s')
    ensures CloserBy(s, s', i)
  {
  }

  lemma LockOnward(s: State, i: nat, s': State)
    requires i < |s.threads| && s.stop && !s.timerIn && !s.destroyed
    requires s.threads[i].pc.Locking? || s.threads[i].pc.Woken? || s.threads[i].pc.Popping? || s.threads[i].pc.Back?
    requires (s.mutex.Some? ==> s.mutex.value.Thr?) && RunThread(s, i, 0) == Next(s')
    ensures CloserBy(s, s', i)
  {
  }

  lemma EnterOnward(s: State, i: nat, t: Tid, op: Op, s': State)
    requires i < |s.threads| && s.threads[i].pc == Exec(t, Enter(op)) && s.stop && !s.timerIn && !s.destroyed
    requires (s.mutex.Some? ==> s.mutex.value.Thr?) && AtEnter(s, i, t, op, 0) == Next(s')
    ensures CloserBy(s, s', i)
  {
  }

  lemma ExecOnward(s: State, i: nat, t: Tid, at: Where, s': State)
    requires i < |s.threads| && s.threads[i].pc == Exec(t, at) && s.stop && !s.timerIn && !s.destroyed
    requires (s.mutex.Some? ==> s.mutex.value.Thr?) && AtExec(s, i, t, at, 0) == Next(s')
    requires at.SwapBack? || at.Release? || at.Acquire?
    ensures CloserBy(s, s', i)
  {
  }

  lemma UserOnward(s: State, i: nat, t: Tid) returns (s': State)
    requires Reachable(s) && !s.destroyed && s.stop && !s.timerIn && i < |s.threads| && s.threads[i].pc == Exec(t, User)
    requires s.mutex == None
    ensures Step(s, Call(i, Finish)) == Next(s') && CloserBy(s, s', i)
  {
    var pl := StoppedPc(s, i);
    s' := Step(s, Call(i, Finish)).s;
  }

  lemma ThrownOnward(s: State, i: nat, t: Tid) returns (s': State)
    requires Reachable(s) && !s.destroyed && s.stop && !s.timerIn && i < |s.threads| && s.threads[i].pc == Exec(t, Thrown)
    requires s.mutex == None
    ensures Step(s, Propagate(i)) == Next(s') && CloserBy(s, s', i)
  {
    s' := Step(s, Propagate(i)).s;
  }

  lemma RunOnward(s: State, i: nat) returns (s': State)
    requires Reachable(s) && !s.destroyed && s.stop && !s.timerIn && i < |s.threads| && Rank(s.threads[i].pc) > 0
    requires s.mutex == None || s.mutex == Some(Thr(i))
    requires s.threads[i].pc.Exec? ==> !s.threads[i].pc.w.User? && !s.threads[i].pc.w.Thrown?
    ensures Step(s, Run(i, 0)) == Next(s') && CloserBy(s, s', i)
  {
    var pl := StoppedPc(s, i);
    StepReachable(s, Run(i, 0));
    s' := Step(s, Run(i, 0)).s;
    match s.threads[i].pc
    case Exec(t, at) =>
      if at.Enter? {
        EnterOnward(s, i, t, at.op, s');
      } else {
        ExecOnward(s, i, t, at, s');
      }
    case Top => TopOnward(s, i);
    case Unwind => UnwindOnward(s, i, s');
    case _ => LockOnward(s, i, s');
  }

  /** A threadlet that can go on does so, and comes closer to its end. */
  lemma ThreadOnward(s: State, i: nat) returns (s': State)
    requires Reachable(s) && !s.destroyed && s.stop && !s.timerIn && i < |s.threads| && Rank(s.threads[i].pc) > 0
    requires s.mutex == None || (s.mutex == Some(Thr(i)) && Inside(s.threads[i].pc))
    ensures Step(s, Onward(i, s.threads[i].pc)) == Next(s') && CloserBy(s, s', i)
  {
    var pc := s.threads[i].pc;
    if pc.Exec? && pc.w.User? {
      s' := UserOnward(s, i, pc.t);
    } else if pc.Exec? && pc.w.Thrown? {
      s' := ThrownOnward(s, i, pc.t);
    } else {
      s' := RunOnward(s, i);
    }
  }

  /** An agent that is no threadlet comes closer to leaving the critical section. */
  lemma AgentOnward(s: State) returns (a: Action, s': State)
    requires Reachable(s) && !s.destroyed && s.stop && s.mutex.Some? && !s.mutex.value.Thr?
    ensures Step(s, a) == Next(s') && Work(s') < Work(s) && s'.stop && !s'.destroyed
  {
    var pl := ReachablePlacement(s);
    match s.mutex.value
    case TimerAgent =>
      if Due(s.core, s.time) {
        a, s' := ExpiresOnward(s);
      } else {
        a := TimerUnlock;
        s' := Step(s, a).s;
      }
    case PortAgent => a := PortUnlock; s' := Step(s, a).s;
    case Ext(k) => a := ExtUnlock(k); s' := Step(s, a).s;
  }

  lemma ExpiresOnward(s: State) returns (a: Action, s': State)
    requires Reachable(s) && !s.destroyed && s.stop && s.timerIn && Due(s.core, s.time)
    ensures Step(s, a) == Next(s') && Work(s') < Work(s) && s'.stop && !s'.destroyed
  {
    var w := SomeSignal(s.threads);
    a := TimerStep(w);
    StepReachable(s, a);
    s' := Step(s, a).s;
    NoLostWakeup(s);
    assert s'.threads == s.threads;
  }

  /** A stopped service that is not at rest has a step that brings it closer to rest. */
  lemma WorkOnward(s: State) returns (a: Action, s': State)
    requires Reachable(s) && !s.destroyed && s.stop && !Joined(s)
    ensures Step(s, a) == Next(s') && Reachable(s') && Work(s') < Work(s) && s'.stop && !s'.destroyed
  {
    var pl := ReachablePlacement(s);
    if s.mutex.Some? && !s.mutex.value.Thr? {
      a, s' := AgentOnward(s);
    } else {
      var i := Unfinished(s);
      a := Onward(i, s.threads[i].pc);
      s' := ThreadOnward(s, i);
      RanksUpdate(s.threads, i, s'.threads[i]);
    }
    StepReachable(s, a);
  }

  /** A threadlet that has not come to its end, and that nobody keeps out of the critical section. */
  lemma Unfinished(s: State) returns (i: nat)
    requires Reachable(s) && !s.destroyed && s.stop && !Joined(s) && (s.mutex.Some? ==> s.mutex.value.Thr?)
    ensures i < |s.threads| && Rank(s.threads[i].pc) > 0 && !s.timerIn
    ensures s.mutex == None || (s.mutex == Some(Thr(i)) && Inside(s.threads[i].pc))
  {
    var pl := ReachablePlacement(s);
    if s.mutex.Some? {
      i := s.mutex.value.i;
    } else {
      i :| 0 <= i < |s.threads| && !s.threads[i].pc.Exited? && !s.threads[i].pc.NotStarted?;
    }
    var pl' := StoppedPc(s, i);
  }

  /** From every reachable state in which the service has been stopped there is a way to its end: all
      threads can be joined, and the destructor deletes what is left. */
  lemma {:induction false} StoppedCanEnd(s: State) returns (actions: seq<Action>)
    requires Reachable(s) && !s.destroyed && s.stop
    ensures Execute(s, actions).Next? && Execute(s, actions).s.destroyed
    decreases Work(s)
  {
    if Joined(s) {
      actions := [Destroy];
      assert Execute(Step(s, Destroy).s, []) == Next(Step(s, Destroy).s);
    } else {
      var a, s' := WorkOnward(s);
      var rest := StoppedCanEnd(s');
      actions := [a] + rest;
      assert actions[1..] == rest;
    }
  }
}
