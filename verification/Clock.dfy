/** The timer's clock at work: once it has come to a sleeper's deadline, the timer by itself queues the
    sleeper. */
module Clock {
  import opened Base
  import opened Queues
  import opened Machine
  import opened Safety
  import opened RunQueue
  import Effects
  import Requests
  import Scans
  import Shutdown
  import UserCode
  import Waiters

  predicate TimersOwn(actions: seq<Action>) {
    forall k :: 0 <= k < |actions| ==> actions[k].Tick? || actions[k].TimerLock? || actions[k].TimerStep? || actions[k].TimerUnlock?
  }

  /** u has been queued, or sleeps under a deadline that the clock has reached. */
  ghost predicate QueuedOrDue(s: State, u: Tid) {
    u in s.core.runq || (u in s.core.sleepers && WakeOf(s.core.tasks, u) <= s.time)
  }

  /** The timer takes a turn of its loop whenever somebody is due; where the turn finds the run queue
      empty, its signal goes to a thread blocked on the condition, if there is any. */
  lemma TurnTakenIff(s: State, w: nat)
    requires Reachable(s) && !s.destroyed && s.timerIn && Due(s.core, s.time)
    ensures Step(s, TimerStep(w)).Next? <==> (s.core.runq == [] ==> MaySignal(s.threads, w))
  {
    StepReachable(s, TimerStep(w));
    Requests.TimerMayScan(s);
    Scans.ExpireFirstWakes(s.core);
  }

  /** Every turn of the timer's loop can be taken while the first sleeper is due. */
  lemma TurnTaken(s: State) returns (w: nat, s1: State)
    requires Reachable(s) && !s.destroyed && s.timerIn && Due(s.core, s.time)
    ensures Step(s, TimerStep(w)) == Next(s1) && Reachable(s1)
  {
    w := Shutdown.SomeSignal(s.threads);
    StepReachable(s, TimerStep(w));
    s1 := Step(s, TimerStep(w)).s;
  }

  lemma TurnKeeps(s: State, w: nat, s1: State, u: Tid)
    requires Reachable(s) && Step(s, TimerStep(w)) == Next(s1) && s.core.sleepers != [] && QueuedOrDue(s, u)
    ensures s1.timerIn && s1.time == s.time && !s1.destroyed && |s1.core.sleepers| < |s.core.sleepers| && QueuedOrDue(s1, u)
  {
    Requests.WhileTimerHolds(s, TimerStep(w), s1);
    StepQueue(s, TimerStep(w), s1);
    assert s1.core.runq == s.core.runq + [s.core.sleepers[0]];
    if u in s.core.sleepers && u != s.core.sleepers[0] {
      var k :| 0 <= k < |s.core.sleepers| && s.core.sleepers[k] == u;
      assert s1.core.sleepers[k - 1] == u;
      Waiters.WaitersAreIdle(s, TimerStep(w), u);
      Waiters.StepOfSleeper(s, TimerStep(w), s1, u);
    }
  }

  lemma FirstIsEarliest(s: State, u: Tid)
    requires Reachable(s) && !s.destroyed && u in s.core.sleepers
    ensures WakeOf(s.core.tasks, s.core.sleepers[0]) <= WakeOf(s.core.tasks, u)
  {
    Waiters.WaitersAreIdle(s, TimerLock, u);
    var k :| 0 <= k < |s.core.sleepers| && s.core.sleepers[k] == u;
    assert k > 0 ==> WakeOf(s.core.tasks, s.core.sleepers[0]) <= WakeOf(s.core.tasks, s.core.sleepers[k]);
  }

  lemma NotDueIsQueued(s: State, u: Tid)
    requires Reachable(s) && !s.destroyed && !Due(s.core, s.time) && QueuedOrDue(s, u)
    ensures u in s.core.runq
  {
    if u in s.core.sleepers {
      FirstIsEarliest(s, u);
    }
  }

  lemma {:induction false} LoopQueues(s: State, u: Tid) returns (actions: seq<Action>)
    requires Reachable(s) && !s.destroyed && s.timerIn && QueuedOrDue(s, u)
    ensures TimersOwn(actions) && Execute(s, actions).Next?
    ensures var s' := Execute(s, actions).s; s'.mutex == None && u in s'.core.runq
    decreases |s.core.sleepers|
  {
    if Due(s.core, s.time) {
      var w, s1 := TurnTaken(s);
      TurnKeeps(s, w, s1, u);
      var rest := LoopQueues(s1, u);
      actions := [TimerStep(w)] + rest;
      UserCode.ExecuteTwo(s, TimerStep(w), rest, s1);
    } else {
      NotDueIsQueued(s, u);
      var pl := ReachablePlacement(s);
      Effects.AgentsLeave(s, 0);
      actions := [TimerUnlock];
      UserCode.ExecuteOne(s, TimerUnlock);
    }
  }

  /** From every reachable state with a free mutex, for every sleeper, and for every time not before its
      deadline: once the clock is set to that time, the timer by itself takes the mutex, queues the
      sleeper, and gives the mutex up. */
  lemma TimerQueues(s: State, u: Tid, now: nat) returns (actions: seq<Action>)
    requires Reachable(s) && !s.destroyed && s.mutex == None && u in s.core.sleepers && WakeOf(s.core.tasks, u) <= now
    ensures TimersOwn(actions) && Execute(s, [Tick(now), TimerLock] + actions).Next?
    ensures var s' := Execute(s, [Tick(now), TimerLock] + actions).s; s'.mutex == None && u in s'.core.runq
  {
    var s1 := s.(time := now);
    var s2 := s1.(mutex := Some(TimerAgent), timerIn := true);
    Effects.TickSets(s, now);
    StepReachable(s, Tick(now));
    Effects.AgentsEnter(s1, 0);
    StepReachable(s1, TimerLock);
    actions := LoopQueues(s2, u);
    UserCode.ExecuteTwo(s, Tick(now), [TimerLock] + actions, s1);
    UserCode.ExecuteTwo(s1, TimerLock, actions, s2);
    assert [Tick(now)] + ([TimerLock] + actions) == [Tick(now), TimerLock] + actions;
  }
}
