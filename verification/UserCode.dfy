/** Whole requests, from the call in user code on: in every reachable state with a free mutex the
    operation that user code asks for is the one that is run. */
module UserCode {
  import opened Base
  import opened Queues
  import opened Machine
  import opened Safety
  import opened Requests
  import Effects

  /** Threadlet i runs the code of t, and nobody is in the critical section. */
  ghost predicate Calls(s: State, i: nat, t: Tid, op: Op) {
    && Reachable(s) && !s.destroyed && s.mutex == None && i < |s.threads| && s.threads[i].pc == Exec(t, User)
    && t < |s.core.tasks| && t < |s.ctx| && op != BeforeStart && (op.Send? ==> op.msg != NoMsg)
  }

  /** s once threadlet i is in the critical section, about to run `op` for t. */
  function Entered(s: State, i: nat, t: Tid, op: Op): State
    requires i < |s.threads|
  {
    s.(mutex := Some(Thr(i)), threads := s.threads[i := s.threads[i].(locked := true, pc := Exec(t, Enter(op)))])
  }

  /** The call, the mutex, and the operation itself. */
  function Request(i: nat, op: Op, w: nat): seq<Action> {
    [Call(i, op), Run(i, 0), Run(i, w)]
  }

  lemma {:induction false} ExecuteTwo(s: State, a: Action, rest: seq<Action>, s1: State)
    requires Step(s, a) == Next(s1)
    ensures Execute(s, [a] + rest) == Execute(s1, rest)
  {
    assert ([a] + rest)[1..] == rest;
  }

  lemma ExecuteOne(s: State, a: Action)
    ensures Execute(s, [a]) == Step(s, a)
  {
    assert [a][1..] == [];
    if Step(s, a).Next? {
      assert Execute(Step(s, a).s, []) == Next(Step(s, a).s);
    }
  }

  /** A call in user code leads to just the operation asked for. */
  lemma CallRuns(s: State, i: nat, t: Tid, op: Op, w: nat)
    requires Calls(s, i, t, op)
    ensures Reachable(Entered(s, i, t, op))
    ensures Execute(s, Request(i, op, w)) == Step(Entered(s, i, t, op), Run(i, w))
  {
    var s1 := Effects.Goes(s, i, true, Exec(t, Acquire(op)));
    var s2 := Entered(s, i, t, op);
    Effects.CallEnters(s, i, t, op);
    StepReachable(s, Call(i, op));
    Effects.AcquireTakes(s1, i, t, op, 0);
    StepReachable(s1, Run(i, 0));
    assert s2 == Effects.Goes(s1, i, true, Exec(t, Enter(op))).(mutex := Some(Thr(i)));
    ExecuteTwo(s, Call(i, op), [Run(i, 0), Run(i, w)], s1);
    ExecuteTwo(s1, Run(i, 0), [Run(i, w)], s2);
    ExecuteOne(s2, Run(i, w));
    assert [Call(i, op)] + [Run(i, 0), Run(i, w)] == Request(i, op, w);
    assert [Run(i, 0)] + [Run(i, w)] == [Run(i, 0), Run(i, w)];
  }

  /** `sleep` in user code puts its tasklet among the sleepers, under now plus the delay. */
  lemma UserSleeps(s: State, i: nat, t: Tid, delay: nat, w: nat)
    requires Calls(s, i, t, Sleep(delay)) && !s.stop
    ensures var r := Execute(s, Request(i, Sleep(delay), w));
            r.Next? && UnderDeadline(s, t, Sleeping, s.time + delay, r.s) && Departs(r.s, i, t, s.core.runq, InSleep)
  {
    CallRuns(s, i, t, Sleep(delay), w);
    SleepFiles(Entered(s, i, t, Sleep(delay)), i, t, delay, w);
  }

  /** A timed `recv` without mail does so in its own state. */
  lemma UserReceivesTimed(s: State, i: nat, t: Tid, delay: nat, w: nat)
    requires Calls(s, i, t, RecvTimed(delay)) && !s.stop && s.core.tasks[t].mail == []
    ensures var r, wake := Execute(s, Request(i, RecvTimed(delay), w)), s.time + delay;
            r.Next? && UnderDeadline(s, t, TimeoutWaitting, wake, r.s) && Departs(r.s, i, t, s.core.runq, InRecvTimed(wake))
  {
    CallRuns(s, i, t, RecvTimed(delay), w);
    TimedRecvFiles(Entered(s, i, t, RecvTimed(delay)), i, t, delay, w);
  }

  /** A `recv` without mail parks its tasklet. */
  lemma UserReceives(s: State, i: nat, t: Tid, w: nat)
    requires Calls(s, i, t, Recv) && !s.stop && s.core.tasks[t].mail == []
    ensures var r := Execute(s, Request(i, Recv, w));
      && r.Next? && r.s.core.waitq == s.core.waitq + [t] && r.s.core.sleepers == s.core.sleepers
      && t < |r.s.core.tasks| && r.s.core.tasks[t].state.Waitting? && Departs(r.s, i, t, s.core.runq, InRecv)
  {
    CallRuns(s, i, t, Recv, w);
    RecvParks(Entered(s, i, t, Recv), i, t, w);
  }

  /** Either `recv` with mail fetches the oldest message, or yields first if somebody is queued. */
  lemma UserFindsMail(s: State, i: nat, t: Tid, op: Op, w: nat)
    requires Calls(s, i, t, op) && !s.stop && (op.Recv? || op.RecvTimed?) && s.core.tasks[t].mail != []
    ensures var r := Execute(s, Request(i, op, w));
      && r.Next?
      && if s.core.runq == [] then Returns(s, i, t, false, r.s) else Departs(r.s, i, t, s.core.runq + [t], InRecvYield)
  {
    CallRuns(s, i, t, op, w);
    RecvFindsMail(Entered(s, i, t, op), i, t, op, w);
  }

  /** `send` delivers its message to its target, and yields. */
  lemma UserSends(s: State, i: nat, t: Tid, target: Tid, m: Message, w: nat)
    requires Calls(s, i, t, Send(target, m)) && !s.stop && Live(s, target)
    ensures var r := Execute(s, Request(i, Send(target, m), w));
            (r.Next? <==> MayDeliver(s, target, w)) && (r.Next? ==> SendEffect(s, i, t, target, m, r.s))
  {
    CallRuns(s, i, t, Send(target, m), w);
    var s2 := Entered(s, i, t, Send(target, m));
    SendDelivers(s2, i, t, target, m, w);
    SameSignals(s.threads, s2.threads, i, w);
  }

  /** A threadlet that runs a tasklet does not wait for a signal. */
  lemma SameSignals(ths: seq<Thread>, ths': seq<Thread>, i: nat, w: nat)
    requires i < |ths| == |ths'| && ths' == ths[i := ths'[i]] && ths[i].pc.Exec? && ths'[i].pc.Exec?
    ensures MaySignal(ths', w) <==> MaySignal(ths, w)
  {
    forall j | 0 <= j < |ths| ensures IsBlocked(ths'[j]) <==> IsBlocked(ths[j]) {
    }
  }

  /** `yield` rotates the run queue. */
  lemma UserYields(s: State, i: nat, t: Tid, w: nat)
    requires Calls(s, i, t, Yield) && !s.stop
    ensures var r := Execute(s, Request(i, Yield, w));
      r.Next? && i < |r.s.threads| &&
      if s.core.runq == [] then r.s.core == s.core && r.s.threads[i].pc == Exec(t, Release(false))
      else r.s.core.runq == s.core.runq[1..] + [t] && r.s.threads[i].pc == Exec(t, SwapTo(s.core.runq[0]))
  {
    CallRuns(s, i, t, Yield, w);
    YieldRotates(Entered(s, i, t, Yield), i, t, w);
  }

  /** The end of a tasklet's code, by return or by an exception, puts it into the finished slot. */
  lemma UserEnds(s: State, i: nat, t: Tid, op: Op, w: nat)
    requires Calls(s, i, t, op) && (op.Finish? || op.Fail?)
    ensures var r := Execute(s, Request(i, op, w));
      && r.Next? && i < |r.s.threads| && r.s.threads[i].pc == Exec(t, SwapBack) && r.s.threads[i].slot == Some(t)
      && r.s.core == s.core.(tasks := s.core.tasks[t := s.core.tasks[t].(state := if op.Finish? then Finished else Running)])
  {
    CallRuns(s, i, t, op, w);
    EndsInSlot(Entered(s, i, t, op), i, t, op, w);
  }

  /** Once the service is stopped, every other request comes back to user code with a stop_exception in
      flight, out of the critical section, and nothing else has changed. */
  lemma UserThrows(s: State, i: nat, t: Tid, op: Op, w: nat)
    requires Calls(s, i, t, op) && s.stop && !op.Finish? && !op.Fail?
    ensures Execute(s, Request(i, op, w) + [Run(i, 0)]) == Next(Effects.Goes(s, i, false, Exec(t, Thrown)))
  {
    CallRuns(s, i, t, op, w);
    var s2 := Entered(s, i, t, op);
    StoppedThrows(s2, i, t, op, w);
    StepReachable(s2, Run(i, w));
    var s3 := Step(s2, Run(i, w)).s;
    Effects.ReleaseFrees(s3, i, t, true, 0);
    ExecuteAppend(s, Request(i, op, w), Run(i, 0));
  }

  /** A request that has done its work is back in user code with one step more. */
  lemma UserReturns(s: State, i: nat, t: Tid, w: nat)
    requires Reachable(s) && !s.destroyed && i < |s.threads| && s.threads[i].pc == Exec(t, Release(false))
    ensures var r := Step(s, Run(i, w));
            r.Next? && r.s.core == s.core && r.s.mutex == None && i < |r.s.threads| && r.s.threads[i].pc == Exec(t, User)
  {
    Effects.ReleaseFrees(s, i, t, false, w);
  }
}
