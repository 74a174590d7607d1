/** The run queue over time: first in, first out, whatever the threads do. */
module RunQueue {
  import opened Base
  import opened Queues
  import opened Machine
  import opened Steps
  import opened Safety

  /** The tasklet that a thread has just taken from the run queue, if any: every pop ends at one
      of these two program points, and the next step of the thread leaves it. */
  function Taken(pc: Pc): Option<Tid> {
    match pc
    case SwitchIn(t) => Some(t)
    case Exec(_, at) => if at.SwapTo? then Some(at.next) else None
    case _ => None
  }

  function TakenBy(a: Action, s': State): Option<Tid> {
    if a.Run? && a.i < |s'.threads| then Taken(s'.threads[a.i].pc) else None
  }

  /** The queue `q` after some tasklets were appended and then the head was taken, if any was. */
  ghost predicate Queue(q: seq<Tid>, pushed: seq<Tid>, taken: Option<Tid>, q': seq<Tid>) {
    match taken
    case None => q' == q + pushed
    case Some(n) => q + pushed == [n] + q'
  }

  /** The same for a step of thread i, which also leaves the stop flag alone. */
  ghost predicate ThreadQueue(s: State, i: nat, pushed: seq<Tid>, s': State) {
    && i < |s'.threads| && s'.stop == s.stop
    && Queue(s.core.runq, pushed, Taken(s'.threads[i].pc), s'.core.runq)
  }

  // ----- who is pushed, read off the request before the step

  /** A message wakes t if it waits. */
  function WokenBy(c: Core, t: Tid): seq<Tid> {
    if t < |c.tasks| && Waits(c.tasks[t].state) then [t] else []
  }

  /** t yields if somebody is queued. */
  function YieldPushes(q: seq<Tid>, t: Tid): seq<Tid> {
    if q == [] then [] else [t]
  }

  function RequestPushes(c: Core, t: Tid, op: Op): seq<Tid>
    requires t < |c.tasks|
  {
    match op
    case Send(target, _) => WokenBy(c, target) + YieldPushes(c.runq + WokenBy(c, target), t)
    case Recv => if c.tasks[t].mail == [] then [] else YieldPushes(c.runq, t)
    case RecvTimed(_) => if c.tasks[t].mail == [] then [] else YieldPushes(c.runq, t)
    case Yield => YieldPushes(c.runq, t)
    case _ => []
  }

  /** The tasklets that a step puts into the run queue. */
  function Pushes(s: State, a: Action): seq<Tid> {
    match a
    case Run(i, _) => if i < |s.threads| then RunPushes(s, s.threads[i].pc) else []
    case TimerStep(_) => s.core.sleepers[..if s.core.sleepers == [] then 0 else 1]
    case PortPost(t, _, _) => WokenBy(s.core, t)
    case ExtStart(_, t, _) => if t < |s.core.tasks| && !s.core.tasks[t].started then [t] else []
    case _ => []
  }

  function RunPushes(s: State, pc: Pc): seq<Tid> {
    if pc.Exec? && pc.w.Enter? && !s.stop && pc.t < |s.core.tasks| then RequestPushes(s.core, pc.t, pc.w.op) else []
  }

  lemma DispatchQueue(c: Core, t: Tid, m: Message, del: bool, c': Core)
    requires t < |c.tasks| && Dispatch(c, t, m, del) == Ok(c')
    ensures Queue(c.runq, WokenBy(c, t), None, c'.runq)
  {
  }

  lemma LeaveQueue(s: State, i: nat, t: Tid, c: Core, cont: Cont, s': State)
    requires i < |s.threads| && t < |s.ctx| && Leave(s, i, t, PickNext(c), cont) == Next(s')
    ensures i < |s'.threads| && s'.stop == s.stop && Queue(c.runq, [], Taken(s'.threads[i].pc), s'.core.runq)
  {
  }

  lemma FetchQueue(s: State, i: nat, t: Tid, timedWait: bool, s': State)
    requires i < |s.threads| && t < |s.ctx| && t < |s.core.tasks| && FetchAnd(s, i, t, timedWait) == Next(s')
    ensures ThreadQueue(s, i, [], s')
  {
  }

  lemma YieldOrQueue(s: State, i: nat, t: Tid, cont: Cont, s': State)
    requires i < |s.threads| && t < |s.ctx| && t < |s.core.tasks| && YieldOr(s, i, t, cont) == Next(s')
    ensures ThreadQueue(s, i, YieldPushes(s.core.runq, t), s')
  {
    if s.core.runq != [] {
      LeaveQueue(s, i, t, PushRunnable(s.core, t).value, cont, s');
    }
  }

  lemma RecvLoopQueue(s: State, i: nat, t: Tid, cont: Cont, switched: bool, s': State)
    requires i < |s.threads| && t < |s.ctx| && t < |s.core.tasks| && RecvLoop(s, i, t, cont, switched) == Next(s')
    ensures ThreadQueue(s, i, if s.core.tasks[t].mail == [] || switched then [] else YieldPushes(s.core.runq, t), s')
  {
    if s.core.tasks[t].mail != [] {
      if switched {
        FetchQueue(s, i, t, cont.InRecvTimed?, s');
      } else {
        YieldOrQueue(s, i, t, InRecvYield, s');
      }
    } else if cont.InRecvTimed? {
      LeaveQueue(s, i, t, AddSleeper(s.core, t, TimeoutWaitting, cont.wake), cont, s');
    } else {
      LeaveQueue(s, i, t, Park(s.core, t).value, cont, s');
    }
  }

  lemma SettleQueue(s: State, c: Core, w: nat, s1: State)
    requires Settle(s, c, w) == Next(s1)
    ensures s1.core == c && s1.stop == s.stop && s1.ctx == s.ctx && |s1.threads| == |s.threads|
  {
  }

  lemma SendQueue(s: State, i: nat, t: Tid, target: Tid, msg: Message, w: nat, s': State)
    requires i < |s.threads| && t < |s.ctx| && t < |s.core.tasks| && Live(s, target)
    requires AtSend(s, i, t, target, msg, w) == Next(s')
    ensures ThreadQueue(s, i, RequestPushes(s.core, t, Send(target, msg)), s')
  {
    var c := Dispatch(s.core, target, msg, true).value;
    DispatchQueue(s.core, target, msg, true, c);
    var s1 := Settle(s, c, w).s;
    SettleQueue(s, c, w, s1);
    YieldOrQueue(s1, i, t, InYield, s');
    QueueJoin(s.core.runq, WokenBy(s.core, target), YieldPushes(c.runq, t), Taken(s'.threads[i].pc), s'.core.runq);
  }

  lemma QueueJoin(q: seq<Tid>, xs: seq<Tid>, ys: seq<Tid>, taken: Option<Tid>, q': seq<Tid>)
    requires Queue(q + xs, ys, taken, q')
    ensures Queue(q, xs + ys, taken, q')
  {
  }

  lemma RequestQueue(s: State, i: nat, t: Tid, op: Op, w: nat, s': State)
    requires i < |s.threads| && t < |s.ctx| && t < |s.core.tasks| && AtRequest(s, i, t, op, w) == Next(s')
    ensures ThreadQueue(s, i, RequestPushes(s.core, t, op), s')
  {
    match op
    case Send(target, msg) => SendQueue(s, i, t, target, msg, w, s');
    case Recv => RecvLoopQueue(s, i, t, InRecv, false, s');
    case RecvTimed(delay) => RecvLoopQueue(s, i, t, InRecvTimed(s.time + delay), false, s');
    case Sleep(delay) => LeaveQueue(s, i, t, AddSleeper(s.core, t, Sleeping, s.time + delay), InSleep, s');
    case Yield => YieldOrQueue(s, i, t, InYield, s');
  }

  /** A tasklet resumed outside a `recv` goes on. */
  lemma ResumedPlain(s: State, i: nat, t: Tid, s': State)
    requires i < |s.threads| && AtResumed(s, i, t) == Next(s') && !InsideRecv(s.ctx[t].cont)
    ensures s'.stop == s.stop && i < |s'.threads| && Taken(s'.threads[i].pc) == None
    ensures s'.core == (if s.ctx[t].cont.Fresh? then s.core else SetState(s.core, t, Running))
  {
    assert s.ctx[t].cont.Fresh? || s.ctx[t].cont.InYield? || s.ctx[t].cont.InSleep?;
  }

  lemma ResumedQueue(s: State, i: nat, t: Tid, s': State)
    requires i < |s.threads| && AtResumed(s, i, t) == Next(s')
    ensures ThreadQueue(s, i, [], s')
  {
    var s1 := s.(core := SetState(s.core, t, Running));
    match s.ctx[t].cont
    case InRecv => RecvLoopQueue(s1, i, t, InRecv, true, s');
    case InRecvTimed(wake) => RecvLoopQueue(s1, i, t, InRecvTimed(wake), true, s');
    case InRecvYield => FetchQueue(s1, i, t, false, s');
    case _ => ResumedPlain(s, i, t, s');
  }

  lemma EnterQueue(s: State, i: nat, t: Tid, op: Op, w: nat, s': State)
    requires i < |s.threads| && AtEnter(s, i, t, op, w) == Next(s')
    ensures ThreadQueue(s, i, RunPushes(s, Exec(t, Enter(op))), s')
  {
    if !op.BeforeStart? && !op.Finish? && !op.Fail? && !s.stop {
      RequestQueue(s, i, t, op, w, s');
    }
  }

  lemma SwapToQueue(s: State, i: nat, t: Tid, next: Tid, s': State)
    requires i < |s.threads| && AtSwapTo(s, i, t, next) == Next(s')
    ensures ThreadQueue(s, i, [], s')
  {
  }

  lemma SwapQueue(s: State, i: nat, t: Tid, at: Where, w: nat, s': State)
    requires i < |s.threads| && (at.SwapTo? || at.SwapBack? || at.Release? || at.Acquire?)
    requires AtExec(s, i, t, at, w) == Next(s')
    ensures ThreadQueue(s, i, [], s')
  {
    if at.SwapTo? {
      SwapToQueue(s, i, t, at.next, s');
    }
  }

  lemma ExecQueue(s: State, i: nat, t: Tid, at: Where, w: nat, s': State)
    requires i < |s.threads| && AtExec(s, i, t, at, w) == Next(s')
    ensures ThreadQueue(s, i, RunPushes(s, Exec(t, at)), s')
  {
    match at
    case Enter(op) => EnterQueue(s, i, t, op, w, s');
    case Resumed => ResumedQueue(s, i, t, s');
    case _ => SwapQueue(s, i, t, at, w, s');
  }

  lemma PoppingQueue(s: State, i: nat, s': State)
    requires i < |s.threads| && AtPopping(s, i) == Next(s')
    ensures ThreadQueue(s, i, [], s')
  {
  }

  lemma TopQueue(s: State, i: nat)
    requires i < |s.threads|
    ensures ThreadQueue(s, i, [], AtTop(s, i))
  {
  }

  lemma UnwindQueue(s: State, i: nat, s': State)
    requires i < |s.threads| && AtUnwind(s, i) == Next(s')
    ensures ThreadQueue(s, i, [], s')
  {
  }

  lemma SwitchInQueue(s: State, i: nat, t: Tid, s': State)
    requires i < |s.threads| && AtSwitchIn(s, i, t) == Next(s')
    ensures ThreadQueue(s, i, [], s')
  {
  }

  lemma OwnStackQueue(s: State, i: nat, w: nat, s': State)
    requires i < |s.threads| && RunThread(s, i, w) == Next(s')
    requires s.threads[i].pc.Back? || s.threads[i].pc.Locking? || s.threads[i].pc.Woken?
    ensures ThreadQueue(s, i, [], s')
  {
  }

  lemma RunThreadQueue(s: State, i: nat, w: nat, s': State)
    requires i < |s.threads| && RunThread(s, i, w) == Next(s')
    ensures ThreadQueue(s, i, RunPushes(s, s.threads[i].pc), s')
  {
    match s.threads[i].pc
    case Popping => PoppingQueue(s, i, s');
    case Exec(t, at) => ExecQueue(s, i, t, at, w, s');
    case Top => TopQueue(s, i);
    case Unwind => UnwindQueue(s, i, s');
    case SwitchIn(t) => SwitchInQueue(s, i, t, s');
    case _ => OwnStackQueue(s, i, w, s');
  }

  lemma ExpireQueue(c: Core, c': Core)
    requires c.sleepers != [] && ExpireFirst(c) == Ok(c')
    ensures Queue(c.runq, [c.sleepers[0]], None, c'.runq)
  {
    var t := c.sleepers[0];
    if c.tasks[t].state.TimeoutWaitting? {
      DispatchQueue(c.(sleepers := c.sleepers[1..]), t, NoMsg, false, c');
    }
  }

  lemma StartQueue(s: State, t: Tid, w: nat, s': State)
    requires t < |s.core.tasks| && StartTasklet(s, t, w) == Next(s')
    ensures s'.stop == s.stop && Queue(s.core.runq, if s.core.tasks[t].started then [] else [t], None, s'.core.runq)
  {
    if !s.core.tasks[t].started {
      var c := PushTasklet(s.core, t).value;
      SettleQueue(s, c.(tasks := c.tasks[t := c.tasks[t].(started := true)]), w, s');
    }
  }

  /** The other steps leave the run queue alone. */
  lemma PlainStep(s: State, a: Action, s': State)
    requires Step(s, a) == Next(s')
    requires !a.Run? && !a.TimerStep? && !a.PortPost? && !a.ExtStart?
    ensures (s.stop ==> s'.stop) && s'.core == (if a.Create? then s.core.(tasks := s.core.tasks + [FRESH_TASK]) else s.core)
  {
  }

  lemma AgentQueue(s: State, a: Action, s': State)
    requires Step(s, a) == Next(s') && !a.Run?
    ensures (s.stop ==> s'.stop) && Queue(s.core.runq, Pushes(s, a), None, s'.core.runq)
  {
    match a
    case TimerStep(w) =>
      SettleQueue(s, ExpireFirst(s.core).value, w, s');
      ExpireQueue(s.core, s'.core);
    case PortPost(t, content, w) =>
      SettleQueue(s, Dispatch(s.core, t, PortMsg(content), true).value, w, s');
      DispatchQueue(s.core, t, PortMsg(content), true, s'.core);
    case ExtStart(_, t, w) => StartQueue(s, t, w, s');
    case _ => PlainStep(s, a, s');
  }

  /** In any step of the machine just the tasklets that the request, the message, the deadline or the
      start calls for enter the run queue, at its tail; and one leaves it exactly when a threadlet
      takes it, from its head. */
  lemma StepQueue(s: State, a: Action, s': State)
    requires Step(s, a) == Next(s')
    ensures (s.stop ==> s'.stop) && Queue(s.core.runq, Pushes(s, a), TakenBy(a, s'), s'.core.runq)
  {
    if a.Run? {
      RunThreadQueue(s, a.i, a.w, s');
    } else {
      AgentQueue(s, a, s');
    }
  }

  // ----- whole runs

  ghost predicate IsRun(states: seq<State>, actions: seq<Action>) {
    && |states| == |actions| + 1
    && forall n {:trigger Step(states[n], actions[n])} :: 0 <= n < |actions| ==> Step(states[n], actions[n]) == Next(states[n + 1])
  }

  /** The run queue before every step and after the last. */
  function RunQueues(states: seq<State>): seq<seq<Tid>> {
    seq(|states|, n requires 0 <= n < |states| => states[n].core.runq)
  }

  /** The tasklet that every step takes, if any. */
  function Takings(states: seq<State>, actions: seq<Action>): seq<Option<Tid>>
    requires |states| == |actions| + 1
  {
    seq(|actions|, n requires 0 <= n < |actions| => TakenBy(actions[n], states[n + 1]))
  }

  /** How many tasklets are taken in the first n steps. */
  function Takes(takings: seq<Option<Tid>>, n: nat): nat
    requires n <= |takings|
  {
    if n == 0 then 0 else Takes(takings, n - 1) + (if takings[n - 1].Some? then 1 else 0)
  }

  /** What a step does to the members of the queue: the head leaves if one is taken, and the
      others keep their order ahead of whatever arrives. */
  ghost predicate Advances(q: seq<Tid>, taken: Option<Tid>, q': seq<Tid>) {
    match taken
    case None => q <= q'
    case Some(n) => q != [] ==> n == q[0] && q[1..] <= q'
  }

  lemma QueueAdvances(q: seq<Tid>, pushed: seq<Tid>, taken: Option<Tid>, q': seq<Tid>)
    requires Queue(q, pushed, taken, q')
    ensures Advances(q, taken, q')
  {
    if taken.Some? && q != [] {
      assert (q + pushed)[0] == q[0] && (q + pushed)[1..] == q[1..] + pushed;
      assert q' == ([taken.value] + q')[1..];
    }
  }

  lemma StepAdvances(s: State, a: Action, s': State)
    requires Step(s, a) == Next(s')
    ensures Advances(s.core.runq, TakenBy(a, s'), s'.core.runq)
  {
    StepQueue(s, a, s');
    QueueAdvances(s.core.runq, Pushes(s, a), TakenBy(a, s'), s'.core.runq);
  }

  ghost predicate FirstInFirstOut(qs: seq<seq<Tid>>, takings: seq<Option<Tid>>) {
    && |qs| == |takings| + 1
    && forall n {:trigger takings[n]} :: 0 <= n < |takings| ==> Advances(qs[n], takings[n], qs[n + 1])
  }

  lemma {:induction false} MovesUp(qs: seq<seq<Tid>>, takings: seq<Option<Tid>>, k: nat, n: nat)
    requires FirstInFirstOut(qs, takings) && n <= |takings| && k < |qs[0]| && Takes(takings, n) <= k
    ensures var j := k - Takes(takings, n); j < |qs[n]| && qs[n][j] == qs[0][k]
  {
    if n == 0 {
    } else {
      MovesUp(qs, takings, k, n - 1);
      var q, q', j := qs[n - 1], qs[n], k - Takes(takings, n - 1);
      assert Advances(q, takings[n - 1], q');
      if takings[n - 1].Some? {
        assert q[1..][j - 1] == q[j] == q'[j - 1];
      }
    }
  }

  lemma RunAdvances(states: seq<State>, actions: seq<Action>)
    requires IsRun(states, actions)
    ensures FirstInFirstOut(RunQueues(states), Takings(states, actions))
  {
    var qs, takings := RunQueues(states), Takings(states, actions);
    forall m | 0 <= m < |takings| ensures Advances(qs[m], takings[m], qs[m + 1]) {
      StepAdvances(states[m], actions[m], states[m + 1]);
    }
  }

  /** Bounded bypass: a tasklet at index k of the run queue moves up by one with every take, and
      by nothing else; no tasklet that arrives later overtakes it; and the take that follows k
      others is the one that gets it. */
  lemma BoundedBypass(states: seq<State>, actions: seq<Action>, k: nat, n: nat)
    requires IsRun(states, actions) && n <= |actions|
    requires k < |states[0].core.runq| && Takes(Takings(states, actions), n) <= k
    ensures var q, j := states[n].core.runq, k - Takes(Takings(states, actions), n);
            j < |q| && q[j] == states[0].core.runq[k]
    ensures n < |actions| && Takes(Takings(states, actions), n) == k && TakenBy(actions[n], states[n + 1]).Some? ==>
              TakenBy(actions[n], states[n + 1]) == Some(states[0].core.runq[k])
  {
    var qs, takings := RunQueues(states), Takings(states, actions);
    RunAdvances(states, actions);
    MovesUp(qs, takings, k, n);
    if n < |takings| {
      assert Advances(qs[n], takings[n], qs[n + 1]);
    }
  }

  // ----- after stop

  lemma StoppedStep(s: State, a: Action, s': State)
    requires Reachable(s) && s.stop && Step(s, a) == Next(s')
    ensures Reachable(s') && s'.stop && TakenBy(a, s') == None
  {
    StepReachable(s, a);
    StepQueue(s, a, s');
    if TakenBy(a, s').Some? {
      assert !s'.destroyed by { RunDestroysNothing(s, a, s'); }
      AfterStopNothingEnters(s', a.i);
    }
  }

  lemma RunDestroysNothing(s: State, a: Action, s': State)
    requires Reachable(s) && a.Run? && Step(s, a) == Next(s')
    ensures !s'.destroyed
  {
    var pl := ReachablePlacement(s);
    var pl' := KeepsStep(s, pl, a);
  }

  lemma {:induction false} StoppedAlong(states: seq<State>, actions: seq<Action>, n: nat)
    requires IsRun(states, actions) && n <= |actions| && Reachable(states[0]) && states[0].stop
    ensures Reachable(states[n]) && states[n].stop
  {
    if n == 0 {
    } else {
      StoppedAlong(states, actions, n - 1);
      StoppedStep(states[n - 1], actions[n - 1], states[n]);
    }
  }

  lemma StoppedAt(states: seq<State>, actions: seq<Action>, n: nat)
    requires IsRun(states, actions) && n <= |actions| && Reachable(states[0]) && states[0].stop
    ensures QuietAt(states, actions, n)
  {
    StoppedAlong(states, actions, n);
    QuietState(states[n]);
    if n > 0 {
      StoppedAlong(states, actions, n - 1);
      StoppedStep(states[n - 1], actions[n - 1], states[n]);
    }
  }

  /** Once `stop` has been called, along the rest of any run no tasklet is taken from the run
      queue and no thread is ever on its way into a tasklet. */
  lemma AfterStopNothingIsTaken(states: seq<State>, actions: seq<Action>)
    requires IsRun(states, actions) && Reachable(states[0]) && states[0].stop
    ensures forall n :: 0 <= n < |states| ==> QuietAt(states, actions, n)
  {
    forall n | 0 <= n < |states| ensures QuietAt(states, actions, n) {
      StoppedAt(states, actions, n);
    }
  }

  /** Quiet, and reached without taking anything from the run queue. */
  ghost predicate QuietAt(states: seq<State>, actions: seq<Action>, n: nat)
    requires n < |states| == |actions| + 1
  {
    Quiet(states[n]) && (n > 0 ==> TakenBy(actions[n - 1], states[n]) == None)
  }

  /** Stopped, and no thread is on its way into a tasklet. */
  ghost predicate Quiet(s: State) {
    s.stop && (!s.destroyed ==> forall i :: 0 <= i < |s.threads| ==> !Entering(s.threads[i].pc))
  }

  lemma QuietState(s: State)
    requires Reachable(s) && s.stop
    ensures Quiet(s)
  {
    if !s.destroyed {
      forall i | 0 <= i < |s.threads| ensures !Entering(s.threads[i].pc) {
        AfterStopNothingEnters(s, i);
      }
    }
  }
}
