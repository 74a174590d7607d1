/** The sleepers and the wait list over time.  What a step does to the two lists is read off the
    request, the message or the timer's turn before the step; hence nobody leaves them without a
    message or a deadline that has passed. */
module Waiters {
  import opened Base
  import opened Queues
  import opened Machine
  import opened Invariant
  import opened Safety
  import opened RunQueue
  import opened Channels
  import Lists

  datatype ListOp =
    | Same
    | Sleeps(t: Tid, wake: nat)     // t is filed under a deadline
    | Expires                       // the first sleeper's deadline has passed
    | Rouses(t: Tid)                // a message takes the timed receiver t out of the sleepers
    | Parks(t: Tid)                 // t is put on the wait list
    | Unparks(t: Tid)               // a message takes t off the wait list

  /** What a message for t does. */
  function Rousing(c: Core, t: Tid): ListOp {
    if t < |c.tasks| && c.tasks[t].state.Waitting? then Unparks(t)
    else if t < |c.tasks| && c.tasks[t].state.TimeoutWaitting? then Rouses(t)
    else Same
  }

  function RequestOp(c: Core, time: nat, t: Tid, op: Op): ListOp
    requires t < |c.tasks|
  {
    match op
    case Send(target, _) => Rousing(c, target)
    case Recv => if c.tasks[t].mail == [] then Parks(t) else Same
    case RecvTimed(delay) => if c.tasks[t].mail == [] then Sleeps(t, time + delay) else Same
    case Sleep(delay) => Sleeps(t, time + delay)
    case _ => Same
  }

  function RunOp(s: State, pc: Pc): ListOp {
    if pc.Exec? && pc.w.Enter? && !s.stop && pc.t < |s.core.tasks| then RequestOp(s.core, s.time, pc.t, pc.w.op) else Same
  }

  /** What a step does to the lists. */
  function ListOpOf(s: State, a: Action): ListOp {
    match a
    case Run(i, _) => if i < |s.threads| then RunOp(s, s.threads[i].pc) else Same
    case TimerStep(_) => Expires
    case PortPost(t, _, _) => Rousing(s.core, t)
    case _ => Same
  }

  ghost predicate ListsAfter(c: Core, op: ListOp, c': Core) {
    match op
    case Same => c'.sleepers == c.sleepers && c'.waitq == c.waitq
    case Sleeps(t, wake) =>
      c'.sleepers == InsertByWake(c'.tasks, c.sleepers, t) && WakeOf(c'.tasks, t) == wake && c'.waitq == c.waitq
    case Expires => c.sleepers != [] && c'.sleepers == c.sleepers[1..] && c'.waitq == c.waitq
    case Rouses(t) => c'.sleepers == Without(c.sleepers, t) && c'.waitq == c.waitq
    case Parks(t) => c'.waitq == c.waitq + [t] && c'.sleepers == c.sleepers
    case Unparks(t) => c'.waitq == Without(c.waitq, t) && c'.sleepers == c.sleepers
  }

  /** The tasklet that the operation moves. */
  predicate MovedBy(c: Core, op: ListOp, u: Tid) {
    match op
    case Same => false
    case Expires => c.sleepers != [] && u == c.sleepers[0]
    case _ => u == op.t
  }

  /** The others, but for those in the run queue and in `busy`, keep state and deadline. */
  ghost predicate OthersKept(c: Core, busy: set<Tid>, op: ListOp, c': Core) {
    && |c.tasks| <= |c'.tasks|
    && forall u :: 0 <= u < |c.tasks| && u !in busy && u !in c.runq && !MovedBy(c, op, u) ==>
         c'.tasks[u].state == c.tasks[u].state && c'.tasks[u].wake == c.tasks[u].wake
  }

  ghost predicate Moves(c: Core, busy: set<Tid>, op: ListOp, c': Core) {
    ListsAfter(c, op, c') && OthersKept(c, busy, op, c')
  }

  /** The tasklets that a threadlet runs or is about to run. */
  function Busy(pc: Pc): set<Tid> {
    if Held(pc).Some? then {Held(pc).value} else {}
  }

  // ----- single operations

  lemma DispatchMoves(c: Core, t: Tid, m: Message, c': Core)
    requires t < |c.tasks| && Dispatch(c, t, m, true) == Ok(c')
    ensures Moves(c, {}, Rousing(c, t), c') && |c'.tasks| == |c.tasks|
  {
  }

  /** c is the core with t put where it waits. */
  lemma LeaveMoves(s: State, i: nat, t: Tid, c: Core, cont: Cont, op: ListOp, s': State)
    requires i < |s.threads| && t < |s.ctx| && Leave(s, i, t, PickNext(c), cont) == Next(s')
    requires Moves(s.core, {t}, op, c) && (op.Sleeps? ==> op.t == t) && |c.tasks| == |s.core.tasks|
    requires c.runq == s.core.runq || c.runq == s.core.runq + [t]
    ensures Moves(s.core, {t}, op, s'.core)
  {
    if op.Sleeps? {
      InsertFrame(c.tasks, s'.core.tasks, s.core.sleepers, t);
    }
  }

  /** Only deadlines matter to the insertion. */
  lemma {:induction false} InsertFrame(tasks: seq<Task>, tasks': seq<Task>, xs: seq<Tid>, t: Tid)
    requires forall u :: WakeOf(tasks', u) == WakeOf(tasks, u)
    ensures InsertByWake(tasks', xs, t) == InsertByWake(tasks, xs, t)
  {
    if xs == [] || WakeOf(tasks, t) < WakeOf(tasks, xs[0]) {
    } else {
      InsertFrame(tasks, tasks', xs[1..], t);
    }
  }

  lemma FetchMoves(s: State, i: nat, t: Tid, timedWait: bool, s': State)
    requires i < |s.threads| && t < |s.ctx| && t < |s.core.tasks| && FetchAnd(s, i, t, timedWait) == Next(s')
    ensures Moves(s.core, {t}, Same, s'.core)
  {
  }

  lemma YieldOrMoves(s: State, i: nat, t: Tid, cont: Cont, s': State)
    requires i < |s.threads| && t < |s.ctx| && t < |s.core.tasks| && YieldOr(s, i, t, cont) == Next(s')
    ensures Moves(s.core, {t}, Same, s'.core)
  {
    if s.core.runq != [] {
      LeaveMoves(s, i, t, PushRunnable(s.core, t).value, cont, Same, s');
    } else if cont == InRecvYield {
      FetchMoves(s, i, t, false, s');
    }
  }

  lemma SleepMoves(s: State, i: nat, t: Tid, st: TState, wake: nat, cont: Cont, s': State)
    requires i < |s.threads| && t < |s.ctx| && t < |s.core.tasks|
    requires Leave(s, i, t, SleepPick(s.core, t, st, wake), cont) == Next(s')
    ensures Moves(s.core, {t}, Sleeps(t, wake), s'.core)
  {
    LeaveMoves(s, i, t, AddSleeper(s.core, t, st, wake), cont, Sleeps(t, wake), s');
  }

  lemma RecvLoopMoves(s: State, i: nat, t: Tid, cont: Cont, switched: bool, s': State)
    requires i < |s.threads| && t < |s.ctx| && t < |s.core.tasks| && RecvLoop(s, i, t, cont, switched) == Next(s')
    ensures Moves(s.core, {t}, if s.core.tasks[t].mail != [] then Same else if cont.InRecvTimed? then Sleeps(t, cont.wake) else Parks(t),
                  s'.core)
  {
    if s.core.tasks[t].mail != [] {
      if switched {
        FetchMoves(s, i, t, cont.InRecvTimed?, s');
      } else {
        YieldOrMoves(s, i, t, InRecvYield, s');
      }
    } else if cont.InRecvTimed? {
      SleepMoves(s, i, t, TimeoutWaitting, cont.wake, cont, s');
    } else {
      LeaveMoves(s, i, t, Park(s.core, t).value, cont, Parks(t), s');
    }
  }

  lemma MovesThen(c: Core, t: Tid, op: ListOp, c1: Core, c': Core)
    requires Moves(c, {}, op, c1) && Moves(c1, {t}, Same, c') && !op.Sleeps?
    requires c1.runq == c.runq || (!op.Same? && !op.Expires? && c1.runq == c.runq + [op.t])
    ensures Moves(c, {t}, op, c')
  {
  }

  lemma SendMoves(s: State, i: nat, t: Tid, target: Tid, msg: Message, w: nat, s': State)
    requires i < |s.threads| && t < |s.ctx| && t < |s.core.tasks| && Live(s, target)
    requires AtSend(s, i, t, target, msg, w) == Next(s')
    ensures Moves(s.core, {t}, Rousing(s.core, target), s'.core)
  {
    var c := Dispatch(s.core, target, msg, true).value;
    DispatchMoves(s.core, target, msg, c);
    DispatchQueue(s.core, target, msg, true, c);
    var s1 := Settle(s, c, w).s;
    SettleQueue(s, c, w, s1);
    YieldOrMoves(s1, i, t, InYield, s');
    MovesThen(s.core, t, Rousing(s.core, target), c, s'.core);
  }

  // ----- steps

  lemma RequestMoves(s: State, i: nat, t: Tid, op: Op, w: nat, s': State)
    requires i < |s.threads| && t < |s.ctx| && t < |s.core.tasks| && AtRequest(s, i, t, op, w) == Next(s')
    ensures Moves(s.core, {t}, RequestOp(s.core, s.time, t, op), s'.core)
  {
    match op
    case Send(target, msg) => SendMoves(s, i, t, target, msg, w, s');
    case Recv => RecvLoopMoves(s, i, t, InRecv, false, s');
    case RecvTimed(delay) => RecvLoopMoves(s, i, t, InRecvTimed(s.time + delay), false, s');
    case Sleep(delay) => SleepMoves(s, i, t, Sleeping, s.time + delay, InSleep, s');
    case Yield => YieldOrMoves(s, i, t, InYield, s');
  }

  lemma EnterMoves(s: State, i: nat, t: Tid, op: Op, w: nat, s': State)
    requires i < |s.threads| && AtEnter(s, i, t, op, w) == Next(s')
    ensures Moves(s.core, {t}, RunOp(s, Exec(t, Enter(op))), s'.core)
  {
    if !op.BeforeStart? && !op.Finish? && !op.Fail? && !s.stop {
      RequestMoves(s, i, t, op, w, s');
    }
  }

  lemma ResumedMoves(s: State, i: nat, t: Tid, s': State)
    requires i < |s.threads| && AtResumed(s, i, t) == Next(s')
    requires t < |s.ctx| && (InsideRecv(s.ctx[t].cont) ==> Mail(s.core, t) != [])
    ensures Moves(s.core, {t}, Same, s'.core)
  {
    var s1 := s.(core := SetState(s.core, t, Running));
    match s.ctx[t].cont
    case InRecv => RecvLoopMoves(s1, i, t, InRecv, true, s');
    case InRecvTimed(wake) => RecvLoopMoves(s1, i, t, InRecvTimed(wake), true, s');
    case InRecvYield => FetchMoves(s1, i, t, false, s');
    case _ => ResumedPlain(s, i, t, s');
  }

  lemma SwapMoves(s: State, i: nat, t: Tid, at: Where, w: nat, s': State)
    requires i < |s.threads| && (at.SwapTo? || at.SwapBack? || at.Release? || at.Acquire?)
    requires AtExec(s, i, t, at, w) == Next(s')
    ensures Moves(s.core, Busy(Exec(t, at)), Same, s'.core)
  {
  }

  lemma PoppingMoves(s: State, i: nat, s': State)
    requires i < |s.threads| && AtPopping(s, i) == Next(s')
    ensures Moves(s.core, {}, Same, s'.core)
  {
    if !s.stop && s.core.runq != [] {
      assert s.core.runq[0] in s.core.runq;
    }
  }

  lemma SwitchInMoves(s: State, i: nat, t: Tid, s': State)
    requires i < |s.threads| && AtSwitchIn(s, i, t) == Next(s')
    ensures Moves(s.core, {t}, Same, s'.core)
  {
  }

  lemma OwnStackMoves(s: State, i: nat, w: nat, s': State)
    requires i < |s.threads| && RunThread(s, i, w) == Next(s') && !s.threads[i].pc.Exec?
    ensures Moves(s.core, Busy(s.threads[i].pc), Same, s'.core)
  {
    match s.threads[i].pc
    case Popping => PoppingMoves(s, i, s');
    case SwitchIn(t) => SwitchInMoves(s, i, t, s');
    case Top => TopQuiet(s, i);
    case Unwind => UnwindQuiet(s, i, s');
    case _ => QuietSteps(s, i, w, s');
  }

  lemma RunMoves(s: State, i: nat, w: nat, s': State)
    requires Reachable(s) && !s.destroyed && i < |s.threads| && RunThread(s, i, w) == Next(s')
    ensures Moves(s.core, Busy(s.threads[i].pc), RunOp(s, s.threads[i].pc), s'.core)
  {
    match s.threads[i].pc
    case Exec(t, at) =>
      if at.Enter? {
        EnterMoves(s, i, t, at.op, w, s');
      } else if at.Resumed? {
        NoMissedMessage(s, t);
        ResumedMoves(s, i, t, s');
      } else {
        SwapMoves(s, i, t, at, w, s');
      }
    case _ => OwnStackMoves(s, i, w, s');
  }

  lemma ExpireMoves(c: Core, c': Core)
    requires c.sleepers != [] && ExpireFirst(c) == Ok(c')
    ensures Moves(c, {}, Expires, c')
  {
  }

  lemma StartMoves(s: State, t: Tid, w: nat, s': State)
    requires t < |s.core.tasks| && StartTasklet(s, t, w) == Next(s')
    ensures Moves(s.core, if s.core.tasks[t].started then {} else {t}, Same, s'.core)
  {
    if !s.core.tasks[t].started {
      var c := PushTasklet(s.core, t).value;
      SettleQueue(s, c.(tasks := c.tasks[t := c.tasks[t].(started := true)]), w, s');
    }
  }

  /** The tasklets that a step may change without moving them in the two lists. */
  function BusyIn(s: State, a: Action): set<Tid> {
    match a
    case Run(i, _) => if i < |s.threads| then Busy(s.threads[i].pc) else {}
    case ExtStart(_, t, _) => if t < |s.core.tasks| && !s.core.tasks[t].started then {t} else {}
    case _ => {}
  }

  lemma AgentMoves(s: State, a: Action, s': State)
    requires Step(s, a) == Next(s') && !a.Run?
    ensures Moves(s.core, BusyIn(s, a), ListOpOf(s, a), s'.core)
  {
    match a
    case TimerStep(w) =>
      SettleQueue(s, ExpireFirst(s.core).value, w, s');
      ExpireMoves(s.core, s'.core);
    case PortPost(t, content, w) =>
      SettleQueue(s, Dispatch(s.core, t, PortMsg(content), true).value, w, s');
      DispatchMoves(s.core, t, PortMsg(content), s'.core);
    case ExtStart(_, t, w) => StartMoves(s, t, w, s');
    case _ => PlainStep(s, a, s');
  }

  /** In any step just the tasklets that the request, the message or the deadline calls for enter and
      leave the sleepers and the wait list, at their places. */
  lemma StepLists(s: State, a: Action, s': State)
    requires Reachable(s) && Step(s, a) == Next(s')
    ensures Moves(s.core, BusyIn(s, a), ListOpOf(s, a), s'.core)
  {
    if a.Run? {
      RunMoves(s, a.i, a.w, s');
    } else {
      AgentMoves(s, a, s');
    }
  }

  // ----- who leaves the lists, and why

  /** A tasklet in either list is neither queued nor run nor started. */
  lemma WaitersAreIdle(s: State, a: Action, u: Tid)
    requires Reachable(s) && !s.destroyed && (u in s.core.sleepers || u in s.core.waitq)
    ensures u < |s.core.tasks| && u !in s.core.runq && u !in BusyIn(s, a)
    ensures u in s.core.waitq <==> s.core.tasks[u].state.Waitting?
    ensures u in s.core.sleepers ==> u !in s.core.waitq
    ensures Distinct(s.core.sleepers) && Distinct(s.core.waitq) && SortedByWake(s.core.tasks, s.core.sleepers)
  {
    var pl := ReachablePlacement(s);
    assert TaskOk(s.core.tasks[u], s.ctx[u], pl[u], Leaver(s) == Some(u));
    if a.Run? && a.i < |s.threads| {
      assert ThreadOk(s, pl, a.i);
    }
  }

  /** The tasklet that files or parks itself is in neither list before. */
  lemma CallerIsIn(s: State, a: Action, s': State)
    requires Reachable(s) && Step(s, a) == Next(s') && (ListOpOf(s, a).Sleeps? || ListOpOf(s, a).Parks?)
    ensures ListOpOf(s, a).t !in s.core.sleepers && ListOpOf(s, a).t !in s.core.waitq
  {
    assert ListOpOf(s, a).t in BusyIn(s, a);
    if ListOpOf(s, a).t in s.core.sleepers || ListOpOf(s, a).t in s.core.waitq {
      WaitersAreIdle(s, a, ListOpOf(s, a).t);
    }
  }

  /** A tasklet that a message moves is the one that the message is for. */
  lemma MessageFor(s: State, a: Action, s': State)
    requires Step(s, a) == Next(s') && (ListOpOf(s, a).Rouses? || ListOpOf(s, a).Unparks?)
    ensures var t := ListOpOf(s, a).t;
            Sends(s, a, t) != [] && t < |s.core.tasks| && Waits(s.core.tasks[t].state)
    ensures var t := ListOpOf(s, a).t;
            s.core.tasks[t].state == if ListOpOf(s, a).Rouses? then TimeoutWaitting else Waitting
  {
  }

  /** A step by which u may leave the sleepers: a turn of the timer at a time not before its deadline,
      or a message, if it is a timed receiver. */
  predicate MayWake(s: State, a: Action, u: Tid) {
    || (a.TimerStep? && WakeOf(s.core.tasks, u) <= s.time)
    || (u < |s.core.tasks| && s.core.tasks[u].state.TimeoutWaitting? && Sends(s, a, u) != [])
  }

  /** The part of it that concerns the lists alone: only the moved tasklet leaves the sleepers. */
  lemma SleeperKept(c: Core, busy: set<Tid>, op: ListOp, c': Core, u: Tid)
    requires Moves(c, busy, op, c') && u in c.sleepers && u < |c.tasks| && u !in busy && u !in c.runq && Distinct(c.sleepers)
    requires op.Sleeps? || op.Parks? || op.Unparks? ==> op.t !in c.sleepers
    ensures if MovedBy(c, op, u) then (op.Expires? || op.Rouses?) && u !in c'.sleepers
            else u in c'.sleepers && u < |c'.tasks| && c'.tasks[u].wake == c.tasks[u].wake && c'.tasks[u].state == c.tasks[u].state
  {
    match op
    case Sleeps(t, _) => Lists.InsertMembers(c'.tasks, c.sleepers, t);
    case Expires => DistinctTail(c.sleepers);
    case Rouses(t) => WithoutMembers(c.sleepers, t);
    case _ =>
  }

  lemma WaiterKept(c: Core, busy: set<Tid>, op: ListOp, c': Core, u: Tid)
    requires Moves(c, busy, op, c') && u in c.waitq && u < |c.tasks| && u !in busy && u !in c.runq && Distinct(c.waitq)
    requires op.Sleeps? || op.Parks? || op.Rouses? ==> op.t !in c.waitq
    requires op.Expires? ==> c.sleepers[0] !in c.waitq
    ensures if MovedBy(c, op, u) then op.Unparks? && u !in c'.waitq
            else u in c'.waitq && u < |c'.tasks| && c'.tasks[u].state == c.tasks[u].state
  {
    if op.Unparks? {
      WithoutMembers(c.waitq, op.t);
    }
  }

  /** The tasklet that a step moves is in no list, or in the one that the step takes it from. */
  lemma MovedFrom(s: State, a: Action, s': State)
    requires Reachable(s) && Step(s, a) == Next(s')
    ensures var op := ListOpOf(s, a);
      && (op.Sleeps? || op.Parks? || op.Unparks? ==> op.t !in s.core.sleepers)
      && (op.Sleeps? || op.Parks? || op.Rouses? ==> op.t !in s.core.waitq)
      && (op.Expires? ==> a.TimerStep? && Due(s.core, s.time) && s.core.sleepers[0] !in s.core.waitq)
  {
    match ListOpOf(s, a)
    case Sleeps(_, _) => CallerIsIn(s, a, s');
    case Parks(_) => CallerIsIn(s, a, s');
    case Unparks(t) =>
      MessageFor(s, a, s');
      if t in s.core.sleepers { WaitersAreIdle(s, a, t); }
    case Rouses(t) =>
      MessageFor(s, a, s');
      if t in s.core.waitq { WaitersAreIdle(s, a, t); }
    case Expires =>
      assert s.core.sleepers[0] in s.core.sleepers;
      WaitersAreIdle(s, a, s.core.sleepers[0]);
    case Same =>
  }

  /** Nobody is woken early, and no plain sleeper by a message: whoever leaves the sleepers in a step
      does so by a turn of the timer or by a message of this kind, and whoever stays keeps its deadline
      and its state. */
  lemma StepOfSleeper(s: State, a: Action, s': State, u: Tid)
    requires Reachable(s) && Step(s, a) == Next(s') && u in s.core.sleepers && u < |s.core.tasks|
    ensures u !in s'.core.sleepers ==> MayWake(s, a, u)
    ensures u in s'.core.sleepers ==> u < |s'.core.tasks| && s'.core.tasks[u].wake == s.core.tasks[u].wake
    ensures u in s'.core.sleepers ==> s'.core.tasks[u].state == s.core.tasks[u].state
  {
    StepLists(s, a, s');
    WaitersAreIdle(s, a, u);
    MovedFrom(s, a, s');
    SleeperKept(s.core, BusyIn(s, a), ListOpOf(s, a), s'.core, u);
    if ListOpOf(s, a).Rouses? {
      MessageFor(s, a, s');
    }
  }

  /** Whoever leaves the wait list in a step does so by a message; whoever stays keeps its state. */
  lemma StepOfWaiter(s: State, a: Action, s': State, u: Tid)
    requires Reachable(s) && Step(s, a) == Next(s') && u in s.core.waitq && u < |s.core.tasks|
    ensures u !in s'.core.waitq ==> Sends(s, a, u) != []
    ensures u in s'.core.waitq ==> u < |s'.core.tasks| && s'.core.tasks[u].state == s.core.tasks[u].state
  {
    StepLists(s, a, s');
    WaitersAreIdle(s, a, u);
    MovedFrom(s, a, s');
    WaiterKept(s.core, BusyIn(s, a), ListOpOf(s, a), s'.core, u);
    if ListOpOf(s, a).Unparks? {
      MessageFor(s, a, s');
    }
  }

  // ----- whole runs

  ghost predicate QuietFor(states: seq<State>, actions: seq<Action>, u: Tid, n: nat)
    requires |states| == |actions| + 1 && n <= |actions|
  {
    forall k {:trigger actions[k]} :: 0 <= k < n ==> !MayWake(states[k], actions[k], u)
  }

  /** Whoever sleeps under a deadline goes on doing so, under that deadline and in its state, along any
      run, until the timer takes a turn at a time not before it or, for a timed receiver, a message
      comes. */
  lemma {:induction false} SleepsOn(states: seq<State>, actions: seq<Action>, u: Tid, n: nat)
    requires IsRun(states, actions) && n <= |actions| && Reachable(states[0])
    requires u in states[0].core.sleepers && u < |states[0].core.tasks| && QuietFor(states, actions, u, n)
    ensures u in states[n].core.sleepers && u < |states[n].core.tasks|
    ensures states[n].core.tasks[u].wake == states[0].core.tasks[u].wake
    ensures states[n].core.tasks[u].state == states[0].core.tasks[u].state
  {
    if n == 0 {
    } else {
      assert !MayWake(states[n - 1], actions[n - 1], u);
      SleepsOn(states, actions, u, n - 1);
      ReachableAlong(states, actions, n - 1);
      StepOfSleeper(states[n - 1], actions[n - 1], states[n], u);
    }
  }

  /** Whoever waits goes on doing so until a message comes. */
  lemma {:induction false} WaitsOn(states: seq<State>, actions: seq<Action>, u: Tid, n: nat)
    requires IsRun(states, actions) && n <= |actions| && Reachable(states[0])
    requires u in states[0].core.waitq && u < |states[0].core.tasks| && Concat(SendsOf(states, actions, u), n) == []
    ensures u in states[n].core.waitq && u < |states[n].core.tasks|
  {
    if n == 0 {
    } else {
      var sents := SendsOf(states, actions, u);
      assert Concat(sents, n) == Concat(sents, n - 1) + sents[n - 1];
      WaitsOn(states, actions, u, n - 1);
      ReachableAlong(states, actions, n - 1);
      StepOfWaiter(states[n - 1], actions[n - 1], states[n], u);
    }
  }
}
