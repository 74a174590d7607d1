/** What single requests and scans achieve in a reachable state: where the tasklets end up, in
    which order, and with what in their mailboxes. */
module Requests {
  import opened Base
  import opened Queues
  import opened Machine
  import opened Invariant
  import opened Lists
  import opened Steps
  import opened Scans
  import opened Safety
  import opened RunQueue

  ghost predicate AtRequestOf(s: State, i: nat, t: Tid, op: Op) {
    && Reachable(s) && !s.destroyed && !s.stop && i < |s.threads| && s.threads[i].pc == Exec(t, Enter(op))
    && t < |s.core.tasks| && t < |s.ctx|
  }

  /** The caller has left for the first tasklet of the run queue `q`, or, if there is none, for
      the context of its threadlet. */
  ghost predicate Departs(s': State, i: nat, t: Tid, q: seq<Tid>, cont: Cont) {
    && i < |s'.threads| && t < |s'.ctx| && s'.ctx[t].cont == cont
    && if q == [] then s'.core.runq == [] && s'.threads[i].pc == Exec(t, SwapBack)
       else s'.core.runq == q[1..] && s'.threads[i].pc == Exec(t, SwapTo(q[0]))
  }

  lemma EnterIsRequest(s: State, i: nat, t: Tid, op: Op, w: nat)
    requires !s.destroyed && !s.stop && i < |s.threads| && s.threads[i].pc == Exec(t, Enter(op)) && OnThread(s, i, t)
    requires !op.BeforeStart? && !op.Finish? && !op.Fail?
    ensures Step(s, Run(i, w)) == AtRequest(s, i, t, op, w)
  {
    assert Step(s, Run(i, w)) == RunThread(s, i, w) == AtEnter(s, i, t, op, w);
  }

  lemma StepIsRequest(s: State, i: nat, t: Tid, op: Op, w: nat)
    requires AtRequestOf(s, i, t, op) && !op.BeforeStart? && !op.Finish? && !op.Fail?
    ensures Step(s, Run(i, w)) == AtRequest(s, i, t, op, w)
  {
    var pl := ReachablePlacement(s);
    EnterKnows(s, pl, i, t);
    EnterIsRequest(s, i, t, op, w);
  }

  /** What the requests rely on: the caller is in no list, and the lists are in order. */
  lemma CallerKnows(s: State, i: nat, t: Tid, op: Op)
    requires AtRequestOf(s, i, t, op)
    ensures t !in s.core.runq && t !in s.core.waitq && t !in s.core.sleepers
    ensures Distinct(s.core.sleepers) && SortedByWake(s.core.tasks, s.core.sleepers)
    ensures s.core.runq != [] ==> s.core.runq[0] < |s.core.tasks| && s.core.runq[0] != t
    ensures op.Send? ==> op.msg != NoMsg
    ensures s.core.tasks[t].mail != [] ==> s.core.tasks[t].mail[0] != NoMsg
    ensures s.core.tasks[t].state.Running?
  {
    var pl := ReachablePlacement(s);
    EnterKnows(s, pl, i, t);
    assert ThreadOk(s, pl, i);
    assert TaskOk(s.core.tasks[t], s.ctx[t], pl[t], Leaver(s) == Some(t));
    if s.core.runq != [] {
      assert s.core.runq[0] in s.core.runq;
    }
  }

  lemma PickDeparts(s: State, i: nat, t: Tid, c: Core, cont: Cont)
    requires i < |s.threads| && t < |s.ctx| && (c.runq != [] ==> c.runq[0] < |c.tasks|)
    ensures var r := Leave(s, i, t, PickNext(c), cont);
      && r.Next? && Departs(r.s, i, t, c.runq, cont)
      && |r.s.core.tasks| == |c.tasks| && r.s.core.waitq == c.waitq && r.s.core.sleepers == c.sleepers
      && (forall u :: 0 <= u < |c.tasks| && !(c.runq != [] && u == c.runq[0]) ==> r.s.core.tasks[u] == c.tasks[u])
      && (forall u :: 0 <= u < |c.tasks| ==> r.s.core.tasks[u] == c.tasks[u].(state := r.s.core.tasks[u].state))
  {
  }

  lemma YieldDeparts(s: State, i: nat, t: Tid, cont: Cont)
    requires i < |s.threads| && t < |s.ctx| && t < |s.core.tasks| && t !in s.core.runq
    requires s.core.runq != [] && s.core.runq[0] < |s.core.tasks|
    ensures var r := YieldOr(s, i, t, cont);
      && r.Next? && Departs(r.s, i, t, s.core.runq + [t], cont)
      && |r.s.core.tasks| == |s.core.tasks| && r.s.core.waitq == s.core.waitq && r.s.core.sleepers == s.core.sleepers
      && (forall u :: 0 <= u < |s.core.tasks| ==> r.s.core.tasks[u] == s.core.tasks[u].(state := r.s.core.tasks[u].state))
  {
    PickDeparts(s, i, t, PushRunnable(s.core, t).value, cont);
  }

  /** `yield` rotates the run queue: the caller becomes its last member, its first member is
      entered next, and its length stays; with nobody queued it is a no-op. */
  lemma YieldRotates(s: State, i: nat, t: Tid, w: nat)
    requires AtRequestOf(s, i, t, Yield)
    ensures var r := Step(s, Run(i, w));
      r.Next? && i < |r.s.threads| &&
      if s.core.runq == [] then r.s.core == s.core && r.s.threads[i].pc == Exec(t, Release(false))
      else r.s.core.runq == s.core.runq[1..] + [t] && r.s.threads[i].pc == Exec(t, SwapTo(s.core.runq[0]))
  {
    CallerKnows(s, i, t, Yield);
    StepIsRequest(s, i, t, Yield, w);
    var q := s.core.runq;
    if q != [] {
      YieldDeparts(s, i, t, InYield);
      assert (q + [t])[1..] == q[1..] + [t];
    }
  }

  lemma AddSleeperFiles(c: Core, t: Tid, st: TState, wake: nat)
    requires t < |c.tasks| && Distinct(c.sleepers) && t !in c.sleepers && SortedByWake(c.tasks, c.sleepers)
    ensures var c' := AddSleeper(c, t, st, wake);
      && (forall u :: u in c'.sleepers <==> u == t || u in c.sleepers)
      && SortedByWake(c'.tasks, c'.sleepers)
  {
    var tasks := AddSleeper(c, t, st, wake).tasks;
    InsertMembers(tasks, c.sleepers, t);
    SortedFrame(c.tasks, tasks, c.sleepers);
    InsertSorted(tasks, c.sleepers, t);
  }

  /** The caller is filed under its deadline, and the sleepers stay in order. */
  ghost predicate UnderDeadline(s: State, t: Tid, st: TState, wake: nat, s': State) {
    && t < |s'.core.tasks| && s'.core.tasks[t].wake == wake && s'.core.tasks[t].state == st
    && s'.core.waitq == s.core.waitq && SortedByWake(s'.core.tasks, s'.core.sleepers)
    && forall u :: u in s'.core.sleepers <==> u == t || u in s.core.sleepers
  }

  lemma LeavesUnderDeadline(s: State, i: nat, t: Tid, op: Op, st: TState, wake: nat, cont: Cont)
    requires AtRequestOf(s, i, t, op)
    ensures var r := Leave(s, i, t, SleepPick(s.core, t, st, wake), cont);
            r.Next? && UnderDeadline(s, t, st, wake, r.s) && Departs(r.s, i, t, s.core.runq, cont)
  {
    CallerKnows(s, i, t, op);
    AddSleeperFiles(s.core, t, st, wake);
    var c := AddSleeper(s.core, t, st, wake);
    PickDeparts(s, i, t, c, cont);
    SortedFrame(c.tasks, Leave(s, i, t, PickNext(c), cont).s.core.tasks, c.sleepers);
  }

  /** `sleep` files the caller under now plus its delay. */
  lemma SleepFiles(s: State, i: nat, t: Tid, delay: nat, w: nat)
    requires AtRequestOf(s, i, t, Sleep(delay))
    ensures var r := Step(s, Run(i, w));
            r.Next? && UnderDeadline(s, t, Sleeping, s.time + delay, r.s) && Departs(r.s, i, t, s.core.runq, InSleep)
  {
    StepIsRequest(s, i, t, Sleep(delay), w);
    LeavesUnderDeadline(s, i, t, Sleep(delay), Sleeping, s.time + delay, InSleep);
  }

  /** A timed `recv` on an empty mailbox files the caller under now plus its delay, and remembers
      that deadline. */
  lemma TimedRecvFiles(s: State, i: nat, t: Tid, delay: nat, w: nat)
    requires AtRequestOf(s, i, t, RecvTimed(delay)) && s.core.tasks[t].mail == []
    ensures var r, wake := Step(s, Run(i, w)), s.time + delay;
            r.Next? && UnderDeadline(s, t, TimeoutWaitting, wake, r.s) && Departs(r.s, i, t, s.core.runq, InRecvTimed(wake))
  {
    StepIsRequest(s, i, t, RecvTimed(delay), w);
    LeavesUnderDeadline(s, i, t, RecvTimed(delay), TimeoutWaitting, s.time + delay, InRecvTimed(s.time + delay));
  }

  /** A `recv` on an empty mailbox parks the caller behind all other waiters. */
  lemma RecvParks(s: State, i: nat, t: Tid, w: nat)
    requires AtRequestOf(s, i, t, Recv) && s.core.tasks[t].mail == []
    ensures var r := Step(s, Run(i, w));
      && r.Next? && r.s.core.waitq == s.core.waitq + [t] && r.s.core.sleepers == s.core.sleepers
      && t < |r.s.core.tasks| && r.s.core.tasks[t].state.Waitting? && Departs(r.s, i, t, s.core.runq, InRecv)
  {
    CallerKnows(s, i, t, Recv);
    StepIsRequest(s, i, t, Recv, w);
    PickDeparts(s, i, t, Park(s.core, t).value, InRecv);
  }

  /** s' comes from s by t fetching its oldest message, after a switch-out in the timed `recv` or not,
      and heading out of the critical section. */
  ghost predicate Returns(s: State, i: nat, t: Tid, timedWait: bool, s': State)
    requires t < |s.core.tasks| && s.core.tasks[t].mail != []
  {
    var k := s.core.tasks[t];
    var k' := k.(mail := k.mail[1..], got := k.got + [k.mail[0]], viaTimedWait := k.viaTimedWait + [timedWait]);
    && s'.core == s.core.(tasks := s.core.tasks[t := k'])
    && i < |s'.threads| && s'.threads[i].pc == Exec(t, Release(false))
    && t < |s'.ctx| && s'.ctx[t].cont.Executing?
  }

  /** Either `recv` that finds mail: with nobody queued it returns the oldest message at once, and
      that is no timeout; otherwise it yields first and leaves the mail where it is. */
  lemma RecvFindsMail(s: State, i: nat, t: Tid, op: Op, w: nat)
    requires AtRequestOf(s, i, t, op) && (op.Recv? || op.RecvTimed?) && s.core.tasks[t].mail != []
    ensures var r, k := Step(s, Run(i, w)), s.core.tasks[t];
      && r.Next? && t < |r.s.core.tasks| && k.mail[0] != NoMsg
      && if s.core.runq == [] then Returns(s, i, t, false, r.s)
         else
           && Departs(r.s, i, t, s.core.runq + [t], InRecvYield)
           && r.s.core.waitq == s.core.waitq && r.s.core.sleepers == s.core.sleepers
           && r.s.core.tasks[t].got == k.got && r.s.core.tasks[t].mail == k.mail
  {
    CallerKnows(s, i, t, op);
    StepIsRequest(s, i, t, op, w);
    if s.core.runq != [] {
      YieldDeparts(s, i, t, InRecvYield);
    } else {
      FetchReturns(s, i, t, false);
    }
  }

  lemma FetchReturns(s: State, i: nat, t: Tid, timedWait: bool)
    requires i < |s.threads| && t < |s.ctx| && t < |s.core.tasks| && s.core.tasks[t].mail != []
    ensures FetchAnd(s, i, t, timedWait).Next? && Returns(s, i, t, timedWait, FetchAnd(s, i, t, timedWait).s)
  {
  }

  /** A tasklet resumed inside a `recv` leaves with the oldest message, and with nothing else. */
  lemma RecvReturnsOldest(s: State, i: nat, t: Tid, w: nat)
    requires Reachable(s) && !s.destroyed && i < |s.threads| && s.threads[i].pc == Exec(t, Resumed)
    requires t < |s.ctx| && t < |s.core.tasks| && InsideRecv(s.ctx[t].cont)
    ensures var r, k := Step(s, Run(i, w)), s.core.tasks[t];
      && k.mail != [] && r.Next? && Returns(s, i, t, s.ctx[t].cont.InRecvTimed?, r.s)
      && (k.mail[0] == NoMsg ==> s.ctx[t].cont.InRecvTimed?)
  {
    var pl := ReachablePlacement(s);
    EnterKnows(s, pl, i, t);
    assert TaskOk(s.core.tasks[t], s.ctx[t], pl[t], false);
    assert s.(core := SetState(s.core, t, Running)) == s by {
      assert s.core.tasks == s.core.tasks[t := s.core.tasks[t]];
    }
    FetchReturns(s, i, t, s.ctx[t].cont.InRecvTimed?);
  }

  // ----- dispatching

  /** Where a message leaves the core `c`: it is last in the mailbox of t; t, if it waited, is
      queued, last, and waits no more; nobody else is touched. */
  ghost predicate Delivered(c: Core, t: Tid, m: Message, c': Core)
    requires t < |c.tasks|
  {
    var k := c.tasks[t];
    && |c'.tasks| == |c.tasks|
    && c'.tasks[t] == k.(mail := k.mail + [m], sent := k.sent + [m], state := if Waits(k.state) then Runnable else k.state,
                         wake := if k.state.TimeoutWaitting? then 0 else k.wake)
    && (forall u :: 0 <= u < |c.tasks| && u != t ==> c'.tasks[u] == c.tasks[u])
    && Awoken(c, t, c') && c'.runq == QueueAfter(c, t)
    && c'.signals == c.signals + if Waits(k.state) && c.runq == [] then 1 else 0
  }

  /** t, if it waited, has left the wait list or the sleepers, and all others are there in order. */
  ghost predicate Awoken(c: Core, t: Tid, c': Core)
    requires t < |c.tasks|
  {
    if Waits(c.tasks[t].state) then c'.waitq == Without(c.waitq, t) && c'.sleepers == Without(c.sleepers, t)
    else c'.waitq == c.waitq && c'.sleepers == c.sleepers
  }

  /** The run queue once t has got its message. */
  function QueueAfter(c: Core, t: Tid): seq<Tid>
    requires t < |c.tasks|
  {
    if Waits(c.tasks[t].state) then c.runq + [t] else c.runq
  }

  lemma DeliveredToWaiter(c: Core, t: Tid, m: Message)
    requires t < |c.tasks| && c.tasks[t].state.Waitting? && t !in c.runq && t in c.waitq && t !in c.sleepers && Distinct(c.sleepers)
    ensures Dispatch(c, t, m, true).Ok? && Delivered(c, t, m, Dispatch(c, t, m, true).value)
  {
    WithoutMembers(c.sleepers, t);
  }

  lemma DeliveredToTimed(c: Core, t: Tid, m: Message)
    requires t < |c.tasks| && c.tasks[t].state.TimeoutWaitting? && t !in c.runq && t !in c.waitq && Distinct(c.waitq)
    ensures Dispatch(c, t, m, true).Ok? && Delivered(c, t, m, Dispatch(c, t, m, true).value)
  {
    WithoutMembers(c.waitq, t);
  }

  lemma DispatchDelivers(s: State, t: Tid, m: Message)
    requires Reachable(s) && !s.destroyed && Live(s, t)
    ensures Dispatch(s.core, t, m, true).Ok? && Delivered(s.core, t, m, Dispatch(s.core, t, m, true).value)
  {
    var pl := ReachablePlacement(s);
    assert TaskOk(s.core.tasks[t], s.ctx[t], pl[t], Leaver(s) == Some(t));
    match s.core.tasks[t].state
    case Waitting => DeliveredToWaiter(s.core, t, m);
    case TimeoutWaitting => DeliveredToTimed(s.core, t, m);
    case _ =>
  }

  /** The delivery can take place: either it signals nobody, or w is a thread that the signal may
      reach. */
  predicate MayDeliver(s: State, t: Tid, w: nat)
    requires t < |s.core.tasks|
  {
    Waits(s.core.tasks[t].state) && s.core.runq == [] ==> MaySignal(s.threads, w)
  }

  /** A post of the port service delivers its message. */
  lemma PortDelivers(s: State, t: Tid, content: int, w: nat)
    requires Reachable(s) && !s.destroyed && s.portIn && Live(s, t)
    ensures var r := Step(s, PortPost(t, content, w));
            (r.Next? <==> MayDeliver(s, t, w)) && (r.Next? ==> Delivered(s.core, t, PortMsg(content), r.s.core))
  {
    DispatchDelivers(s, t, PortMsg(content));
  }

  ghost predicate SendEffect(s: State, i: nat, t: Tid, target: Tid, m: Message, s': State)
    requires target < |s.core.tasks|
  {
    var q := QueueAfter(s.core, target);
    && |s'.core.tasks| == |s.core.tasks| && i < |s'.threads|
    && (forall u :: 0 <= u < |s.core.tasks| ==> s'.core.tasks[u].mail == s.core.tasks[u].mail + if u == target then [m] else [])
    && Awoken(s.core, target, s'.core)
    && if q == [] then s'.core.runq == [] && s'.threads[i].pc == Exec(t, Release(false))
       else Departs(s', i, t, q + [t], InYield)
  }

  /** A `send` delivers its message and yields; with nobody queued, the woken target included, it
      returns. */
  lemma SendDelivers(s: State, i: nat, t: Tid, target: Tid, m: Message, w: nat)
    requires AtRequestOf(s, i, t, Send(target, m)) && Live(s, target)
    ensures var r := Step(s, Run(i, w));
            (r.Next? <==> MayDeliver(s, target, w)) && (r.Next? ==> SendEffect(s, i, t, target, m, r.s))
  {
    CallerKnows(s, i, t, Send(target, m));
    StepIsRequest(s, i, t, Send(target, m), w);
    DispatchDelivers(s, target, m);
    var c := Dispatch(s.core, target, m, true).value;
    assert Settle(s, c, w).Next? <==> MayDeliver(s, target, w);
    if Settle(s, c, w).Next? {
      YieldAfterSend(s, i, t, target, m, c, Settle(s, c, w).s);
    }
  }

  lemma YieldAfterSend(s: State, i: nat, t: Tid, target: Tid, m: Message, c: Core, s1: State)
    requires target < |s.core.tasks| && Delivered(s.core, target, m, c) && s1.core == c && s1.ctx == s.ctx
    requires i < |s1.threads| && t < |s.ctx| && t < |s.core.tasks| && s.core.tasks[t].state.Running?
    requires t !in s.core.runq && (s.core.runq != [] ==> s.core.runq[0] < |s.core.tasks|)
    ensures YieldOr(s1, i, t, InYield).Next? && SendEffect(s, i, t, target, m, YieldOr(s1, i, t, InYield).s)
  {
    if c.runq != [] {
      YieldDeparts(s1, i, t, InYield);
    }
  }

  // ----- what a request writes into the tasklets

  /** t is filed in its new state, under `wake`, and the first of `q`, if there is one, runs. */
  function Filed(tasks: seq<Task>, t: Tid, st: TState, wake: nat, q: seq<Tid>): seq<Task>
    requires t < |tasks| && (q != [] ==> q[0] < |tasks|)
  {
    var ts := tasks[t := tasks[t].(state := st, wake := wake)];
    if q == [] then ts else ts[q[0] := ts[q[0]].(state := Running)]
  }

  /** The caller does not go on by itself. */
  predicate Gives(s: State, t: Tid, op: Op)
    requires t < |s.core.tasks|
  {
    match op
    case Sleep(_) => true
    case Yield => s.core.runq != []
    case Recv => s.core.tasks[t].mail == [] || s.core.runq != []
    case RecvTimed(_) => s.core.tasks[t].mail == [] || s.core.runq != []
    case _ => false
  }

  /** The state in which it is filed. */
  function StateIn(op: Op, mail: seq<Message>): TState {
    if op.Sleep? then Sleeping
    else if mail != [] || op.Yield? then Runnable
    else if op.Recv? then Waitting
    else TimeoutWaitting
  }

  lemma LeaveWrites(s: State, i: nat, t: Tid, c: Core, cont: Cont)
    requires i < |s.threads| && t < |s.ctx| && (c.runq != [] ==> c.runq[0] < |c.tasks|)
    ensures var r, q := Leave(s, i, t, PickNext(c), cont), c.runq;
      && r.Next? && r.s.core.signals == c.signals
      && r.s.core.tasks == if q == [] then c.tasks else c.tasks[q[0] := c.tasks[q[0]].(state := Running)]
  {
  }

  lemma YieldWrites(s: State, i: nat, t: Tid, cont: Cont)
    requires i < |s.threads| && t < |s.ctx| && t < |s.core.tasks| && t !in s.core.runq
    requires s.core.runq != [] && s.core.runq[0] < |s.core.tasks|
    ensures var r, k := YieldOr(s, i, t, cont), s.core.tasks[t];
            r.Next? && r.s.core.signals == s.core.signals && r.s.core.tasks == Filed(s.core.tasks, t, Runnable, k.wake, s.core.runq)
  {
    LeaveWrites(s, i, t, PushRunnable(s.core, t).value, cont);
  }

  lemma RecvWrites(s: State, i: nat, t: Tid, cont: Cont)
    requires i < |s.threads| && t < |s.ctx| && t < |s.core.tasks| && t !in s.core.runq && t !in s.core.waitq
    requires (s.core.runq != [] ==> s.core.runq[0] < |s.core.tasks|) && (cont.InRecv? || cont.InRecvTimed?)
    requires s.core.tasks[t].mail == [] || s.core.runq != []
    ensures var r, k := RecvLoop(s, i, t, cont, false), s.core.tasks[t];
      && r.Next? && r.s.core.signals == s.core.signals
      && r.s.core.tasks ==
         if k.mail != [] then Filed(s.core.tasks, t, Runnable, k.wake, s.core.runq)
         else if cont.InRecvTimed? then Filed(s.core.tasks, t, TimeoutWaitting, cont.wake, s.core.runq)
         else Filed(s.core.tasks, t, Waitting, k.wake, s.core.runq)
  {
    if s.core.tasks[t].mail != [] {
      YieldWrites(s, i, t, InRecvYield);
    } else if cont.InRecvTimed? {
      LeaveWrites(s, i, t, AddSleeper(s.core, t, TimeoutWaitting, cont.wake), cont);
    } else {
      LeaveWrites(s, i, t, Park(s.core, t).value, cont);
    }
  }

  lemma AtRequestWrites(s: State, i: nat, t: Tid, op: Op, wake: nat, w: nat)
    requires i < |s.threads| && t < |s.ctx| && t < |s.core.tasks| && t !in s.core.runq && t !in s.core.waitq && Gives(s, t, op)
    requires s.core.runq != [] ==> s.core.runq[0] < |s.core.tasks|
    requires wake == if op.Sleep? || (op.RecvTimed? && s.core.tasks[t].mail == []) then s.time + op.delay else s.core.tasks[t].wake
    ensures var r := AtRequest(s, i, t, op, w);
      && r.Next? && r.s.core.signals == s.core.signals
      && r.s.core.tasks == Filed(s.core.tasks, t, StateIn(op, s.core.tasks[t].mail), wake, s.core.runq)
  {
    match op
    case Sleep(delay) => LeaveWrites(s, i, t, AddSleeper(s.core, t, Sleeping, wake), InSleep);
    case Yield => YieldWrites(s, i, t, InYield);
    case Recv => RecvWrites(s, i, t, InRecv);
    case RecvTimed(delay) => RecvWrites(s, i, t, InRecvTimed(s.time + delay));
  }

  /** A request with which its caller departs writes the caller's state, its deadline if it asks for one,
      and the state of the tasklet that is entered next, and signals nobody. */
  lemma RequestWrites(s: State, i: nat, t: Tid, op: Op, w: nat)
    requires AtRequestOf(s, i, t, op) && Gives(s, t, op)
    ensures s.core.runq != [] ==> s.core.runq[0] < |s.core.tasks|
    ensures var r, k := Step(s, Run(i, w)), s.core.tasks[t];
      var wake := if op.Sleep? || (op.RecvTimed? && k.mail == []) then s.time + op.delay else k.wake;
      && r.Next? && r.s.core.signals == s.core.signals
      && r.s.core.tasks == Filed(s.core.tasks, t, StateIn(op, k.mail), wake, s.core.runq)
  {
    CallerKnows(s, i, t, op);
    StepIsRequest(s, i, t, op, w);
    var k := s.core.tasks[t];
    AtRequestWrites(s, i, t, op, if op.Sleep? || (op.RecvTimed? && k.mail == []) then s.time + op.delay else k.wake, w);
  }

  /** A `send` writes what the delivery writes, and then what a `yield` does. */
  lemma SendWrites(s: State, i: nat, t: Tid, target: Tid, m: Message, w: nat) returns (c: Core)
    requires AtRequestOf(s, i, t, Send(target, m)) && Live(s, target) && Step(s, Run(i, w)).Next?
    ensures Delivered(s.core, target, m, c) && (c.runq != [] ==> c.runq[0] < |c.tasks|) && |c.tasks| == |s.core.tasks|
    ensures var s' := Step(s, Run(i, w)).s;
      && s'.core.signals == c.signals
      && s'.core.tasks == if c.runq == [] then c.tasks else Filed(c.tasks, t, Runnable, c.tasks[t].wake, c.runq)
  {
    CallerKnows(s, i, t, Send(target, m));
    StepIsRequest(s, i, t, Send(target, m), w);
    DispatchDelivers(s, target, m);
    c := Dispatch(s.core, target, m, true).value;
    var s1 := Settle(s, c, w).s;
    if c.runq != [] {
      YieldWrites(s1, i, t, InYield);
    }
  }

  // ----- starting and stopping

  /** The first `start` of a tasklet queues it, last; any further one does nothing. */
  lemma StartQueuesOnce(s: State, k: nat, t: Tid, w: nat)
    requires Reachable(s) && !s.destroyed && k in s.ext && Live(s, t)
    ensures var r, x := Step(s, ExtStart(k, t, w)), s.core.tasks[t];
      if x.started then r == Next(s)
      else
        && (r.Next? <==> (s.core.runq == [] ==> MaySignal(s.threads, w)))
        && (r.Next? ==>
              && r.s.core.runq == s.core.runq + [t] && r.s.core.waitq == s.core.waitq && r.s.core.sleepers == s.core.sleepers
              && r.s.core.tasks == s.core.tasks[t := x.(state := Runnable, started := true)])
  {
    var pl := ReachablePlacement(s);
    assert TaskOk(s.core.tasks[t], s.ctx[t], pl[t], Leaver(s) == Some(t));
  }

  /** A tasklet whose code has ended goes to the finished slot of its threadlet, in state `finished`
      unless an exception ended it, and heads for the threadlet's context. */
  lemma EndsInSlot(s: State, i: nat, t: Tid, op: Op, w: nat)
    requires Reachable(s) && !s.destroyed && i < |s.threads| && s.threads[i].pc == Exec(t, Enter(op)) && (op.Finish? || op.Fail?)
    ensures var r := Step(s, Run(i, w));
      && r.Next? && t < |s.core.tasks| && s.threads[i].slot == None
      && r.s.threads == s.threads[i := s.threads[i].(pc := Exec(t, SwapBack), slot := Some(t))]
      && r.s.core == s.core.(tasks := s.core.tasks[t := s.core.tasks[t].(state := if op.Finish? then Finished else Running)])
      && t < |s.ctx| && r.s.ctx == s.ctx[t := s.ctx[t].(cont := Done)] && r.s.mutex == s.mutex
  {
    var pl := ReachablePlacement(s);
    EnterKnows(s, pl, i, t);
    assert ThreadOk(s, pl, i);
    assert s.core.tasks == s.core.tasks[t := s.core.tasks[t]];
  }

  /** A threadlet inside pop_tasklet takes the first of the run queue; with none queued it waits on
      the condition, having given up the mutex. */
  lemma PopTakesFirst(s: State, i: nat, w: nat)
    requires Reachable(s) && !s.destroyed && !s.stop && i < |s.threads| && s.threads[i].pc.Popping?
    ensures var r := Step(s, Run(i, w));
      r.Next? && i < |r.s.threads| &&
      if s.core.runq == [] then r.s.core == s.core && r.s.mutex == None && IsBlocked(r.s.threads[i])
      else r.s.mutex == s.mutex && r.s.core.runq == s.core.runq[1..] && r.s.threads[i].pc == SwitchIn(s.core.runq[0])
  {
    var pl := ReachablePlacement(s);
    assert ThreadOk(s, pl, i);
    if s.core.runq != [] {
      assert s.core.runq[0] in s.core.runq;
    }
  }

  /** After `stop` every request throws, and does nothing else. */
  lemma StoppedThrows(s: State, i: nat, t: Tid, op: Op, w: nat)
    requires Reachable(s) && !s.destroyed && s.stop && i < |s.threads| && s.threads[i].pc == Exec(t, Enter(op))
    requires op.Send? || op.Recv? || op.RecvTimed? || op.Sleep? || op.Yield?
    ensures Step(s, Run(i, w)) == Next(SetPc(s, i, Exec(t, Release(true))))
  {
    var pl := ReachablePlacement(s);
    EnterKnows(s, pl, i, t);
  }

  // ----- the scans in reachable states

  /** check_waittings would find nothing to do. */
  lemma CheckWaittingsFindsNothing(s: State)
    requires Reachable(s) && !s.destroyed
    ensures ByMail(s.core.tasks, s.core.waitq, true) == []
  {
    var pl := ReachablePlacement(s);
    forall t | t in s.core.waitq ensures !HasMail(s.core.tasks, t) {
      assert TaskOk(s.core.tasks[t], s.ctx[t], pl[t], Leaver(s) == Some(t));
    }
    NobodyReady(s.core.tasks, s.core.waitq);
  }

  lemma {:induction false} NobodyReady(tasks: seq<Task>, xs: seq<Tid>)
    requires forall t :: t in xs ==> !HasMail(tasks, t)
    ensures ByMail(tasks, xs, true) == []
  {
    if xs == [] {
    } else {
      NobodyReady(tasks, xs[1..]);
    }
  }

  /** The timer always finds its list in order: what its loop requires holds. */
  lemma TimerMayScan(s: State)
    requires Reachable(s) && !s.destroyed
    ensures SleepersOk(s.core)
  {
    var pl := ReachablePlacement(s);
    forall t | t in s.core.sleepers
      ensures t < |s.core.tasks| && (s.core.tasks[t].state.Sleeping? || s.core.tasks[t].state.TimeoutWaitting?)
      ensures t !in s.core.runq
    {
      assert TaskOk(s.core.tasks[t], s.ctx[t], pl[t], Leaver(s) == Some(t));
    }
  }

  /** c, and k more tasklets that have not been started. */
  function Grown(c: Core, k: nat): Core {
    c.(tasks := c.tasks + seq(k, _ => FRESH_TASK))
  }

  lemma GrownTwice(c: Core, k: nat, n: nat)
    ensures Grown(Grown(c, k), n) == Grown(c, k + n)
  {
    assert Grown(Grown(c, k), n).tasks == Grown(c, k + n).tasks;
  }

  lemma ExpireGrown(c: Core, k: nat)
    requires SleepersOk(c) && c.sleepers != []
    ensures ExpireFirst(c).Ok? && ExpireFirst(Grown(c, k)) == Ok(Grown(ExpireFirst(c).value, k))
  {
    ExpireFirstWakes(c);
    ExpireFirstWakes(Grown(c, k));
    var t := c.sleepers[0];
    assert Grown(c, k).tasks[t := Expired(c.tasks[t])] == c.tasks[t := Expired(c.tasks[t])] + seq(k, _ => FRESH_TASK);
  }

  /** New tasklets do not matter to the scan. */
  lemma {:induction false} ScanGrown(c: Core, k: nat, time: nat)
    requires SleepersOk(c)
    ensures Scan(c, time).Ok? && Scan(Grown(c, k), time) == Ok(Grown(Scan(c, time).value, k))
    decreases |c.sleepers|
  {
    if Due(c, time) {
      ExpireFirstWakes(c);
      ExpireGrown(c, k);
      ScanGrown(ExpireFirst(c).value, k, time);
    }
  }

  /** What a threadlet can do while it is outside the critical section does not touch the core. */
  lemma OutsideQuiet(s: State, i: nat, w: nat, s': State)
    requires i < |s.threads| && !Inside(s.threads[i].pc) && s.mutex != None && RunThread(s, i, w) == Next(s')
    ensures s'.core == s.core && s'.timerIn == s.timerIn && s'.time == s.time && s'.destroyed == s.destroyed
  {
    assert s.threads[i].pc.Top?;
  }

  /** Nor do most steps of the others touch the timer. */
  lemma TimerUntouched(s: State, a: Action, s': State)
    requires Step(s, a) == Next(s') && s.timerIn && s.mutex == Some(TimerAgent) && !s.portIn && s.ext == {}
    requires !a.Run? && !a.TimerUnlock?
    ensures s'.timerIn && s'.time == s.time && !s'.destroyed && !a.PortPost? && !a.ExtStart?
  {
  }

  /** A step of anyone while the timer holds the mutex: the timer's own expire one sleeper each, and
      the others at most construct a tasklet. */
  lemma WhileTimerHolds(s: State, a: Action, s': State)
    requires Reachable(s) && s.timerIn && !a.TimerUnlock? && Step(s, a) == Next(s')
    ensures s'.timerIn && s'.time == s.time && !s'.destroyed
    ensures if a.TimerStep? then Due(s.core, s.time) && ExpireFirst(s.core) == Ok(s'.core)
            else s'.core == Grown(s.core, if a.Create? then 1 else 0)
  {
    var pl := ReachablePlacement(s);
    assert s.core.tasks + [] == s.core.tasks;
    if a.Run? {
      assert ThreadOk(s, pl, a.i);
      OutsideQuiet(s, a.i, a.w, s');
    } else {
      TimerUntouched(s, a, s');
      if a.TimerStep? {
        SettleQueue(s, ExpireFirst(s.core).value, a.w, s');
      } else {
        PlainStep(s, a, s');
      }
    }
  }

  /** One step's share of the scan: it is part of the scan, or has added n tasklets to it. */
  lemma ScanContinues(c: Core, time: nat, expired: bool, n: nat, c1: Core, k: nat)
    requires SleepersOk(c) && SleepersOk(c1)
    requires if expired then n == 0 && Due(c, time) && ExpireFirst(c) == Ok(c1) else c1 == Grown(c, n)
    ensures Scan(c, time).Ok? && Scan(c1, time).Ok?
    ensures Grown(Scan(c1, time).value, k) == Grown(Scan(c, time).value, n + k)
  {
    ScanIsFilter(c, time);
    if !expired {
      ScanGrown(c, n, time);
      GrownTwice(Scan(c, time).value, n, k);
    }
  }

  /** The timer gives up the mutex only when no sleeper is due. */
  lemma UnlockNothingDue(s: State)
    requires Step(s, TimerUnlock).Next? && SleepersOk(s.core)
    ensures Scan(s.core, s.time) == Ok(s.core) && Grown(s.core, 0) == s.core
  {
    assert s.core.tasks + [] == s.core.tasks;
  }

  lemma TimerStepsScanFrom(s: State, s1: State, a: Action, s': State, k: nat) returns (n: nat)
    requires Reachable(s) && Reachable(s1) && s.timerIn && !s.destroyed && !s1.destroyed
    requires !a.TimerUnlock? && Step(s, a) == Next(s1)
    requires Scan(s1.core, s1.time).Ok? && s'.core == Grown(Scan(s1.core, s1.time).value, k)
    ensures Scan(s.core, s.time).Ok? && s'.core == Grown(Scan(s.core, s.time).value, n)
  {
    WhileTimerHolds(s, a, s1);
    TimerMayScan(s);
    TimerMayScan(s1);
    var m := if a.Create? then 1 else 0;
    ScanContinues(s.core, s.time, a.TimerStep?, m, s1.core, k);
    n := m + k;
  }

  /** While the timer holds the mutex, whatever the other agents do meanwhile, its steps amount to
      one scan: when it gives the mutex up, the core is the one it found, scanned, and with the k
      tasklets that were constructed in the meantime. */
  lemma {:induction false} TimerStepsScan(s: State, actions: seq<Action>) returns (k: nat)
    requires Reachable(s) && s.timerIn && !s.destroyed
    requires forall n :: 0 <= n < |actions| ==> !actions[n].TimerUnlock?
    requires Execute(s, actions).Next? && Step(Execute(s, actions).s, TimerUnlock).Next?
    ensures Scan(s.core, s.time).Ok? && DueMoved(s.core, s.time, Scan(s.core, s.time).value)
    ensures Execute(s, actions).s.core == Grown(Scan(s.core, s.time).value, k)
    decreases actions
  {
    TimerMayScan(s);
    ScanIsFilter(s.core, s.time);
    if actions == [] {
      k := 0;
      UnlockNothingDue(s);
    } else {
      var s1 := ExecuteFirst(s, actions);
      WhileTimerHolds(s, actions[0], s1);
      var k1 := TimerStepsScan(s1, actions[1..]);
      k := TimerStepsScanFrom(s, s1, actions[0], Execute(s1, actions[1..]).s, k1);
    }
  }

  lemma ExecuteFirst(s: State, actions: seq<Action>) returns (s1: State)
    requires Reachable(s) && actions != [] && Execute(s, actions).Next?
    ensures Step(s, actions[0]) == Next(s1) && Reachable(s1) && Execute(s1, actions[1..]) == Execute(s, actions)
  {
    s1 := Step(s, actions[0]).s;
    StepReachable(s, actions[0]);
  }
}
