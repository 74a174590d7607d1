/** Channels over time.  What a step sends and what it fetches is read off the request and the
    program point alone, before the step; the mailboxes then follow, for every step and run. */
module Channels {
  import opened Base
  import opened Queues
  import opened Machine
  import opened Safety
  import opened RunQueue

  function Mail(c: Core, u: Tid): seq<Message> {
    if u < |c.tasks| then c.tasks[u].mail else []
  }

  function Got(c: Core, u: Tid): seq<Message> {
    if u < |c.tasks| then c.tasks[u].got else []
  }

  /** The messages addressed to u by a step: of a tasklet inside `send`, unless the service is
      stopped, of the port service, and of the timer to a timed receiver whose time is up. */
  function Sends(s: State, a: Action, u: Tid): seq<Message> {
    match a
    case Run(i, _) =>
      (match PointOf(s, i)
       case Some(Enter(op)) => if op.Send? && op.target == u && !s.stop then [op.msg] else []
       case _ => [])
    case PortPost(t, content, _) => if t == u then [PortMsg(content)] else []
    case TimerStep(_) =>
      if s.core.sleepers != [] && s.core.sleepers[0] == u < |s.core.tasks| && s.core.tasks[u].state.TimeoutWaitting?
      then [NoMsg] else []
    case _ => []
  }

  /** Where in the code of its tasklet threadlet i is, if it runs one. */
  function PointOf(s: State, i: nat): Option<Where> {
    if i < |s.threads| && s.threads[i].pc.Exec? then Some(s.threads[i].pc.w) else None
  }

  /** How many messages u fetches in a step: one when it is resumed inside a `recv`, and one when
      a `recv` finds mail and there is nobody to yield to. */
  function Fetches(s: State, a: Action, u: Tid): nat {
    if a.Run? && a.i < |s.threads| && s.threads[a.i].pc.Exec? && s.threads[a.i].pc.t == u < |s.ctx|
    then FetchesAt(s, s.threads[a.i].pc.w, u) else 0
  }

  function FetchesAt(s: State, at: Where, u: Tid): nat
    requires u < |s.ctx|
  {
    match at
    case Resumed => if InsideRecv(s.ctx[u].cont) then 1 else 0
    case Enter(op) =>
      if (op.Recv? || op.RecvTimed?) && !s.stop && Mail(s.core, u) != [] && s.core.runq == [] then 1 else 0
    case _ => 0
  }

  /** u fetched the first messages of its mailbox, n of them, and `sent` arrived at its end. */
  ghost predicate Flow(c: Core, u: Tid, n: nat, sent: seq<Message>, c': Core) {
    && n <= |Mail(c, u)|
    && Got(c', u) == Got(c, u) + Mail(c, u)[..n]
    && Mail(c', u) == Mail(c, u)[n..] + sent
  }

  // ----- single operations

  lemma DispatchFlow(c: Core, t: Tid, m: Message, del: bool, c': Core, u: Tid)
    requires t < |c.tasks| && Dispatch(c, t, m, del) == Ok(c')
    ensures Flow(c, u, 0, if t == u then [m] else [], c') && |c'.tasks| == |c.tasks|
  {
    assert Flow(c, u, 0, if t == u then [m] else [], Deposit(c, t, m));
  }

  lemma LeaveFlow(s: State, i: nat, t: Tid, c: Core, cont: Cont, s': State, u: Tid)
    requires i < |s.threads| && t < |s.ctx| && Leave(s, i, t, PickNext(c), cont) == Next(s')
    ensures Flow(c, u, 0, [], s'.core)
  {
  }

  lemma FetchFlow(s: State, i: nat, t: Tid, timedWait: bool, s': State, u: Tid)
    requires i < |s.threads| && t < |s.ctx| && t < |s.core.tasks| && FetchAnd(s, i, t, timedWait) == Next(s')
    ensures Flow(s.core, u, if t == u then 1 else 0, [], s'.core)
  {
  }

  lemma YieldOrFlow(s: State, i: nat, t: Tid, cont: Cont, s': State, u: Tid)
    requires i < |s.threads| && t < |s.ctx| && t < |s.core.tasks| && YieldOr(s, i, t, cont) == Next(s')
    ensures Flow(s.core, u, if t == u && cont == InRecvYield && s.core.runq == [] then 1 else 0, [], s'.core)
  {
    if s.core.runq != [] {
      var c := PushRunnable(s.core, t).value;
      LeaveFlow(s, i, t, c, cont, s', u);
    } else if cont == InRecvYield {
      FetchFlow(s, i, t, false, s', u);
    }
  }

  lemma RecvLoopFlow(s: State, i: nat, t: Tid, cont: Cont, switched: bool, s': State, u: Tid)
    requires i < |s.threads| && t < |s.ctx| && t < |s.core.tasks| && RecvLoop(s, i, t, cont, switched) == Next(s')
    ensures Flow(s.core, u, if t == u && s.core.tasks[t].mail != [] && (switched || s.core.runq == []) then 1 else 0, [], s'.core)
  {
    if s.core.tasks[t].mail != [] {
      if switched {
        FetchFlow(s, i, t, cont.InRecvTimed?, s', u);
      } else {
        YieldOrFlow(s, i, t, InRecvYield, s', u);
      }
    } else if cont.InRecvTimed? {
      LeaveFlow(s, i, t, AddSleeper(s.core, t, TimeoutWaitting, cont.wake), cont, s', u);
    } else {
      LeaveFlow(s, i, t, Park(s.core, t).value, cont, s', u);
    }
  }

  lemma SendFlow(s: State, i: nat, t: Tid, target: Tid, msg: Message, w: nat, s': State, u: Tid)
    requires i < |s.threads| && t < |s.ctx| && t < |s.core.tasks| && Live(s, target)
    requires AtSend(s, i, t, target, msg, w) == Next(s')
    ensures Flow(s.core, u, 0, if target == u then [msg] else [], s'.core)
  {
    var c := Dispatch(s.core, target, msg, true).value;
    DispatchFlow(s.core, target, msg, true, c, u);
    var s1 := Settle(s, c, w).s;
    SettleQueue(s, c, w, s1);
    YieldOrFlow(s1, i, t, InYield, s', u);
  }

  // ----- steps

  lemma RequestFlow(s: State, i: nat, t: Tid, op: Op, w: nat, s': State, u: Tid)
    requires i < |s.threads| && t < |s.ctx| && t < |s.core.tasks| && AtRequest(s, i, t, op, w) == Next(s') && !s.stop
    ensures Flow(s.core, u, if t == u then FetchesAt(s, Enter(op), t) else 0,
                 if op.Send? && op.target == u then [op.msg] else [], s'.core)
  {
    match op
    case Send(target, msg) => SendFlow(s, i, t, target, msg, w, s', u);
    case Recv => RecvLoopFlow(s, i, t, InRecv, false, s', u);
    case RecvTimed(delay) => RecvLoopFlow(s, i, t, InRecvTimed(s.time + delay), false, s', u);
    case Sleep(delay) => LeaveFlow(s, i, t, AddSleeper(s.core, t, Sleeping, s.time + delay), InSleep, s', u);
    case Yield => YieldOrFlow(s, i, t, InYield, s', u);
  }

  lemma EnterFlow(s: State, i: nat, t: Tid, op: Op, w: nat, s': State, u: Tid)
    requires i < |s.threads| && AtEnter(s, i, t, op, w) == Next(s')
    ensures Flow(s.core, u, if t == u < |s.ctx| then FetchesAt(s, Enter(op), t) else 0,
                 if op.Send? && op.target == u && !s.stop then [op.msg] else [], s'.core)
  {
    if !op.BeforeStart? && !op.Finish? && !op.Fail? && !s.stop {
      RequestFlow(s, i, t, op, w, s', u);
    }
  }

  lemma ResumedFlow(s: State, i: nat, t: Tid, s': State, u: Tid)
    requires i < |s.threads| && AtResumed(s, i, t) == Next(s')
    requires t < |s.ctx| && (InsideRecv(s.ctx[t].cont) ==> Mail(s.core, t) != [])
    ensures Flow(s.core, u, if t == u then FetchesAt(s, Resumed, t) else 0, [], s'.core)
  {
    var s1 := s.(core := SetState(s.core, t, Running));
    assert Flow(s.core, u, 0, [], s1.core);
    match s.ctx[t].cont
    case InRecv => RecvLoopFlow(s1, i, t, InRecv, true, s', u);
    case InRecvTimed(wake) => RecvLoopFlow(s1, i, t, InRecvTimed(wake), true, s', u);
    case InRecvYield => FetchFlow(s1, i, t, false, s', u);
    case _ => ResumedPlain(s, i, t, s');
  }

  lemma SwapFlow(s: State, i: nat, t: Tid, at: Where, w: nat, s': State, u: Tid)
    requires i < |s.threads| && (at.SwapTo? || at.SwapBack? || at.Release? || at.Acquire?)
    requires AtExec(s, i, t, at, w) == Next(s')
    ensures Flow(s.core, u, 0, [], s'.core)
  {
  }

  /** These steps leave the core alone. */
  lemma QuietSteps(s: State, i: nat, w: nat, s': State)
    requires i < |s.threads| && RunThread(s, i, w) == Next(s')
    requires s.threads[i].pc.Back? || s.threads[i].pc.Locking? || s.threads[i].pc.Woken?
    ensures s'.core == s.core
  {
  }

  lemma TopQuiet(s: State, i: nat)
    requires i < |s.threads|
    ensures AtTop(s, i).core == s.core
  {
  }

  lemma UnwindQuiet(s: State, i: nat, s': State)
    requires i < |s.threads| && AtUnwind(s, i) == Next(s')
    ensures s'.core == s.core
  {
  }

  lemma OwnStackFlow(s: State, i: nat, w: nat, s': State, u: Tid)
    requires i < |s.threads| && RunThread(s, i, w) == Next(s') && !s.threads[i].pc.Exec?
    ensures Flow(s.core, u, 0, [], s'.core)
  {
    match s.threads[i].pc
    case Popping => PoppingFlow(s, i, s', u);
    case SwitchIn(t) => SwitchInFlow(s, i, t, s', u);
    case Top => TopQuiet(s, i);
    case Unwind => UnwindQuiet(s, i, s');
    case _ => QuietSteps(s, i, w, s');
  }

  lemma SwitchInFlow(s: State, i: nat, t: Tid, s': State, u: Tid)
    requires i < |s.threads| && AtSwitchIn(s, i, t) == Next(s')
    ensures Flow(s.core, u, 0, [], s'.core)
  {
  }

  lemma PoppingFlow(s: State, i: nat, s': State, u: Tid)
    requires i < |s.threads| && AtPopping(s, i) == Next(s')
    ensures Flow(s.core, u, 0, [], s'.core)
  {
  }

  lemma RunFlow(s: State, i: nat, w: nat, s': State, u: Tid)
    requires Reachable(s) && !s.destroyed && i < |s.threads| && RunThread(s, i, w) == Next(s')
    ensures Flow(s.core, u, Fetches(s, Run(i, w), u), Sends(s, Run(i, w), u), s'.core)
  {
    match s.threads[i].pc
    case Exec(t, at) =>
      if at.Enter? {
        EnterFlow(s, i, t, at.op, w, s', u);
      } else if at.Resumed? {
        NoMissedMessage(s, t);
        ResumedFlow(s, i, t, s', u);
      } else {
        SwapFlow(s, i, t, at, w, s', u);
      }
    case _ => OwnStackFlow(s, i, w, s', u);
  }

  lemma ExpireFlow(c: Core, c': Core, u: Tid)
    requires c.sleepers != [] && ExpireFirst(c) == Ok(c')
    ensures Flow(c, u, 0, if c.sleepers[0] == u && c.tasks[u].state.TimeoutWaitting? then [NoMsg] else [], c')
  {
    var t := c.sleepers[0];
    if c.tasks[t].state.TimeoutWaitting? {
      DispatchFlow(c.(sleepers := c.sleepers[1..]), t, NoMsg, false, c', u);
    }
  }

  lemma StartFlow(s: State, t: Tid, w: nat, s': State, u: Tid)
    requires t < |s.core.tasks| && StartTasklet(s, t, w) == Next(s')
    ensures Flow(s.core, u, 0, [], s'.core)
  {
    if !s.core.tasks[t].started {
      var c := PushTasklet(s.core, t).value;
      SettleQueue(s, c.(tasks := c.tasks[t := c.tasks[t].(started := true)]), w, s');
    }
  }

  lemma CreateFlow(c: Core, u: Tid)
    ensures Flow(c, u, 0, [], c.(tasks := c.tasks + [FRESH_TASK]))
  {
  }

  lemma AgentFlow(s: State, a: Action, s': State, u: Tid)
    requires Step(s, a) == Next(s') && !a.Run?
    ensures Flow(s.core, u, 0, Sends(s, a, u), s'.core)
  {
    match a
    case TimerStep(w) =>
      SettleQueue(s, ExpireFirst(s.core).value, w, s');
      ExpireFlow(s.core, s'.core, u);
    case PortPost(t, content, w) =>
      SettleQueue(s, Dispatch(s.core, t, PortMsg(content), true).value, w, s');
      DispatchFlow(s.core, t, PortMsg(content), true, s'.core, u);
    case ExtStart(_, t, w) => StartFlow(s, t, w, s', u);
    case _ => PlainStep(s, a, s'); CreateFlow(s.core, u);
  }

  /** Every step fetches the oldest messages of exactly the receivers and delivers exactly what is
      sent: nothing else enters or leaves a mailbox, and no fetch finds it empty. */
  lemma StepFlow(s: State, a: Action, s': State, u: Tid)
    requires Reachable(s) && Step(s, a) == Next(s')
    ensures Flow(s.core, u, Fetches(s, a, u), Sends(s, a, u), s'.core)
  {
    if a.Run? {
      RunFlow(s, a.i, a.w, s', u);
    } else {
      AgentFlow(s, a, s', u);
    }
  }

  // ----- whole runs

  /** What every step sends to u. */
  function SendsOf(states: seq<State>, actions: seq<Action>, u: Tid): seq<seq<Message>>
    requires |states| == |actions| + 1
  {
    seq(|actions|, n requires 0 <= n < |actions| => Sends(states[n], actions[n], u))
  }

  /** How many messages u fetches in every step. */
  function FetchesOf(states: seq<State>, actions: seq<Action>, u: Tid): seq<nat>
    requires |states| == |actions| + 1
  {
    seq(|actions|, n requires 0 <= n < |actions| => Fetches(states[n], actions[n], u))
  }

  /** What u has fetched, then its mailbox, before every step and after the last. */
  function Holdings(states: seq<State>, u: Tid): seq<seq<Message>> {
    seq(|states|, n requires 0 <= n < |states| => Got(states[n].core, u) + Mail(states[n].core, u))
  }

  /** The first n of `xs`, joined. */
  function Concat(xs: seq<seq<Message>>, n: nat): seq<Message>
    requires n <= |xs|
  {
    if n == 0 then [] else Concat(xs, n - 1) + xs[n - 1]
  }

  function Sum(ks: seq<nat>, n: nat): nat
    requires n <= |ks|
  {
    if n == 0 then 0 else Sum(ks, n - 1) + ks[n - 1]
  }

  lemma {:induction false} ReachableAlong(states: seq<State>, actions: seq<Action>, n: nat)
    requires IsRun(states, actions) && n <= |actions| && Reachable(states[0])
    ensures Reachable(states[n])
  {
    if n == 0 {
    } else {
      ReachableAlong(states, actions, n - 1);
      StepReachable(states[n - 1], actions[n - 1]);
    }
  }

  lemma FlowAdds(c: Core, u: Tid, n: nat, sent: seq<Message>, c': Core)
    requires Flow(c, u, n, sent, c')
    ensures Got(c', u) + Mail(c', u) == (Got(c, u) + Mail(c, u)) + sent
    ensures |Got(c', u)| == |Got(c, u)| + n
  {
    assert Mail(c, u)[..n] + Mail(c, u)[n..] == Mail(c, u);
  }

  lemma {:induction false} HoldingsAdd(held: seq<seq<Message>>, sents: seq<seq<Message>>, n: nat)
    requires |held| == |sents| + 1 && n <= |sents|
    requires forall m {:trigger sents[m]} :: 0 <= m < |sents| ==> held[m + 1] == held[m] + sents[m]
    ensures held[n] == held[0] + Concat(sents, n)
  {
    if n == 0 {
    } else {
      HoldingsAdd(held, sents, n - 1);
      assert held[n] == held[n - 1] + sents[n - 1];
    }
  }

  /** Channel conservation: over any run, what u has fetched, followed by its mailbox, is what it
      had at the start, followed by all that was sent to it; nothing is lost, doubled or
      reordered. */
  lemma ChannelConservation(states: seq<State>, actions: seq<Action>, u: Tid, n: nat)
    requires IsRun(states, actions) && n <= |actions| && Reachable(states[0])
    ensures Got(states[n].core, u) + Mail(states[n].core, u) ==
            (Got(states[0].core, u) + Mail(states[0].core, u)) + Concat(SendsOf(states, actions, u), n)
  {
    var held, sents := Holdings(states, u), SendsOf(states, actions, u);
    forall m {:trigger sents[m]} | 0 <= m < |sents| ensures held[m + 1] == held[m] + sents[m] {
      HoldingsStep(states, actions, u, m);
    }
    HoldingsAdd(held, sents, n);
  }

  lemma HoldingsStep(states: seq<State>, actions: seq<Action>, u: Tid, m: nat)
    requires IsRun(states, actions) && m < |actions| && Reachable(states[0])
    ensures var held := Holdings(states, u); held[m + 1] == held[m] + SendsOf(states, actions, u)[m]
  {
    StepFlowAt(states, actions, u, m);
  }

  lemma StepFlowAt(states: seq<State>, actions: seq<Action>, u: Tid, m: nat)
    requires IsRun(states, actions) && m < |actions| && Reachable(states[0])
    ensures var c, c', k := states[m].core, states[m + 1].core, Fetches(states[m], actions[m], u);
      && Got(c', u) + Mail(c', u) == (Got(c, u) + Mail(c, u)) + Sends(states[m], actions[m], u)
      && k <= |Mail(c, u)| && Got(c', u) == Got(c, u) + Mail(c, u)[..k]
  {
    ReachableAlong(states, actions, m);
    StepFlow(states[m], actions[m], states[m + 1], u);
    FlowAdds(states[m].core, u, Fetches(states[m], actions[m], u), Sends(states[m], actions[m], u), states[m + 1].core);
  }

  function Sent(c: Core, u: Tid): seq<Message> {
    if u < |c.tasks| then c.tasks[u].sent else []
  }

  /** The history field `sent` is what its name says. */
  lemma SentIsSent(states: seq<State>, actions: seq<Action>, u: Tid, n: nat)
    requires IsRun(states, actions) && n <= |actions| && Reachable(states[0])
    requires !states[0].destroyed && !states[n].destroyed
    ensures Sent(states[n].core, u) == Sent(states[0].core, u) + Concat(SendsOf(states, actions, u), n)
  {
    ReachableAlong(states, actions, n);
    ChannelConservation(states, actions, u, n);
    if u < |states[0].core.tasks| {
      MailboxHistory(states[0], u);
    }
    if u < |states[n].core.tasks| {
      MailboxHistory(states[n], u);
    }
  }

  lemma {:induction false} CountsAdd(counts: seq<nat>, ks: seq<nat>, n: nat)
    requires |counts| == |ks| + 1 && n <= |ks|
    requires forall m {:trigger ks[m]} :: 0 <= m < |ks| ==> counts[m + 1] == counts[m] + ks[m]
    ensures counts[n] == counts[0] + Sum(ks, n)
  {
    if n == 0 {
    } else {
      CountsAdd(counts, ks, n - 1);
      assert counts[n] == counts[n - 1] + ks[n - 1];
    }
  }

  /** How many messages u has fetched before every step and after the last. */
  function Counts(states: seq<State>, u: Tid): seq<nat> {
    seq(|states|, n requires 0 <= n < |states| => |Got(states[n].core, u)|)
  }

  lemma CountsStep(states: seq<State>, actions: seq<Action>, u: Tid, m: nat)
    requires IsRun(states, actions) && m < |actions| && Reachable(states[0])
    ensures var counts := Counts(states, u); counts[m + 1] == counts[m] + FetchesOf(states, actions, u)[m]
  {
    StepFlowAt(states, actions, u, m);
  }

  /** And u has fetched exactly as many messages as its receives ask for, so these are the oldest
      of all it was sent. */
  lemma FetchedInOrder(states: seq<State>, actions: seq<Action>, u: Tid, n: nat)
    requires IsRun(states, actions) && n <= |actions| && Reachable(states[0])
    ensures |Got(states[n].core, u)| == |Got(states[0].core, u)| + Sum(FetchesOf(states, actions, u), n)
  {
    var counts, ks := Counts(states, u), FetchesOf(states, actions, u);
    forall m {:trigger ks[m]} | 0 <= m < |ks| ensures counts[m + 1] == counts[m] + ks[m] {
      CountsStep(states, actions, u, m);
    }
    CountsAdd(counts, ks, n);
  }
}
