/** Dispatching messages, expiring deadlines and starting tasklets keep the invariant and
    signal the condition variable exactly when they must. */
module Waking {
  import opened Base
  import opened Queues
  import opened Machine
  import opened Invariant
  import opened Preservation
  import opened Operations

  /** What an agent inside the critical section may do to the core: change tasklet u, which no
      threadlet is leaving, moving it at most from a waiting place to the run queue. */
  ghost predicate Wakes(s: State, pl: Placement, c: Core, pl': Placement, u: Tid) {
    && u < |s.core.tasks| == |c.tasks| == |s.ctx| == |pl| == |pl'|
    && c.tasks == s.core.tasks[u := c.tasks[u]]
    && c.tasks[u].thr == s.core.tasks[u].thr
    && (s.core.tasks[u].mail != [] ==> c.tasks[u].mail != [])
    && TaskOk(c.tasks[u], s.ctx[u], pl'[u], false)
    && ListsOk(c, pl')
    && (pl' == pl || (pl' == pl[u := RunQ] && !pl[u].On? && !pl[u].Slot?))
    && (c.signals == s.core.signals ==> c.runq == [] || s.core.runq != [])
  }

  lemma SignalReaches(ths: seq<Thread>, w: nat)
    requires MaySignal(ths, w) && exists i :: 0 <= i < |ths| && Started(WakeOne(ths, w)[i])
    ensures exists i :: 0 <= i < |ths| && Awake(WakeOne(ths, w)[i])
  {
    if exists i :: 0 <= i < |ths| && IsBlocked(ths[i]) {
      assert Awake(WakeOne(ths, w)[w]);
    } else {
      var i :| 0 <= i < |ths| && Started(WakeOne(ths, w)[i]);
      assert Awake(WakeOne(ths, w)[i]);
    }
  }

  ghost predicate OnlyWoken(s: State, s': State) {
    && |s'.threads| == |s.threads|
    && s' == s.(core := s'.core, threads := s'.threads)
    && forall j :: 0 <= j < |s.threads| ==> s'.threads[j] == s.threads[j] || s'.threads[j] == WakeThread(s.threads[j])
  }

  /** What `Settle` does to the threads. */
  lemma SettleEffect(s: State, c: Core, w: nat)
    requires WakeupOk(s) && (c.signals == s.core.signals ==> c.runq == [] || s.core.runq != [])
    ensures var r := Settle(s, c, w);
            !r.Faulty? && (r.Next? ==> r.s.core == c && OnlyWoken(s, r.s) && WakeupOk(r.s))
  {
    var r := Settle(s, c, w);
    if r.Next? && c.signals != s.core.signals && exists i :: 0 <= i < |r.s.threads| && Started(r.s.threads[i]) {
      SignalReaches(s.threads, w);
    }
  }

  lemma KeepsWakes(s: State, s': State, pl: Placement, pl': Placement, u: Tid)
    requires InvAt(s, pl) && Leaver(s) == None && Wakes(s, pl, s'.core, pl', u)
    requires OnlyWoken(s, s') && WakeupOk(s') && Leaver(s') == None
    ensures InvAt(s', pl')
  {
    TasksFrame(s, s', pl, pl', u);
    WokenThreads(s, s', pl, pl');
    assert AgentsOk(s');
  }

  lemma KeepsSettle(s: State, pl: Placement, c: Core, w: nat, pl': Placement, u: Tid)
    requires InvAt(s, pl) && Leaver(s) == None && Wakes(s, pl, c, pl', u)
    ensures Keeps(Settle(s, c, w), pl')
  {
    SettleEffect(s, c, w);
    var r := Settle(s, c, w);
    if r.Next? {
      KeepsWakes(s, r.s, pl, pl', u);
    }
  }

  /** Every threadlet is where it was, or has been woken. */
  lemma WokenThreads(s: State, s': State, pl: Placement, pl': Placement)
    requires InvAt(s, pl) && Leaver(s) == None && |pl'| == |pl|
    requires OnlyWoken(s, s') && |s'.core.tasks| == |s.core.tasks|
    requires forall t :: 0 <= t < |pl| ==>
      && s'.core.tasks[t].thr == s.core.tasks[t].thr
      && (s.core.tasks[t].mail != [] ==> s'.core.tasks[t].mail != [])
      && (pl[t].On? || pl[t].Slot? || pl'[t].On? || pl'[t].Slot? ==> pl'[t] == pl[t])
    ensures ThreadsOk(s', pl') && OwnedOk(s'.threads, pl')
  {
    OtherThreads(s, s', pl, pl', -1);
    OwnedFrame(s.threads, s'.threads, pl, pl', -1);
  }

  // ----- the core operations

  lemma PushRunnableOk(c: Core, pl: Placement, u: Tid, p: Place)
    requires ListsOk(c, pl) && |c.tasks| == |pl| && u < |pl| && pl[u] == p && !p.RunQ? && !p.WaitQ? && !p.Asleep?
    ensures PushTasklet(c, u).Ok? && ListsOk(PushTasklet(c, u).value, pl[u := RunQ])
  {
  }

  /** A waiting tasklet once it has its message and is queued. */
  function Roused(k: Task, wake: nat, m: Message): Task {
    k.(state := Runnable, wake := wake, mail := k.mail + [m], sent := k.sent + [m])
  }

  lemma RousedOk(k: Task, x: Ctx, p: Place, wake: nat, m: Message)
    requires TaskOk(k, x, p, false) && x.deleted == 0 && Waits(k.state) && (m == NoMsg ==> k.state.TimeoutWaitting?)
    ensures TaskOk(Roused(k, wake, m), x, RunQ, false)
  {
    assert k.got + (k.mail + [m]) == k.sent + [m];
  }

  /** The core once a waiting tasklet has its message and waits no more. */
  function Unparked(c: Core, u: Tid, m: Message): Core
    requires u < |c.tasks|
  {
    SetState(Deposit(c, u, m), u, Runnable).(waitq := Without(c.waitq, u))
  }

  lemma UnparkedLists(c: Core, pl: Placement, u: Tid, m: Message)
    requires ListsOk(c, pl) && |c.tasks| == |pl| && u < |pl| && pl[u] == WaitQ
    ensures var r := PushTasklet(Unparked(c, u, m), u);
            r.Ok? && ListsOk(r.value, pl[u := RunQ])
  {
    var c2 := Unparked(c, u, m);
    CoreMove(c, pl, u, WaitQ, Nowhere, c2);
    PushRunnableOk(c2, pl[u := Nowhere], u, Nowhere);
    assert pl[u := Nowhere][u := RunQ] == pl[u := RunQ];
  }

  lemma DispatchWaiter(c: Core, u: Tid, m: Message)
    requires u < |c.tasks| && c.tasks[u].state.Waitting? && u in c.waitq && u !in c.runq
    ensures Dispatch(c, u, m, true) == PushTasklet(Unparked(c, u, m), u)
    ensures var r := PushTasklet(Unparked(c, u, m), u);
            r.Ok? && r.value.tasks == c.tasks[u := Roused(c.tasks[u], c.tasks[u].wake, m)]
            && (r.value.signals == c.signals ==> c.runq != [])
  {
  }

  lemma WakeWaiter(s: State, pl: Placement, u: Tid, m: Message)
    requires TasksOk(s, pl) && ListsOk(s.core, pl) && Leaver(s) == None && Live(s, u)
    requires s.core.tasks[u].state.Waitting? && m != NoMsg
    ensures Dispatch(s.core, u, m, true).Ok? && Wakes(s, pl, Dispatch(s.core, u, m, true).value, pl[u := RunQ], u)
  {
    var k := s.core.tasks[u];
    assert TaskOk(k, s.ctx[u], pl[u], false);
    RousedOk(k, s.ctx[u], pl[u], k.wake, m);
    UnparkedLists(s.core, pl, u, m);
    DispatchWaiter(s.core, u, m);
  }

  /** The core once a timed receiver has its message and is no longer filed under a deadline. */
  function Unfiled(c: Core, u: Tid, m: Message): Core
    requires u < |c.tasks|
  {
    var c1 := Deposit(c, u, m);
    c1.(tasks := c1.tasks[u := c1.tasks[u].(wake := 0)], sleepers := Without(c1.sleepers, u))
  }

  lemma UnfiledLists(c: Core, pl: Placement, u: Tid, m: Message)
    requires ListsOk(c, pl) && |c.tasks| == |pl| && u < |pl| && pl[u] == Asleep
    ensures var r := PushTasklet(Unfiled(c, u, m), u);
            r.Ok? && ListsOk(r.value, pl[u := RunQ])
  {
    var c2 := Unfiled(c, u, m);
    CoreMove(c, pl, u, Asleep, Nowhere, c2);
    PushRunnableOk(c2, pl[u := Nowhere], u, Nowhere);
    assert pl[u := Nowhere][u := RunQ] == pl[u := RunQ];
  }

  lemma DispatchTimed(c: Core, u: Tid, m: Message)
    requires u < |c.tasks| && c.tasks[u].state.TimeoutWaitting? && u !in c.runq
    ensures Dispatch(c, u, m, true) == PushTasklet(Unfiled(c, u, m), u)
    ensures c.sleepers != [] && c.sleepers[0] == u ==>
              Dispatch(c.(sleepers := c.sleepers[1..]), u, m, false) == PushTasklet(Unfiled(c, u, m), u)
    ensures var r := PushTasklet(Unfiled(c, u, m), u);
            r.Ok? && r.value.tasks == c.tasks[u := Roused(c.tasks[u], 0, m)]
            && (r.value.signals == c.signals ==> c.runq != [])
  {
  }

  lemma WakeTimed(s: State, pl: Placement, u: Tid, m: Message)
    requires TasksOk(s, pl) && ListsOk(s.core, pl) && Leaver(s) == None && Live(s, u)
    requires s.core.tasks[u].state.TimeoutWaitting?
    ensures var r := PushTasklet(Unfiled(s.core, u, m), u);
            r.Ok? && Wakes(s, pl, r.value, pl[u := RunQ], u)
            && r == Dispatch(s.core, u, m, true)
            && (s.core.sleepers != [] && s.core.sleepers[0] == u ==>
                  r == Dispatch(s.core.(sleepers := s.core.sleepers[1..]), u, m, false))
  {
    var k := s.core.tasks[u];
    assert TaskOk(k, s.ctx[u], pl[u], false);
    RousedOk(k, s.ctx[u], pl[u], 0, m);
    UnfiledLists(s.core, pl, u, m);
    DispatchTimed(s.core, u, m);
  }

  lemma DepositOnly(s: State, pl: Placement, u: Tid, m: Message)
    requires TasksOk(s, pl) && ListsOk(s.core, pl) && Leaver(s) == None && Live(s, u)
    requires !Waits(s.core.tasks[u].state) && m != NoMsg
    ensures Dispatch(s.core, u, m, true).Ok? && Wakes(s, pl, Dispatch(s.core, u, m, true).value, pl, u)
  {
  }

  lemma DispatchWakes(s: State, pl: Placement, u: Tid, m: Message) returns (pl': Placement)
    requires TasksOk(s, pl) && ListsOk(s.core, pl) && Leaver(s) == None && Live(s, u) && m != NoMsg
    ensures Dispatch(s.core, u, m, true).Ok? && Wakes(s, pl, Dispatch(s.core, u, m, true).value, pl', u)
  {
    match s.core.tasks[u].state
    case Waitting => WakeWaiter(s, pl, u, m); pl' := pl[u := RunQ];
    case TimeoutWaitting => WakeTimed(s, pl, u, m); pl' := pl[u := RunQ];
    case _ => DepositOnly(s, pl, u, m); pl' := pl;
  }

  lemma SleeperWakes(s: State, pl: Placement, u: Tid)
    requires TasksOk(s, pl) && ListsOk(s.core, pl) && Leaver(s) == None
    requires s.core.sleepers != [] && s.core.sleepers[0] == u < |pl| && !s.core.tasks[u].state.TimeoutWaitting?
    ensures var r := PushTasklet(s.core.(sleepers := s.core.sleepers[1..]), u);
            r.Ok? && Wakes(s, pl, r.value, pl[u := RunQ], u)
  {
    assert u in s.core.sleepers;
    assert TaskOk(s.core.tasks[u], s.ctx[u], pl[u], false);
    var c1 := s.core.(sleepers := s.core.sleepers[1..]);
    assert c1.tasks == c1.tasks[u := c1.tasks[u]];
    CoreMove(s.core, pl, u, Asleep, Nowhere, c1);
    PushRunnableOk(c1, pl[u := Nowhere], u, Nowhere);
    assert pl[u := Nowhere][u := RunQ] == pl[u := RunQ];
  }

  lemma ExpireWakes(s: State, pl: Placement)
    requires TasksOk(s, pl) && ListsOk(s.core, pl) && Leaver(s) == None && s.core.sleepers != []
    ensures s.core.sleepers[0] < |pl| && ExpireFirst(s.core).Ok?
    ensures var u := s.core.sleepers[0]; Wakes(s, pl, ExpireFirst(s.core).value, pl[u := RunQ], u)
  {
    var u := s.core.sleepers[0];
    assert u in s.core.sleepers;
    if s.core.tasks[u].state.TimeoutWaitting? {
      assert TaskOk(s.core.tasks[u], s.ctx[u], pl[u], false);
      WakeTimed(s, pl, u, NoMsg);
    } else {
      SleeperWakes(s, pl, u);
    }
  }

  lemma StartWakes(s: State, pl: Placement, u: Tid)
    requires TasksOk(s, pl) && ListsOk(s.core, pl) && Leaver(s) == None && Live(s, u) && !s.core.tasks[u].started
    ensures PushTasklet(s.core, u).Ok? && u < |pl|
    ensures var c := PushTasklet(s.core, u).value;
            u < |c.tasks| && Wakes(s, pl, c.(tasks := c.tasks[u := c.tasks[u].(started := true)]), pl[u := RunQ], u)
  {
  }
}
