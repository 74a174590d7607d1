/** Runs that exist.  One threadlet starts, runs one tasklet to its end, is stopped and joined, and the
    service is destroyed; two tasklets exchange a message; two tasklets wait with timeouts. */
module Tour {
  import opened Base
  import opened Queues
  import opened Machine
  import opened Safety

  function Single(st: TState, thr: Option<nat>): Task {
    Task(st, thr, 0, [], true, [], [], [])
  }

  /** The states of the run have one tasklet and one threadlet. */
  function Snapshot(k: Task, queued: bool, x: Ctx, h: Thread, mutex: Option<Agent>): State {
    State(Core([k], if queued then [0] else [], [], [], 1), [x], [h], mutex, h.stop, 0, false, false, {}, false)
  }

  lemma OneStep(s: State, a: Action, s': State)
    requires Reachable(s) && Step(s, a) == Next(s')
    ensures Reachable(s')
  {
    StepReachable(s, a);
  }

  /** One tasklet constructed, not started; an outside thread holds the mutex. */
  function Built(): State {
    State(Core([FRESH_TASK], [], [], [], 0), [Ctx(Fresh, true, 0)], [Thread(NotStarted, false, false, None, None)],
          Some(Ext(0)), false, 0, false, false, {0}, false)
  }

  lemma Builds()
    ensures Reachable(Built())
  {
    var s0 := Init(1);
    assert Execute(s0, []) == Next(s0);
    assert s0.threads == [Thread(NotStarted, false, false, None, None)];
    var s1 := Built().(mutex := None, ext := {});
    OneStep(s0, Create, s1);
    OneStep(s1, ExtLock(0), Built());
  }

  lemma Boots()
    ensures Reachable(Snapshot(Single(Runnable, None), true, Ctx(Fresh, true, 0), Thread(Top, false, false, None, None), None))
  {
    Builds();
    var s3 := Built().(core := Core([Single(Runnable, None)], [0], [], [], 1));
    OneStep(Built(), ExtStart(0, 0, 0), s3);
    var s4 := s3.(mutex := None, ext := {});
    OneStep(s3, ExtUnlock(0), s4);
    OneStep(s4, StartThread(0), SetPc(s4, 0, Top));
  }

  lemma Pops()
    ensures Reachable(Snapshot(Single(Running, None), false, Ctx(Fresh, true, 0),
                               Thread(SwitchIn(0), true, false, None, Some(0)), Some(Thr(0))))
  {
    Boots();
    var k0, x0, h0 := Single(Runnable, None), Ctx(Fresh, true, 0), Thread(Top, false, false, None, None);
    var s0 := Snapshot(k0, true, x0, h0, None);
    var s1 := Snapshot(k0, true, x0, h0.(pc := Locking, locked := true), None);
    OneStep(s0, Run(0, 0), s1);
    var s2 := Snapshot(k0, true, x0, h0.(pc := Popping, locked := true), Some(Thr(0)));
    OneStep(s1, Run(0, 0), s2);
    var s3 := Snapshot(Single(Running, None), false, x0, Thread(SwitchIn(0), true, false, None, Some(0)), Some(Thr(0)));
    OneStep(s2, Run(0, 0), s3);
  }

  lemma Enters()
    ensures Reachable(Snapshot(Single(Running, Some(0)), false, Ctx(Executing, false, 0),
                               Thread(Exec(0, User), false, false, None, Some(0)), None))
  {
    Pops();
    var k, x, h := Single(Running, Some(0)), Ctx(Executing, false, 0), Thread(SwitchIn(0), true, false, None, Some(0));
    var s3 := Snapshot(Single(Running, None), false, Ctx(Fresh, true, 0), h, Some(Thr(0)));
    var s4 := Snapshot(k, false, Ctx(Fresh, false, 0), h.(pc := Exec(0, Resumed)), Some(Thr(0)));
    OneStep(s3, Run(0, 0), s4);
    var s5 := Snapshot(k, false, x, h.(pc := Exec(0, Enter(BeforeStart))), Some(Thr(0)));
    OneStep(s4, Run(0, 0), s5);
    var s6 := Snapshot(k, false, x, h.(pc := Exec(0, Release(false))), Some(Thr(0)));
    OneStep(s5, Run(0, 0), s6);
    var s7 := Snapshot(k, false, x, h.(pc := Exec(0, User), locked := false), None);
    OneStep(s6, Run(0, 0), s7);
  }

  lemma Finishes()
    ensures Reachable(Snapshot(Single(Finished, Some(0)), false, Ctx(Done, true, 0),
                               Thread(Top, false, false, Some(0), Some(0)), None))
  {
    Enters();
    var k0, x0 := Single(Running, Some(0)), Ctx(Executing, false, 0);
    var h0 := Thread(Exec(0, User), false, false, None, Some(0));
    var s0 := Snapshot(k0, false, x0, h0, None);
    var s1 := Snapshot(k0, false, x0, h0.(pc := Exec(0, Acquire(Finish)), locked := true), None);
    OneStep(s0, Call(0, Finish), s1);
    var s2 := Snapshot(k0, false, x0, h0.(pc := Exec(0, Enter(Finish)), locked := true), Some(Thr(0)));
    OneStep(s1, Run(0, 0), s2);
    var k3, h3 := Single(Finished, Some(0)), Thread(Exec(0, SwapBack), true, false, Some(0), Some(0));
    var s3 := Snapshot(k3, false, Ctx(Done, false, 0), h3, Some(Thr(0)));
    OneStep(s2, Run(0, 0), s3);
    var s4 := Snapshot(k3, false, Ctx(Done, true, 0), h3.(pc := Back), Some(Thr(0)));
    OneStep(s3, Run(0, 0), s4);
    var s5 := Snapshot(k3, false, Ctx(Done, true, 0), h3.(pc := Top, locked := false), None);
    OneStep(s4, Run(0, 0), s5);
  }

  lemma Stops()
    ensures Reachable(Snapshot(Single(Finished, Some(0)), false, Ctx(Done, true, 0),
                               Thread(Top, false, true, Some(0), Some(0)), None))
  {
    Finishes();
    var h := Thread(Top, false, false, Some(0), Some(0));
    var s0 := Snapshot(Single(Finished, Some(0)), false, Ctx(Done, true, 0), h, None);
    var s1 := s0.(mutex := Some(Ext(0)), ext := {0});
    OneStep(s0, ExtLock(0), s1);
    var s2 := s1.(stop := true, threads := [h.(stop := true)]);
    OneStep(s1, ExtStop(0), s2);
    OneStep(s2, ExtUnlock(0), s2.(mutex := None, ext := {}));
  }

  /** The tasklet of this run has been started, has run to its end, and is deleted once. */
  lemma WholeLife()
    ensures exists s :: Reachable(s) && s.destroyed && s.stop && |s.core.tasks| == |s.ctx| == 1
                        && s.core.tasks[0].state.Finished? && s.ctx[0].deleted == 1
  {
    Stops();
    var k, h := Single(Finished, Some(0)), Thread(Top, false, true, Some(0), Some(0));
    var s0 := Snapshot(k, false, Ctx(Done, true, 0), h, None);
    var s1 := Snapshot(k, false, Ctx(Done, true, 1), h.(slot := None, pc := Exited), None);
    OneStep(s0, Run(0, 0), s1);
    OneStep(s1, Destroy, s1.(destroyed := true));
  }

  // ----- a message between two tasklets

  /** States with two started tasklets and one threadlet. */
  function Pair(k0: Task, k1: Task, runq: seq<Tid>, waitq: seq<Tid>, signals: nat, x0: Ctx, x1: Ctx, h: Thread,
                mutex: Option<Agent>): State {
    State(Core([k0, k1], runq, waitq, [], signals), [x0, x1], [h], mutex, false, 0, false, false, {}, false)
  }

  const IDLE := Thread(NotStarted, false, false, None, None)

  /** Two tasklets constructed, not started; an outside thread holds the mutex. */
  function BuiltTwo(): State {
    State(Core([FRESH_TASK, FRESH_TASK], [], [], [], 0), [Ctx(Fresh, true, 0), Ctx(Fresh, true, 0)], [IDLE],
          Some(Ext(0)), false, 0, false, false, {0}, false)
  }

  lemma BuildsTwo()
    ensures Reachable(BuiltTwo())
  {
    var s0 := Init(1);
    assert Execute(s0, []) == Next(s0);
    assert s0.threads == [IDLE];
    var s1 := s0.(core := Core([FRESH_TASK], [], [], [], 0), ctx := [Ctx(Fresh, true, 0)]);
    OneStep(s0, Create, s1);
    var s2 := BuiltTwo().(mutex := None, ext := {});
    OneStep(s1, Create, s2);
    OneStep(s2, ExtLock(0), BuiltTwo());
  }

  /** Both are started and queued. */
  lemma StartsTwo()
    ensures Reachable(BuiltTwo().(core := Core([Single(Runnable, None), Single(Runnable, None)], [0, 1], [], [], 1)))
  {
    BuildsTwo();
    var k := Single(Runnable, None);
    var s1 := BuiltTwo().(core := Core([k, FRESH_TASK], [0], [], [], 1));
    OneStep(BuiltTwo(), ExtStart(0, 0, 0), s1);
    OneStep(s1, ExtStart(0, 1, 0), s1.(core := Core([k, k], [0, 1], [], [], 1)));
  }

  lemma BootsTwo()
    ensures Reachable(Pair(Single(Runnable, None), Single(Runnable, None), [0, 1], [], 1, Ctx(Fresh, true, 0), Ctx(Fresh, true, 0),
                           IDLE.(pc := Top), None))
  {
    StartsTwo();
    var s0 := BuiltTwo().(core := Core([Single(Runnable, None), Single(Runnable, None)], [0, 1], [], [], 1));
    var s1 := s0.(mutex := None, ext := {});
    OneStep(s0, ExtUnlock(0), s1);
    OneStep(s1, StartThread(0), s1.(threads := [IDLE.(pc := Top)]));
  }

  /** A threadlet on the stack of t. */
  function At(t: Tid, w: Where, locked: bool): Thread {
    Thread(Exec(t, w), locked, false, None, Some(t))
  }

  /** The mutex while the threadlet is in the critical section. */
  const MINE := Some(Thr(0))

  lemma PopsFirst()
    ensures Reachable(Pair(Single(Running, Some(0)), Single(Runnable, None), [1], [], 1, Ctx(Fresh, false, 0), Ctx(Fresh, true, 0),
                           At(0, Resumed, true), MINE))
  {
    BootsTwo();
    var k, x := Single(Runnable, None), Ctx(Fresh, true, 0);
    var s0 := Pair(k, k, [0, 1], [], 1, x, x, IDLE.(pc := Top), None);
    var s1 := s0.(threads := [Thread(Locking, true, false, None, None)]);
    OneStep(s0, Run(0, 0), s1);
    var s2 := s1.(threads := [Thread(Popping, true, false, None, None)], mutex := MINE);
    OneStep(s1, Run(0, 0), s2);
    var s3 := Pair(Single(Running, None), k, [1], [], 1, x, x, Thread(SwitchIn(0), true, false, None, Some(0)), MINE);
    OneStep(s2, Run(0, 0), s3);
    OneStep(s3, Run(0, 0), Pair(Single(Running, Some(0)), k, [1], [], 1, Ctx(Fresh, false, 0), x, At(0, Resumed, true), MINE));
  }

  lemma FirstRuns()
    ensures Reachable(Pair(Single(Running, Some(0)), Single(Runnable, None), [1], [], 1, Ctx(Executing, false, 0), Ctx(Fresh, true, 0),
                           At(0, User, false), None))
  {
    PopsFirst();
    var k0, k1, x1 := Single(Running, Some(0)), Single(Runnable, None), Ctx(Fresh, true, 0);
    var s0 := Pair(k0, k1, [1], [], 1, Ctx(Fresh, false, 0), x1, At(0, Resumed, true), MINE);
    var s1 := Pair(k0, k1, [1], [], 1, Ctx(Executing, false, 0), x1, At(0, Enter(BeforeStart), true), MINE);
    OneStep(s0, Run(0, 0), s1);
    var s2 := s1.(threads := [At(0, Release(false), true)]);
    OneStep(s1, Run(0, 0), s2);
    OneStep(s2, Run(0, 0), s2.(threads := [At(0, User, false)], mutex := None));
  }

  /** The first tasklet waits for a message, and the second is chosen. */
  lemma FirstParks()
    ensures Reachable(Pair(Single(Waitting, Some(0)), Single(Running, None), [], [0], 1, Ctx(InRecv, false, 0), Ctx(Fresh, true, 0),
                           At(0, SwapTo(1), true), MINE))
  {
    FirstRuns();
    var k0, k1, x0, x1 := Single(Running, Some(0)), Single(Runnable, None), Ctx(Executing, false, 0), Ctx(Fresh, true, 0);
    var s0 := Pair(k0, k1, [1], [], 1, x0, x1, At(0, User, false), None);
    var s1 := s0.(threads := [At(0, Acquire(Recv), true)]);
    OneStep(s0, Call(0, Recv), s1);
    var s2 := s1.(threads := [At(0, Enter(Recv), true)], mutex := MINE);
    OneStep(s1, Run(0, 0), s2);
    OneStep(s2, Run(0, 0), Pair(Single(Waitting, Some(0)), Single(Running, None), [], [0], 1, Ctx(InRecv, false, 0), x1,
                                At(0, SwapTo(1), true), MINE));
  }

  lemma FirstWaits()
    ensures Reachable(Pair(Single(Waitting, None), Single(Running, Some(0)), [], [0], 1, Ctx(InRecv, true, 0), Ctx(Fresh, false, 0),
                           At(1, Resumed, true), MINE))
  {
    FirstParks();
    var s0 := Pair(Single(Waitting, Some(0)), Single(Running, None), [], [0], 1, Ctx(InRecv, false, 0), Ctx(Fresh, true, 0),
                   At(0, SwapTo(1), true), MINE);
    OneStep(s0, Run(0, 0), Pair(Single(Waitting, None), Single(Running, Some(0)), [], [0], 1, Ctx(InRecv, true, 0), Ctx(Fresh, false, 0),
                                At(1, Resumed, true), MINE));
  }

  lemma SecondRuns()
    ensures Reachable(Pair(Single(Waitting, None), Single(Running, Some(0)), [], [0], 1, Ctx(InRecv, true, 0), Ctx(Executing, false, 0),
                           At(1, User, false), None))
  {
    FirstWaits();
    var k0, k1, x0 := Single(Waitting, None), Single(Running, Some(0)), Ctx(InRecv, true, 0);
    var s0 := Pair(k0, k1, [], [0], 1, x0, Ctx(Fresh, false, 0), At(1, Resumed, true), MINE);
    var s1 := Pair(k0, k1, [], [0], 1, x0, Ctx(Executing, false, 0), At(1, Enter(BeforeStart), true), MINE);
    OneStep(s0, Run(0, 0), s1);
    var s2 := s1.(threads := [At(1, Release(false), true)]);
    OneStep(s1, Run(0, 0), s2);
    OneStep(s2, Run(0, 0), s2.(threads := [At(1, User, false)], mutex := None));
  }

  /** The first tasklet with the message `m` in its mailbox, or fetched. */
  function Reader(st: TState, thr: Option<nat>, m: Message, fetched: bool): Task {
    if fetched then Task(st, thr, 0, [], true, [m], [m], [false]) else Task(st, thr, 0, [m], true, [m], [], [])
  }

  function PairCore(k0: Task, k1: Task, runq: seq<Tid>, waitq: seq<Tid>, signals: nat): Core {
    Core([k0, k1], runq, waitq, [], signals)
  }

  /** The message arrives and wakes its reader. */
  lemma Arrives(m: Message)
    ensures Dispatch(PairCore(Single(Waitting, None), Single(Running, Some(0)), [], [0], 1), 0, m, true) ==
            Ok(PairCore(Reader(Runnable, None, m, false), Single(Running, Some(0)), [0], [], 2))
  {
    var c, k1 := PairCore(Single(Waitting, None), Single(Running, Some(0)), [], [0], 1), Single(Running, Some(0));
    var c1 := Deposit(c, 0, m);
    assert c.tasks[0].mail + [m] == [m] && c.tasks[0].sent + [m] == [m];
    assert c1.tasks == [Reader(Waitting, None, m, false), k1];
    var c2 := Unpark(c1, 0).value;
    assert c2.tasks == [Reader(Runnable, None, m, false), k1];
    assert c2.waitq == [];
    var c3 := PushRunnable(c2, 0).value;
    assert c3.tasks == c2.tasks;
    assert c3.runq == [0];
  }

  /** The sender queues itself and chooses the reader. */
  lemma Chooses(m: Message)
    ensures YieldPick(PairCore(Reader(Runnable, None, m, false), Single(Running, Some(0)), [0], [], 2), 1) ==
            Ok((PairCore(Reader(Running, None, m, false), Single(Runnable, Some(0)), [1], [], 2), Some(0)))
  {
    var c := PairCore(Reader(Runnable, None, m, false), Single(Running, Some(0)), [0], [], 2);
    var c1 := PushRunnable(c, 1).value;
    assert c1.tasks == [Reader(Runnable, None, m, false), Single(Runnable, Some(0))];
    assert c1.runq == [0, 1];
    var c2 := PopRunnable(c1).value.0;
    assert c2.tasks == [Reader(Running, None, m, false), Single(Runnable, Some(0))];
    assert c2.runq == [1];
  }

  /** The reader fetches the message. */
  lemma Reads(m: Message)
    ensures Fetch(PairCore(Reader(Running, Some(0), m, false), Single(Runnable, None), [1], [], 2), 0, false) ==
            Ok(PairCore(Reader(Running, Some(0), m, true), Single(Runnable, None), [1], [], 2))
  {
    var c := PairCore(Reader(Running, Some(0), m, false), Single(Runnable, None), [1], [], 2);
    var k, c1 := c.tasks[0], Fetch(c, 0, false).value;
    assert k.mail[1..] == [] && k.got + [k.mail[0]] == [m] && k.viaTimedWait + [false] == [false];
    assert c1.tasks == [Reader(Running, Some(0), m, true), Single(Runnable, None)];
  }

  /** The state inside that `send`, before and after the message has arrived. */
  function Sending(k0: Task, runq: seq<Tid>, waitq: seq<Tid>, signals: nat, m: Message): State {
    Pair(k0, Single(Running, Some(0)), runq, waitq, signals, Ctx(InRecv, true, 0), Ctx(Executing, false, 0),
         At(1, Enter(Send(0, m)), true), MINE)
  }

  lemma SendYields(m: Message)
    ensures YieldOr(Sending(Reader(Runnable, None, m, false), [0], [], 2, m), 0, 1, InYield) ==
            Next(Pair(Reader(Running, None, m, false), Single(Runnable, Some(0)), [1], [], 2, Ctx(InRecv, true, 0),
                      Ctx(InYield, false, 0), At(1, SwapTo(0), true), MINE))
  {
    Chooses(m);
  }

  lemma SendArrives(m: Message)
    ensures AtSend(Sending(Single(Waitting, None), [], [0], 1, m), 0, 1, 0, m, 0) ==
            YieldOr(Sending(Reader(Runnable, None, m, false), [0], [], 2, m), 0, 1, InYield)
  {
    Arrives(m);
    var s, s1 := Sending(Single(Waitting, None), [], [0], 1, m), Sending(Reader(Runnable, None, m, false), [0], [], 2, m);
    assert Settle(s, s1.core, 0) == Next(s1);
  }

  /** The step inside that `send`: the mailbox, the signal and the yield. */
  lemma SendSwitches(m: Message)
    requires m != NoMsg
    ensures Step(Sending(Single(Waitting, None), [], [0], 1, m), Run(0, 0)) ==
            Next(Pair(Reader(Running, None, m, false), Single(Runnable, Some(0)), [1], [], 2, Ctx(InRecv, true, 0),
                      Ctx(InYield, false, 0), At(1, SwapTo(0), true), MINE))
  {
    SendArrives(m);
    SendYields(m);
  }

  /** The second sends a message, which wakes the first. */
  lemma SecondSends(m: Message)
    requires m != NoMsg
    ensures Reachable(Pair(Reader(Running, None, m, false), Single(Runnable, Some(0)), [1], [], 2, Ctx(InRecv, true, 0),
                           Ctx(InYield, false, 0), At(1, SwapTo(0), true), MINE))
  {
    SecondRuns();
    var k0, k1, x0, x1 := Single(Waitting, None), Single(Running, Some(0)), Ctx(InRecv, true, 0), Ctx(Executing, false, 0);
    var s0 := Pair(k0, k1, [], [0], 1, x0, x1, At(1, User, false), None);
    var s1 := s0.(threads := [At(1, Acquire(Send(0, m)), true)]);
    OneStep(s0, Call(0, Send(0, m)), s1);
    var s2 := s1.(threads := [At(1, Enter(Send(0, m)), true)], mutex := MINE);
    OneStep(s1, Run(0, 0), s2);
    var s3 := Pair(Reader(Running, None, m, false), Single(Runnable, Some(0)), [1], [], 2, x0, Ctx(InYield, false, 0),
                   At(1, SwapTo(0), true), MINE);
    SendSwitches(m);
    OneStep(s2, Run(0, 0), s3);
  }

  lemma FirstResumed(m: Message)
    requires m != NoMsg
    ensures Reachable(Pair(Reader(Running, Some(0), m, false), Single(Runnable, None), [1], [], 2, Ctx(InRecv, false, 0),
                           Ctx(InYield, true, 0), At(0, Resumed, true), MINE))
  {
    SecondSends(m);
    var s0 := Pair(Reader(Running, None, m, false), Single(Runnable, Some(0)), [1], [], 2, Ctx(InRecv, true, 0),
                   Ctx(InYield, false, 0), At(1, SwapTo(0), true), MINE);
    OneStep(s0, Run(0, 0), Pair(Reader(Running, Some(0), m, false), Single(Runnable, None), [1], [], 2, Ctx(InRecv, false, 0),
                                Ctx(InYield, true, 0), At(0, Resumed, true), MINE));
  }

  /** A run exists in which a tasklet waits, another is entered in its place and sends it a message,
      and the first, resumed, is back in user code with that message while the second is queued. */
  lemma MessageExchanged(m: Message)
    requires m != NoMsg
    ensures exists s :: Reachable(s) && s.mutex == None && s.core.runq == [1] && |s.core.tasks| == |s.threads| + 1 == 2
                        && s.threads[0].pc == Exec(0, User) && s.core.tasks[0].got == [m] && s.core.tasks[0].mail == []
  {
    FirstResumed(m);
    var k1, x1 := Single(Runnable, None), Ctx(InYield, true, 0);
    var s0 := Pair(Reader(Running, Some(0), m, false), k1, [1], [], 2, Ctx(InRecv, false, 0), x1, At(0, Resumed, true), MINE);
    var s1 := Pair(Reader(Running, Some(0), m, true), k1, [1], [], 2, Ctx(Executing, false, 0), x1, At(0, Release(false), true), MINE);
    Reads(m);
    assert SetState(s0.core, 0, Running) == s0.core;
    assert RecvLoop(s0, 0, 0, InRecv, true) == Next(s1);
    OneStep(s0, Run(0, 0), s1);
    OneStep(s1, Run(0, 0), s1.(threads := [At(0, User, false)], mutex := None));
  }

  // ----- two timed receivers

  /** A tasklet under a deadline. */
  function Timed(st: TState, thr: Option<nat>, wake: nat): Task {
    Task(st, thr, wake, [], true, [], [], [])
  }

  /** The states of this run. */
  function Naps(k0: Task, k1: Task, sleepers: seq<Tid>, x0: Ctx, x1: Ctx, h: Thread, mutex: Option<Agent>): State {
    State(Core([k0, k1], [], [], sleepers, 1), [x0, x1], [h], mutex, false, 0, false, false, {}, false)
  }

  /** The first waits for at most 5 ticks, and the second is chosen. */
  lemma FirstNaps()
    ensures Reachable(Naps(Timed(TimeoutWaitting, Some(0), 5), Single(Running, None), [0], Ctx(InRecvTimed(5), false, 0),
                           Ctx(Fresh, true, 0), At(0, SwapTo(1), true), MINE))
  {
    FirstRuns();
    var k0, k1, x0, x1 := Single(Running, Some(0)), Single(Runnable, None), Ctx(Executing, false, 0), Ctx(Fresh, true, 0);
    var s0 := Pair(k0, k1, [1], [], 1, x0, x1, At(0, User, false), None);
    var s1 := s0.(threads := [At(0, Acquire(RecvTimed(5)), true)]);
    OneStep(s0, Call(0, RecvTimed(5)), s1);
    var s2 := s1.(threads := [At(0, Enter(RecvTimed(5)), true)], mutex := MINE);
    OneStep(s1, Run(0, 0), s2);
    var s3 := Naps(Timed(TimeoutWaitting, Some(0), 5), Single(Running, None), [0], Ctx(InRecvTimed(5), false, 0), x1,
                   At(0, SwapTo(1), true), MINE);
    OneStep(s2, Run(0, 0), s3);
  }

  lemma SecondEnters()
    ensures Reachable(Naps(Timed(TimeoutWaitting, None, 5), Single(Running, Some(0)), [0], Ctx(InRecvTimed(5), true, 0),
                           Ctx(Executing, false, 0), At(1, User, false), None))
  {
    FirstNaps();
    var k0, k1, x0 := Timed(TimeoutWaitting, None, 5), Single(Running, Some(0)), Ctx(InRecvTimed(5), true, 0);
    var s0 := Naps(Timed(TimeoutWaitting, Some(0), 5), Single(Running, None), [0], Ctx(InRecvTimed(5), false, 0), Ctx(Fresh, true, 0),
                   At(0, SwapTo(1), true), MINE);
    var s1 := Naps(k0, k1, [0], x0, Ctx(Fresh, false, 0), At(1, Resumed, true), MINE);
    OneStep(s0, Run(0, 0), s1);
    var s2 := Naps(k0, k1, [0], x0, Ctx(Executing, false, 0), At(1, Enter(BeforeStart), true), MINE);
    OneStep(s1, Run(0, 0), s2);
    var s3 := s2.(threads := [At(1, Release(false), true)]);
    OneStep(s2, Run(0, 0), s3);
    OneStep(s3, Run(0, 0), s3.(threads := [At(1, User, false)], mutex := None));
  }

  lemma FilesSecond(c: Core, c': Core)
    requires c == Core([Timed(TimeoutWaitting, None, 5), Single(Running, Some(0))], [], [], [0], 1)
    requires c' == Core([Timed(TimeoutWaitting, None, 5), Timed(TimeoutWaitting, Some(0), 9)], [], [], [0, 1], 1)
    ensures SleepPick(c, 1, TimeoutWaitting, 9) == Ok((c', None))
  {
    var c1 := AddSleeper(c, 1, TimeoutWaitting, 9);
    assert c1.tasks == c'.tasks;
    assert c.sleepers[1..] == [] && InsertByWake(c1.tasks, [], 1) == [1] + [];
    assert c1.sleepers == [0] + ([1] + []) == [0, 1];
    assert c1 == c';
  }

  /** The second waits for at most 9 ticks. */
  lemma SecondNaps()
    ensures Reachable(Naps(Timed(TimeoutWaitting, None, 5), Timed(TimeoutWaitting, Some(0), 9), [0, 1], Ctx(InRecvTimed(5), true, 0),
                           Ctx(InRecvTimed(9), false, 0), At(1, SwapBack, true), MINE))
  {
    SecondEnters();
    var k0, k1, x0 := Timed(TimeoutWaitting, None, 5), Single(Running, Some(0)), Ctx(InRecvTimed(5), true, 0);
    var s0 := Naps(k0, k1, [0], x0, Ctx(Executing, false, 0), At(1, User, false), None);
    var s1 := s0.(threads := [At(1, Acquire(RecvTimed(9)), true)]);
    OneStep(s0, Call(0, RecvTimed(9)), s1);
    var s2 := s1.(threads := [At(1, Enter(RecvTimed(9)), true)], mutex := MINE);
    OneStep(s1, Run(0, 0), s2);
    var s3 := Naps(k0, Timed(TimeoutWaitting, Some(0), 9), [0, 1], x0, Ctx(InRecvTimed(9), false, 0), At(1, SwapBack, true), MINE);
    FilesSecond(s2.core, s3.core);
    OneStep(s2, Run(0, 0), s3);
  }

  /** Both asleep, the threadlet back on its own stack, and the port service in the critical section. */
  function BothNap(): State {
    Naps(Timed(TimeoutWaitting, None, 5), Timed(TimeoutWaitting, None, 9), [0, 1], Ctx(InRecvTimed(5), true, 0),
         Ctx(InRecvTimed(9), true, 0), Thread(Top, false, false, None, Some(1)), Some(PortAgent)).(portIn := true)
  }

  lemma BothNapReachable()
    ensures Reachable(BothNap())
  {
    SecondNaps();
    var k0, k1, x0 := Timed(TimeoutWaitting, None, 5), Timed(TimeoutWaitting, None, 9), Ctx(InRecvTimed(5), true, 0);
    var s0 := Naps(k0, Timed(TimeoutWaitting, Some(0), 9), [0, 1], x0, Ctx(InRecvTimed(9), false, 0), At(1, SwapBack, true), MINE);
    var s1 := Naps(k0, k1, [0, 1], x0, Ctx(InRecvTimed(9), true, 0), Thread(Back, true, false, None, Some(1)), MINE);
    OneStep(s0, Run(0, 0), s1);
    var s2 := BothNap().(portIn := false, mutex := None);
    OneStep(s1, Run(0, 0), s2);
    OneStep(s2, PortLock, BothNap());
  }
}
