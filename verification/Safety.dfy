/** What the invariant means for every reachable state: the promises of the runtime, stated
    without reference to placements. */
module Safety {
  import opened Base
  import opened Queues
  import opened Machine
  import opened Invariant
  import opened Steps

  ghost predicate Reachable(s: State) {
    exists pool: nat, actions :: Execute(Init(pool), actions) == Next(s)
  }

  lemma ReachableInv(s: State)
    requires Reachable(s)
    ensures Inv(s)
  {
    var pool: nat, actions :| Execute(Init(pool), actions) == Next(s);
    InitInv(pool);
    RunsKeepInv(Init(pool), actions);
  }

  lemma ReachablePlacement(s: State) returns (pl: Placement)
    requires Reachable(s) && !s.destroyed
    ensures InvAt(s, pl)
  {
    ReachableInv(s);
    pl :| InvAt(s, pl);
  }

  /** From start to end, with any interleaving, spurious wake-ups and any choice of the thread a
      signal reaches: no assert of the scheduler fails, no list is corrupted, the throw of
      active_tasklet is unreachable, no empty mailbox is read, no NULL threadlet is followed,
      the mutex is released only by its holder, and no context is entered before it is saved. */
  lemma NothingFaults(pool: nat, actions: seq<Action>)
    ensures !Execute(Init(pool), actions).Faulty?
  {
    InitInv(pool);
    RunsKeepInv(Init(pool), actions);
  }

  // ----- the mutex

  predicate InSection(s: State, a: Agent) {
    match a
    case Thr(i) => i < |s.threads| && Inside(s.threads[i].pc)
    case TimerAgent => s.timerIn
    case PortAgent => s.portIn
    case Ext(k) => k in s.ext
  }

  lemma MutualExclusion(s: State, a: Agent, b: Agent)
    requires Reachable(s) && !s.destroyed && InSection(s, a) && InSection(s, b)
    ensures a == b && s.mutex == Some(a)
  {
    var pl := ReachablePlacement(s);
    if a.Thr? { assert ThreadOk(s, pl, a.i); }
    if b.Thr? { assert ThreadOk(s, pl, b.i); }
  }

  /** Lock hand-off: wherever t entered its critical section, it is left through the threadlet
      t runs on now, whose thread holds the mutex; user code runs with neither flag nor mutex. */
  lemma LockHandOff(s: State, i: nat, w: nat)
    requires Reachable(s) && !s.destroyed && i < |s.threads| && s.threads[i].pc.Exec?
    ensures var h := s.threads[i];
      && h.pc.t < |s.core.tasks|
      && (h.pc.w.User? || h.pc.w.Thrown? ==> !h.locked && s.mutex != Some(Thr(i)))
      && (h.pc.w.Release? ==>
            && s.core.tasks[h.pc.t].thr == Some(i) && s.mutex == Some(Thr(i))
            && var r := Step(s, Run(i, w));
               r.Next? && r.s.mutex == None && !r.s.threads[i].locked && !Inside(r.s.threads[i].pc))
  {
    var pl := ReachablePlacement(s);
    assert ThreadOk(s, pl, i);
  }

  // ----- who runs what

  /** No tasklet runs on two threads, and none is entered while its context is incomplete or
      while a thread is still on its stack. */
  lemma NoDoubleRun(s: State, i: nat, j: nat, t: Tid)
    requires Reachable(s) && !s.destroyed && i < |s.threads| && j < |s.threads|
    requires s.threads[j].pc.Exec? && s.threads[j].pc.t == t
    ensures s.threads[i].pc.Exec? && s.threads[i].pc.t == t ==> i == j
    ensures s.threads[i].pc != SwitchIn(t)
    ensures s.threads[i].pc.Exec? ==> s.threads[i].pc.w != SwapTo(t)
    ensures t < |s.ctx| && !s.ctx[t].saved
  {
    var pl := ReachablePlacement(s);
    assert ThreadOk(s, pl, i);
    assert ThreadOk(s, pl, j);
  }

  function CountHeld(ths: seq<Thread>, t: Tid): nat {
    if ths == [] then 0 else (if Held(ths[0].pc) == Some(t) then 1 else 0) + CountHeld(ths[1..], t)
  }

  function CountSlots(ths: seq<Thread>, t: Tid): nat {
    if ths == [] then 0 else (if ths[0].slot == Some(t) then 1 else 0) + CountSlots(ths[1..], t)
  }

  /** In how many places t is: the three lists, the threadlets and their finished slots. */
  function Owners(s: State, t: Tid): nat {
    Occurrences(s.core.runq + s.core.waitq + s.core.sleepers, t) + CountHeld(s.threads, t) + CountSlots(s.threads, t)
  }

  lemma {:induction false} CountHeldIs(ths: seq<Thread>, t: Tid, i: int)
    requires forall j :: 0 <= j < |ths| ==> (Held(ths[j].pc) == Some(t) <==> j == i)
    ensures CountHeld(ths, t) == (if 0 <= i < |ths| then 1 else 0)
  {
    if ths == [] {
    } else {
      assert forall j :: 0 <= j < |ths[1..]| ==> ths[1..][j] == ths[j + 1];
      CountHeldIs(ths[1..], t, i - 1);
    }
  }

  lemma {:induction false} CountSlotsIs(ths: seq<Thread>, t: Tid, i: int)
    requires forall j :: 0 <= j < |ths| ==> (ths[j].slot == Some(t) <==> j == i)
    ensures CountSlots(ths, t) == (if 0 <= i < |ths| then 1 else 0)
  {
    if ths == [] {
    } else {
      assert forall j :: 0 <= j < |ths[1..]| ==> ths[1..][j] == ths[j + 1];
      CountSlotsIs(ths[1..], t, i - 1);
    }
  }

  lemma CountThreads(s: State, pl: Placement, t: Tid)
    requires ThreadsOk(s, pl) && OwnedOk(s.threads, pl) && t < |pl|
    ensures CountHeld(s.threads, t) == (if pl[t].On? then 1 else 0)
    ensures CountSlots(s.threads, t) == (if pl[t].Slot? then 1 else 0)
  {
    var i, k := if pl[t].On? then pl[t].i else -1, if pl[t].Slot? then pl[t].i else -1;
    forall j | 0 <= j < |s.threads|
      ensures Held(s.threads[j].pc) == Some(t) <==> j == i
      ensures s.threads[j].slot == Some(t) <==> j == k
    {
      assert ThreadOk(s, pl, j);
    }
    CountHeldIs(s.threads, t, i);
    CountSlotsIs(s.threads, t, k);
  }

  /** Single ownership, in every state: a started tasklet that has not been deleted is in exactly
      one place, any other tasklet in none. */
  lemma SingleOwnership(s: State, t: Tid)
    requires Reachable(s) && !s.destroyed && t < |s.core.tasks|
    ensures t < |s.ctx| && s.ctx[t].deleted <= 1
    ensures Owners(s, t) == (if s.core.tasks[t].started && s.ctx[t].deleted == 0 then 1 else 0)
  {
    var pl := ReachablePlacement(s);
    assert TaskOk(s.core.tasks[t], s.ctx[t], pl[t], Leaver(s) == Some(t));
    CountThreads(s, pl, t);
    CountInLists(s.core, pl, t);
  }

  /** Outside the critical section the scheduling fields agree with the place. */
  lemma FieldsAgree(s: State, t: Tid)
    requires Reachable(s) && !s.destroyed && s.mutex == None && t < |s.core.tasks|
    ensures t < |s.ctx| && var k := s.core.tasks[t];
      && (t in s.core.runq ==> k.state.Runnable? && k.thr == None && s.ctx[t].saved)
      && (t in s.core.waitq ==> k.state.Waitting? && k.thr == None && s.ctx[t].saved)
      && (t in s.core.sleepers ==> (k.state.Sleeping? || k.state.TimeoutWaitting?) && k.thr == None && s.ctx[t].saved)
      && (forall i :: 0 <= i < |s.threads| && s.threads[i].pc.Exec? && s.threads[i].pc.t == t ==>
            k.state.Running? && k.thr == Some(i) && s.threads[i].cur == Some(t))
  {
    var pl := ReachablePlacement(s);
    assert TaskOk(s.core.tasks[t], s.ctx[t], pl[t], false);
    forall i | 0 <= i < |s.threads| && s.threads[i].pc.Exec? && s.threads[i].pc.t == t
      ensures s.core.tasks[t].state.Running? && s.core.tasks[t].thr == Some(i) && s.threads[i].cur == Some(t)
    {
      assert ThreadOk(s, pl, i);
    }
  }

  // ----- mailboxes

  /** No stale timeout: a timeout message is alone of its kind and in front, its owner is not
      waiting and has not run since; and no `recv` but one that waited with a timeout yields it. */
  lemma NoStaleTimeout(s: State, t: Tid)
    requires Reachable(s) && !s.destroyed && t < |s.core.tasks|
    ensures t < |s.ctx| && var k := s.core.tasks[t];
      && (forall j :: 0 <= j < |k.mail| && k.mail[j] == NoMsg ==>
            j == 0 && s.ctx[t].cont.InRecvTimed? && (k.state.Runnable? || k.state.Running?))
      && (forall j :: 0 <= j < |k.got| && k.got[j] == NoMsg ==> j < |k.viaTimedWait| && k.viaTimedWait[j])
  {
    var pl := ReachablePlacement(s);
    assert TaskOk(s.core.tasks[t], s.ctx[t], pl[t], Leaver(s) == Some(t));
  }

  /** The history fields of a tasklet agree with its mailbox; Channels.dfy says what was sent. */
  lemma MailboxHistory(s: State, t: Tid)
    requires Reachable(s) && !s.destroyed && t < |s.core.tasks|
    ensures s.core.tasks[t].got + s.core.tasks[t].mail == s.core.tasks[t].sent
  {
    var pl := ReachablePlacement(s);
    assert TaskOk(s.core.tasks[t], s.ctx[t], pl[t], Leaver(s) == Some(t));
  }

  /** No missed message: a waiting tasklet has an empty mailbox, and one that is entered inside
      a `recv` finds a message. */
  lemma NoMissedMessage(s: State, t: Tid)
    requires Reachable(s) && !s.destroyed && t < |s.core.tasks|
    ensures Live(s, t) && Waits(s.core.tasks[t].state) ==> s.core.tasks[t].mail == []
    ensures forall i :: 0 <= i < |s.threads| && s.threads[i].pc == Exec(t, Resumed) ==>
              t < |s.ctx| && (InsideRecv(s.ctx[t].cont) ==> s.core.tasks[t].mail != [])
  {
    var pl := ReachablePlacement(s);
    assert TaskOk(s.core.tasks[t], s.ctx[t], pl[t], Leaver(s) == Some(t));
    forall i | 0 <= i < |s.threads| && s.threads[i].pc == Exec(t, Resumed)
      ensures Resumable(s.core.tasks[t], s.ctx[t])
    {
      assert ThreadOk(s, pl, i);
    }
  }

  // ----- wake-ups

  /** No lost work wake-up: with runnable tasklets, no stop, and some threadlet started, some
      started threadlet is not blocked; after a stop none is. */
  lemma NoLostWakeup(s: State)
    requires Reachable(s) && !s.destroyed
    ensures !s.stop && s.core.runq != [] && (exists i :: 0 <= i < |s.threads| && Started(s.threads[i])) ==>
              exists i :: 0 <= i < |s.threads| && Awake(s.threads[i])
    ensures s.stop ==> forall i :: 0 <= i < |s.threads| ==> !IsBlocked(s.threads[i])
  {
    var pl := ReachablePlacement(s);
    forall i | 0 <= i < |s.threads| ensures s.stop ==> !IsBlocked(s.threads[i]) {
      assert ThreadOk(s, pl, i);
    }
  }

  // ----- deletion

  /** The finished slot is empty whenever a tasklet's code runs, so nothing is overwritten in it;
      and a stop_exception finds its tasklet in no list. */
  lemma SlotFreeWhileRunning(s: State, i: nat)
    requires Reachable(s) && !s.destroyed && i < |s.threads| && s.threads[i].pc.Exec?
    ensures !s.threads[i].pc.w.SwapBack? ==> s.threads[i].slot == None
    ensures s.threads[i].pc.w.Thrown? ==>
              var t := s.threads[i].pc.t;
              t !in s.core.runq && t !in s.core.waitq && t !in s.core.sleepers && s.stop
  {
    var pl := ReachablePlacement(s);
    assert ThreadOk(s, pl, i);
  }

  /** Exactly-once deletion: after `stop`, `join` and the destructor every tasklet that was ever
      started has been deleted once, and no other. */
  lemma ExactlyOnceDeletion(s: State, t: Tid)
    requires Reachable(s) && s.destroyed && t < |s.core.tasks|
    ensures t < |s.ctx| && s.ctx[t].deleted == (if s.core.tasks[t].started then 1 else 0)
  {
    ReachableInv(s);
  }

  // ----- stop

  predicate Entering(pc: Pc) {
    pc.SwitchIn? || (pc.Exec? && (pc.w.SwapTo? || pc.w.Resumed? || pc.w == Enter(BeforeStart)))
  }

  /** After stop no thread is on its way into a tasklet; in particular the stop check ahead of a
      tasklet's body never throws. */
  lemma AfterStopNothingEnters(s: State, i: nat)
    requires Reachable(s) && !s.destroyed && s.stop && i < |s.threads|
    ensures !Entering(s.threads[i].pc)
  {
    var pl := ReachablePlacement(s);
    assert ThreadOk(s, pl, i);
  }

  lemma {:induction false} ExecuteAppend(s: State, xs: seq<Action>, a: Action)
    requires Execute(s, xs).Next?
    ensures Execute(s, xs + [a]) == Step(Execute(s, xs).s, a)
    decreases xs
  {
    if xs == [] {
      assert (xs + [a])[1..] == [];
    } else {
      assert (xs + [a])[1..] == xs[1..] + [a];
      ExecuteAppend(Step(s, xs[0]).s, xs[1..], a);
    }
  }

  lemma StepReachable(s: State, a: Action)
    requires Reachable(s)
    ensures !Step(s, a).Faulty?
    ensures Step(s, a).Next? ==> Reachable(Step(s, a).s)
  {
    var pool: nat, actions :| Execute(Init(pool), actions) == Next(s);
    ExecuteAppend(Init(pool), actions, a);
    NothingFaults(pool, actions + [a]);
  }
}
