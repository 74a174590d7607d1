/** The inductive invariant of the machine.  A placement says, for every tasklet, the one place
    that owns it; the invariant of a state is that some placement fits it. */
module Invariant {
  import opened Base
  import opened Queues
  import opened Machine

  datatype Place = Nowhere | RunQ | WaitQ | Asleep | On(i: nat) | Slot(i: nat) | Deleted

  type Placement = seq<Place>

  /** The tasklet a threadlet is responsible for: the one it runs, or the one it has popped
      and is about to run. */
  function Held(pc: Pc): Option<Tid> {
    match pc
    case SwitchIn(t) => Some(t)
    case Exec(t, at) => (match at
                         case SwapTo(n) => Some(n)
                         case SwapBack => None
                         case _ => Some(t))
    case _ => None
  }

  /** The tasklet that a threadlet is switching away from. */
  function Leaving(pc: Pc): Option<Tid> {
    match pc
    case Exec(t, at) => if at.SwapTo? || at.SwapBack? then Some(t) else None
    case _ => None
  }

  /** Program points inside the critical section. */
  predicate Inside(pc: Pc) {
    match pc
    case Popping => true
    case SwitchIn(_) => true
    case Back => true
    case Unwind => true
    case Exec(_, at) => at.Enter? || at.SwapTo? || at.SwapBack? || at.Resumed? || at.Release?
    case _ => false
  }

  /** Program points at which the threadlet's `_locked` flag is set: inside the critical section,
      on the way into it, and in the condition wait. */
  predicate Flagged(pc: Pc) {
    Inside(pc) || pc.Locking? || pc.Blocked? || pc.Woken? || (pc.Exec? && pc.w.Acquire?)
  }

  /** Program points at which the finished slot may be occupied. */
  predicate SlotPc(pc: Pc) {
    pc.Top? || pc.Back? || (pc.Exec? && pc.w.SwapBack?)
  }

  /** The thread that is switching, as far as the mutex tells. */
  function Leaver(s: State): Option<Tid> {
    if s.mutex.Some? && s.mutex.value.Thr? && s.mutex.value.i < |s.threads|
    then Leaving(s.threads[s.mutex.value.i].pc) else None
  }

  // ----- tasklets

  predicate Resumable(k: Task, x: Ctx) {
    && !x.cont.Executing? && !x.cont.Done?
    && (x.cont.InRecv? || x.cont.InRecvTimed? || x.cont.InRecvYield? ==> k.mail != [])
  }

  /** A timeout message is the first of a mailbox or absent, and present only while its owner,
      woken from a timed `recv`, has not run since. */
  ghost predicate TimeoutOk(k: Task, x: Ctx, p: Place) {
    && (forall j :: 1 <= j < |k.mail| ==> k.mail[j] != NoMsg)
    && (k.mail != [] && k.mail[0] == NoMsg ==> x.cont.InRecvTimed? && (p.RunQ? || p.On?))
  }

  /** Channel conservation, and which fetches may yield a timeout message. */
  ghost predicate HistoryOk(k: Task) {
    && k.got + k.mail == k.sent
    && |k.viaTimedWait| == |k.got|
    && forall j :: 0 <= j < |k.got| && k.got[j] == NoMsg ==> k.viaTimedWait[j]
  }

  predicate PlaceOk(k: Task, x: Ctx, p: Place, leaving: bool) {
    match p
    case Nowhere => !k.started && k.state.NoStart? && x.cont.Fresh? && x.saved && k.thr == None && x.deleted == 0
    case RunQ => k.started && k.state.Runnable? && Resumable(k, x) && x.deleted == 0 && Stored(k, x, leaving)
    case WaitQ => k.started && k.state.Waitting? && x.cont.InRecv? && k.mail == [] && x.deleted == 0 &&
                  Stored(k, x, leaving)
    case Asleep => k.started && x.deleted == 0 && Stored(k, x, leaving) &&
                   ((k.state.TimeoutWaitting? && x.cont == InRecvTimed(k.wake) && k.mail == []) ||
                    (k.state.Sleeping? && x.cont.InSleep?))
    case On(_) => k.started && k.state.Running? && x.deleted == 0
    case Slot(_) => k.started && (k.state.Finished? || k.state.Running?) && x.deleted == 0
    case Deleted => k.started && !Waits(k.state) && x.deleted == 1
  }

  /** A queued tasklet has a stored context and no threadlet, unless it is just leaving one. */
  predicate Stored(k: Task, x: Ctx, leaving: bool) {
    if leaving then !x.saved else x.saved && k.thr == None
  }

  ghost predicate TaskOk(k: Task, x: Ctx, p: Place, leaving: bool) {
    PlaceOk(k, x, p, leaving) && TimeoutOk(k, x, p) && HistoryOk(k)
  }

  ghost predicate TasksOk(s: State, pl: Placement) {
    && |s.core.tasks| == |s.ctx| == |pl|
    && forall t :: 0 <= t < |pl| ==> TaskOk(s.core.tasks[t], s.ctx[t], pl[t], Leaver(s) == Some(t))
  }

  // ----- the lists

  ghost predicate ListOk(xs: seq<Tid>, pl: Placement, p: Place) {
    && Distinct(xs)
    && (forall t :: t in xs ==> t < |pl| && pl[t] == p)
    && (forall t :: 0 <= t < |pl| && pl[t] == p ==> t in xs)
  }

  ghost predicate ListsOk(c: Core, pl: Placement) {
    && ListOk(c.runq, pl, RunQ)
    && ListOk(c.waitq, pl, WaitQ)
    && ListOk(c.sleepers, pl, Asleep)
    && SortedByWake(c.tasks, c.sleepers)
  }

  // ----- threadlets

  /** What a threadlet knows of the tasklets its program point names. */
  predicate PcOk(s: State, i: nat, h: Thread) {
    match h.pc
    case NotStarted => true
    case Blocked => !s.stop
    case Unwind => s.stop
    case Exited => s.stop
    case SwitchIn(t) =>
      && !s.stop && h.cur == Some(t) && t < |s.core.tasks| == |s.ctx|
      && s.ctx[t].saved && s.core.tasks[t].thr == None && Resumable(s.core.tasks[t], s.ctx[t])
    case Exec(t, at) =>
      && t < |s.core.tasks| == |s.ctx|
      && s.core.tasks[t].thr == Some(i) && !s.ctx[t].saved
      && (!at.SwapTo? && !at.SwapBack? ==> h.cur == Some(t))
      && (!at.SwapTo? && !at.Resumed? && !at.SwapBack? ==> s.ctx[t].cont.Executing?)
      && (match at
          case Resumed => !s.stop && Resumable(s.core.tasks[t], s.ctx[t])
          case Enter(op) => (op.BeforeStart? ==> !s.stop) && (op.Send? ==> op.msg != NoMsg)
          case Acquire(op) => Allowed(op)
          case SwapTo(n) =>
            && !s.stop && n != t && n < |s.core.tasks|
            && s.ctx[n].saved && s.core.tasks[n].thr == None && Resumable(s.core.tasks[n], s.ctx[n])
          case Release(thrown) => thrown ==> s.stop
          case Thrown => s.stop
          case _ => true)
    case _ => true
  }

  ghost predicate OwnsOk(pl: Placement, i: nat, h: Thread) {
    && (Held(h.pc).Some? ==> Held(h.pc).value < |pl| && pl[Held(h.pc).value] == On(i))
    && (h.slot.Some? ==> SlotPc(h.pc) && h.slot.value < |pl| && pl[h.slot.value] == Slot(i))
  }

  /** A tasklet that is leaving sits in a queue or in the finished slot. */
  ghost predicate LeavesOk(pl: Placement, i: nat, h: Thread) {
    match Leaving(h.pc)
    case Some(t) => t < |pl| && (if h.slot == Some(t) then h.pc.w.SwapBack?
                                 else pl[t].RunQ? || pl[t].WaitQ? || pl[t].Asleep?)
    case None => true
  }

  ghost predicate ThreadOk(s: State, pl: Placement, i: nat)
    requires i < |s.threads|
  {
    var h := s.threads[i];
    && h.locked == Flagged(h.pc)
    && h.stop == s.stop
    && (Inside(h.pc) <==> s.mutex == Some(Thr(i)))
    && PcOk(s, i, h)
    && OwnsOk(pl, i, h)
    && LeavesOk(pl, i, h)
  }

  ghost predicate ThreadsOk(s: State, pl: Placement) {
    forall i :: 0 <= i < |s.threads| ==> ThreadOk(s, pl, i)
  }

  /** Every placement on a threadlet or in its slot is matched by that threadlet. */
  ghost predicate OwnedOk(threads: seq<Thread>, pl: Placement) {
    && (forall t :: 0 <= t < |pl| && pl[t].On? ==> pl[t].i < |threads| && Held(threads[pl[t].i].pc) == Some(t))
    && (forall t :: 0 <= t < |pl| && pl[t].Slot? ==> pl[t].i < |threads| && threads[pl[t].i].slot == Some(t))
  }

  // ----- the mutex, the other agents, and wake-ups

  ghost predicate AgentsOk(s: State) {
    && !s.destroyed
    && (s.timerIn <==> s.mutex == Some(TimerAgent))
    && (s.portIn <==> s.mutex == Some(PortAgent))
    && (forall k :: k in s.ext <==> s.mutex == Some(Ext(k)))
    && (s.mutex.Some? && s.mutex.value.Thr? ==> s.mutex.value.i < |s.threads|)
  }

  predicate Started(h: Thread) {
    !h.pc.NotStarted?
  }

  /** At work, or on the way to it: started and not asleep in the condition wait. */
  predicate Awake(h: Thread) {
    Started(h) && !IsBlocked(h)
  }

  /** Work is never left to threads that are all blocked. */
  ghost predicate WakeupOk(s: State) {
    !s.stop && s.core.runq != [] && (exists i :: 0 <= i < |s.threads| && Started(s.threads[i])) ==>
      exists i :: 0 <= i < |s.threads| && Awake(s.threads[i])
  }

  ghost predicate InvAt(s: State, pl: Placement) {
    && TasksOk(s, pl)
    && ListsOk(s.core, pl)
    && ThreadsOk(s, pl)
    && OwnedOk(s.threads, pl)
    && AgentsOk(s)
    && WakeupOk(s)
  }

  /** After the destructor every started tasklet has been deleted once and no other at all. */
  ghost predicate AllGone(s: State) {
    && |s.ctx| == |s.core.tasks|
    && forall t :: 0 <= t < |s.ctx| ==> s.ctx[t].deleted == (if s.core.tasks[t].started then 1 else 0)
  }

  ghost predicate Inv(s: State) {
    if s.destroyed then AllGone(s) else exists pl :: InvAt(s, pl)
  }
}
