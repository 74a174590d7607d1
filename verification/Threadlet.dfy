/** The fields of a threadlet and the mutex it shares, updated in place.  Each method is proved
    against what the machine does with the corresponding part of its state: `Mirrors(s)` says that
    the objects hold what state s holds. */
module Threadlets {
  import opened Base
  import opened Queues
  import opened Machine
  import opened TaskletService

  class Mutex {
    var holder: Option<Agent>

    constructor ()
      ensures holder == None
    {
      holder := None;
    }

    /** pthread_mutex_lock: takes the mutex, or, if `acquired` is false, does not return yet. */
    method Lock(a: Agent) returns (acquired: bool)
      modifies this
      ensures acquired <==> old(holder) == None
      ensures holder == if acquired then Some(a) else old(holder)
    {
      acquired := holder == None;
      if acquired {
        holder := Some(a);
      }
    }

    /** pthread_mutex_unlock by agent a; the error of a caller that is not the holder is thrown. */
    method Unlock(a: Agent) returns (r: Outcome<()>)
      modifies this
      ensures if old(holder) == Some(a) then r.Ok? && holder == None
              else r == Bad(ForeignUnlock) && holder == old(holder)
    {
      if holder != Some(a) {
        return Bad(ForeignUnlock);
      }
      holder := None;
      return Ok(());
    }
  }

  class Threadlet {
    const index: nat
    const mutex: Mutex
    var locked: bool
    var stop: bool
    var slot: Option<Tid>             // _plast_finished_tasklet
    var current: Option<Tid>          // _pcurrent_tasklet

    ghost predicate Mirrors(s: State)
      reads this, mutex
    {
      && index < |s.threads| && s.mutex == mutex.holder
      && var h := s.threads[index];
         h.locked == locked && h.stop == stop && h.slot == slot && h.cur == current
    }

    constructor (index: nat, mutex: Mutex)
      ensures this.index == index && this.mutex == mutex
      ensures !locked && !stop && slot == None && current == None
    {
      this.index, this.mutex := index, mutex;
      locked, stop, slot, current := false, false, None, None;
    }

    /** The flag goes up before the mutex is asked for; with the flag up nothing happens.  While
        another agent holds the mutex the call does not return (`acquired` is false), and the flag
        is up already. */
    method Lock(ghost s: State) returns (acquired: bool, ghost s': State)
      requires Mirrors(s)
      modifies `locked, mutex
      ensures Mirrors(s') && locked
      ensures if old(locked) then acquired && s' == s
              else var flagged := s.(threads := s.threads[index := s.threads[index].(locked := true)]);
                   acquired == (s.mutex == None) &&
                   (if acquired then LockMutex(flagged, Thr(index)) == Some(s') else s' == flagged)
    {
      s', acquired := s, true;
      if !locked {
        locked := true;
        acquired := mutex.Lock(Thr(index));
        s' := s.(threads := s.threads[index := s.threads[index].(locked := true)], mutex := mutex.holder);
      }
    }

    method Unlock(ghost s: State) returns (r: Outcome<()>)
      requires Mirrors(s)
      modifies `locked, mutex
      ensures match UnlockThreadlet(s, index, index)
              case Ok(s') => r.Ok? && Mirrors(s') && !locked
              case Bad(f) => r == Bad(f) && Mirrors(s)
    {
      if locked {
        r := mutex.Unlock(Thr(index));
        if r.Bad? {
          return;
        }
        locked := false;
      }
      r := Ok(());
    }

    /** The delete at the head of the loop; `deleted` is the tasklet that is freed, once more than
        before. */
    method Reap(ghost s: State) returns (deleted: Option<Tid>)
      requires Mirrors(s)
      modifies `slot
      ensures Mirrors(Machine.Reap(s, index)) && deleted == old(slot) && slot == None
      ensures Machine.Reap(s, index).ctx == if deleted.Some? then DeleteOne(s.ctx, deleted.value) else s.ctx
    {
      deleted := slot;
      if slot != None {
        slot := None;
      }
    }

    /** threadlet::stop, as the loop of tasklet_service::stop calls it. */
    method SetStop(ghost s: State)
      requires Mirrors(s)
      modifies `stop
      ensures Mirrors(s.(threads := StopAll(s.threads)))
    {
      stop := true;
    }

    // ----- context switches, up to the swapcontext and behind it

    /** threadlet::switch_tasklet, into a tasklet that was popped. */
    method SwitchIn(service: Service, t: Tasklet, ghost s: State) returns (ghost s': State)
      requires Mirrors(s) && !stop && service.Valid() && service.View() == s.core && service.Known(t)
      requires t.id < |s.ctx| && s.ctx[t.id].saved
      modifies service, t
      ensures AtSwitchIn(s, index, t.id) == Next(s')
      ensures service.Valid() && service.View() == s'.core && Mirrors(s')
    {
      service.SetThreadlet(t, Some(index));
      s' := AtSwitchIn(s, index, t.id).s;
    }

    /** switch_tasklet(current, next). */
    method SwitchTasklet(service: Service, t: Tasklet, next: Tasklet, ghost s: State) returns (ghost s': State)
      requires Mirrors(s) && service.Valid() && service.View() == s.core
      requires service.Known(t) && service.Known(next) && t != next && t.thr == Some(index)
      requires t.id < |s.ctx| && next.id < |s.ctx| && s.ctx[next.id].saved
      modifies `current, service, t, next
      ensures AtSwapTo(s, index, t.id, next.id) == Next(s')
      ensures service.Valid() && service.View() == s'.core && Mirrors(s')
    {
      assert service.vals[t.id].thr == t.thr;
      s' := SwapToEffect(s, index, t.id, next.id);
      service.SwitchTasklet(t, next);
      current := Some(next.id);
    }

    /** switch_tasklet(current), to the threadlet's own context. */
    method SwitchBack(service: Service, t: Tasklet, ghost s: State) returns (ghost s': State)
      requires Mirrors(s) && service.Valid() && service.View() == s.core && service.Known(t)
      requires t.thr == Some(index) && t.id < |s.ctx| && !t.state.Finished?
      modifies service, t
      ensures AtSwapBack(s, index, t.id) == Next(s')
      ensures service.Valid() && service.View() == s'.core && Mirrors(s')
    {
      assert service.vals[t.id].thr == t.thr && service.vals[t.id].state == t.state;
      service.SetThreadlet(t, None);
      s' := AtSwapBack(s, index, t.id).s;
    }

    /** What runs behind the swapcontext at which t left: t is running again, and, inside a `recv`,
        fetches its oldest message. */
    method Resume(service: Service, t: Tasklet, cont: Cont, ghost s: State) returns (m: Option<Message>, ghost s': State)
      requires Mirrors(s) && service.Valid() && service.View() == s.core && service.Known(t)
      requires t.thr == Some(index) && t.id < |s.ctx| && s.ctx[t.id].cont == cont
      requires cont.InYield? || cont.InSleep? || (InsideRecv(cont) && t.mail != [])
      modifies service, t
      ensures AtResumed(s, index, t.id) == Next(s')
      ensures service.Valid() && service.View() == s'.core && Mirrors(s')
      ensures m == if InsideRecv(cont) then Some(old(t.mail)[0]) else None
    {
      assert service.vals[t.id].thr == t.thr && service.vals[t.id].mail == t.mail;
      s' := ResumedEffect(s, index, t.id);
      service.SetState(t, Running);
      m := None;
      if InsideRecv(cont) {
        var x := service.FetchMail(t, cont.InRecvTimed?);
        m := Some(x);
      }
    }
  }

  lemma ResumedEffect(s: State, i: nat, t: Tid) returns (s': State)
    requires i < |s.threads| && OnThread(s, i, t)
    requires s.ctx[t].cont.InYield? || s.ctx[t].cont.InSleep? || (InsideRecv(s.ctx[t].cont) && s.core.tasks[t].mail != [])
    ensures AtResumed(s, i, t) == Next(s') && s'.mutex == s.mutex && |s'.threads| == |s.threads|
    ensures s'.threads[i] == s.threads[i].(pc := Exec(t, Release(false)))
    ensures var c := Queues.SetState(s.core, t, Running);
            if InsideRecv(s.ctx[t].cont) then Ok(s'.core) == Fetch(c, t, s.ctx[t].cont.InRecvTimed?) else s'.core == c
  {
    s' := AtResumed(s, i, t).s;
  }

  /** The parts of the next state that the objects hold. */
  lemma SwapToEffect(s: State, i: nat, t: Tid, next: Tid) returns (s': State)
    requires i < |s.threads| && OnThread(s, i, t) && next < |s.core.tasks| && next < |s.ctx| && s.ctx[next].saved && next != t
    ensures AtSwapTo(s, i, t, next) == Next(s') && s'.mutex == s.mutex && |s'.threads| == |s.threads|
    ensures s'.core == Queues.SetState(SetThr(SetThr(s.core, t, None), next, Some(i)), next, Running)
    ensures s'.threads[i] == s.threads[i].(cur := Some(next), pc := Exec(next, Resumed))
  {
    s' := AtSwapTo(s, i, t, next).s;
  }
}
