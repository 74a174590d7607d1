/** The runtime as a state machine.  Agents are the threadlets, the timer, the port service and
    any number of outside threads; they share one mutex and one condition variable.  Putting a
    tasklet into a queue and saving its context are separate steps, as in the program, so the
    window between them is part of every run. */
module Machine {
  import opened Base
  import opened Queues

  datatype Agent = Thr(i: nat) | TimerAgent | PortAgent | Ext(k: nat)

  /** What a tasklet's code asks of the service.  `Finish` is the return of its body, `Fail` an
      exception that leaves it, `BeforeStart` the check ahead of its body. */
  datatype Op =
    | BeforeStart
    | Send(target: Tid, msg: Message)
    | Recv
    | RecvTimed(delay: nat)
    | Sleep(delay: nat)
    | Yield
    | Finish
    | Fail

  /** Where a tasklet's stored context resumes.  `Executing`: the context was consumed. */
  datatype Cont =
    | Executing
    | Fresh                        // start_tasklet not entered yet
    | InYield                      // yield called by tasklet::yield or by send
    | InRecv                       // switched out in the loop of recv
    | InRecvTimed(wake: nat)       // switched out in the loop of the timed recv
    | InRecvYield                  // either recv, yielding before it fetches
    | InSleep
    | Done                         // past its last switch

  predicate InsideRecv(cont: Cont) {
    cont.InRecv? || cont.InRecvTimed? || cont.InRecvYield?
  }

  /** `saved` tells whether swapcontext has finished storing the context; `deleted` counts
      the calls of the tasklet's destructor. */
  datatype Ctx = Ctx(cont: Cont, saved: bool, deleted: nat)

  datatype Where =
    | User                            // user code
    | Acquire(op: Op)                 // in the constructor of tasklet_lock
    | Enter(op: Op)                   // holds the mutex, about to run the operation
    | SwapTo(next: Tid)               // about to swap into another tasklet
    | SwapBack                        // about to swap into the threadlet's context
    | Resumed                         // just swapped in
    | Release(thrown: bool)           // about to run the destructor of tasklet_lock
    | Thrown                          // stop_exception in flight in user code

  datatype Pc =
    | NotStarted
    | Top                             // head of the loop in threadlet::run
    | Locking                         // in the constructor of threadlet_lock
    | Popping                         // in the loop of pop_tasklet
    | Blocked                         // in _condition.wait
    | Woken                           // leaving _condition.wait, wants the mutex back
    | SwitchIn(t: Tid)                // popped t, about to swap into it
    | Exec(t: Tid, w: Where)          // the thread runs on t's stack
    | Back                            // swapped back, about to run the destructor of threadlet_lock
    | Unwind                          // stop_exception thrown by pop_tasklet
    | Exited

  datatype Thread = Thread(pc: Pc, locked: bool, stop: bool, slot: Option<Tid>, cur: Option<Tid>)

  datatype State = State(core: Core, ctx: seq<Ctx>, threads: seq<Thread>, mutex: Option<Agent>, stop: bool,
                         time: nat, timerIn: bool, portIn: bool, ext: set<nat>, destroyed: bool)

  datatype Action =
    | Create                                         // a tasklet is constructed
    | StartThread(i: nat)
    | Run(i: nat, w: nat)                            // threadlet i takes its next step
    | Call(i: nat, op: Op)                           // user code on threadlet i calls op
    | Catch(i: nat)                                  // user code swallows a stop_exception
    | Propagate(i: nat)                              // stop_exception reaches start_tasklet
    | Spurious(i: nat)                               // spurious wake-up
    | Tick(now: nat) | TimerLock | TimerStep(w: nat) | TimerUnlock
    | PortLock | PortPost(t: Tid, content: int, w: nat) | PortUnlock
    | ExtLock(k: nat) | ExtStart(k: nat, t: Tid, w: nat) | ExtStop(k: nat) | ExtUnlock(k: nat)
    | Destroy                                        // join has returned; the rest of the destructor

  datatype Result = Next(s: State) | Disabled | Faulty(fault: Fault)

  function Init(pool: nat): State {
    State(Core([], [], [], [], 0), [],
          seq(pool, _ => Thread(NotStarted, false, false, None, None)),
          None, false, 0, false, false, {}, false)
  }

  // ----- field updates

  function SetPc(s: State, i: nat, pc: Pc): State
    requires i < |s.threads|
  {
    s.(threads := s.threads[i := s.threads[i].(pc := pc)])
  }

  function SetCont(s: State, t: Tid, cont: Cont): State
    requires t < |s.ctx|
  {
    s.(ctx := s.ctx[t := s.ctx[t].(cont := cont)])
  }

  function DeleteOne(ctx: seq<Ctx>, t: Tid): seq<Ctx> {
    if t < |ctx| then ctx[t := ctx[t].(deleted := ctx[t].deleted + 1)] else ctx
  }

  function DeleteEach(ctx: seq<Ctx>, xs: seq<Tid>): seq<Ctx>
    decreases xs
  {
    if xs == [] then ctx else DeleteEach(DeleteOne(ctx, xs[0]), xs[1..])
  }

  predicate Live(s: State, t: Tid) {
    t < |s.core.tasks| && t < |s.ctx| && s.ctx[t].deleted == 0
  }

  // ----- the mutex and the condition variable

  function LockMutex(s: State, a: Agent): Option<State> {
    if s.mutex == None then Some(s.(mutex := Some(a))) else None
  }

  function UnlockMutex(s: State, a: Agent): Outcome<State> {
    if s.mutex == Some(a) then Ok(s.(mutex := None)) else Bad(ForeignUnlock)
  }

  /** threadlet::unlock of threadlet p, called on thread i. */
  function UnlockThreadlet(s: State, p: nat, i: nat): Outcome<State>
    requires p < |s.threads|
  {
    if s.threads[p].locked then
      var s1 :- UnlockMutex(s, Thr(i));
      Ok(s1.(threads := s1.threads[p := s1.threads[p].(locked := false)]))
    else Ok(s)
  }

  predicate IsBlocked(h: Thread) {
    h.pc.Blocked?
  }

  /** pthread_cond_signal: if some thread is blocked then one of them, `w`, is chosen. */
  predicate MaySignal(ths: seq<Thread>, w: nat) {
    (exists i :: 0 <= i < |ths| && IsBlocked(ths[i])) ==> w < |ths| && IsBlocked(ths[w])
  }

  function WakeThread(h: Thread): Thread {
    if IsBlocked(h) then h.(pc := Woken) else h
  }

  function WakeOne(ths: seq<Thread>, w: nat): seq<Thread> {
    if w < |ths| then ths[w := WakeThread(ths[w])] else ths
  }

  /** Installs a new core and delivers the signal that came with it, if any. */
  function Settle(s: State, c: Core, w: nat): Result {
    if c.signals == s.core.signals then Next(s.(core := c))
    else if MaySignal(s.threads, w) then Next(s.(core := c, threads := WakeOne(s.threads, w)))
    else Disabled
  }

  // ----- a threadlet on its own stack

  function Reap(s: State, i: nat): State
    requires i < |s.threads|
  {
    match s.threads[i].slot
    case None => s
    case Some(t) => s.(ctx := DeleteOne(s.ctx, t), threads := s.threads[i := s.threads[i].(slot := None)])
  }

  /** threadlet::lock: sets the flag first, then asks for the mutex. */
  function AtTop(s: State, i: nat): State
    requires i < |s.threads|
  {
    var s1 := Reap(s, i);
    var h := s1.threads[i];
    if h.stop then SetPc(s1, i, Exited)
    else if h.locked then SetPc(s1, i, Popping)
    else s1.(threads := s1.threads[i := h.(locked := true, pc := Locking)])
  }

  function AtPopping(s: State, i: nat): Result
    requires i < |s.threads|
  {
    if s.stop then Next(SetPc(s, i, Unwind))
    else if s.core.runq == [] then
      match UnlockMutex(s, Thr(i)) {
        case Ok(s1) => Next(SetPc(s1, i, Blocked))
        case Bad(f) => Faulty(f)
      }
    else
      match PopRunnable(s.core) {
        case Ok((c, t)) =>
          var h := s.threads[i].(pc := SwitchIn(t), cur := Some(t));
          Next(s.(core := c, threads := s.threads[i := h]))
        case Bad(f) => Faulty(f)
      }
  }

  /** Swaps into t on thread i; the context must have been stored. */
  function SwapInto(s: State, i: nat, t: Tid): Result
    requires i < |s.threads|
  {
    if t >= |s.ctx| then Faulty(Dangling)
    else if !s.ctx[t].saved then Faulty(ContextNotSaved)
    else Next(SetPc(s.(ctx := s.ctx[t := s.ctx[t].(saved := false)]), i, Exec(t, Resumed)))
  }

  function AtSwitchIn(s: State, i: nat, t: Tid): Result
    requires i < |s.threads|
  {
    if s.threads[i].stop then
      match UnlockThreadlet(s, i, i) {
        case Ok(s1) => Next(SetPc(s1.(ctx := DeleteOne(s1.ctx, t)), i, Unwind))
        case Bad(f) => Faulty(f)
      }
    else if t >= |s.core.tasks| then Faulty(Dangling)
    else SwapInto(s.(core := SetThr(s.core, t, Some(i))), i, t)
  }

  function AtBack(s: State, i: nat): Result
    requires i < |s.threads|
  {
    match UnlockThreadlet(s, i, i)
    case Ok(s1) => Next(SetPc(s1, i, Top))
    case Bad(f) => Faulty(f)
  }

  function AtUnwind(s: State, i: nat): Result
    requires i < |s.threads|
  {
    match UnlockThreadlet(s, i, i)
    case Ok(s1) => Next(SetPc(Reap(s1, i), i, Exited))
    case Bad(f) => Faulty(f)
  }

  // ----- a threadlet on the stack of tasklet t

  predicate OnThread(s: State, i: nat, t: Tid) {
    t < |s.core.tasks| && t < |s.ctx| && s.core.tasks[t].thr == Some(i)
  }

  /** The constructor of tasklet_lock: threadlet::lock through t's own threadlet field. */
  function CallOp(s: State, i: nat, t: Tid, op: Op): Result
    requires i < |s.threads|
  {
    if !OnThread(s, i, t) then Faulty(WrongThreadlet)
    else if s.threads[i].locked then Next(SetPc(s, i, Exec(t, Enter(op))))
    else Next(s.(threads := s.threads[i := s.threads[i].(locked := true, pc := Exec(t, Acquire(op)))]))
  }

  /** The destructor of tasklet_lock. */
  function AtRelease(s: State, i: nat, t: Tid, thrown: bool): Result
    requires i < |s.threads|
  {
    if !OnThread(s, i, t) then Faulty(WrongThreadlet)
    else match UnlockThreadlet(s, i, i) {
      case Ok(s1) => Next(SetPc(s1, i, Exec(t, if thrown then Thrown else User)))
      case Bad(f) => Faulty(f)
    }
  }

  /** Leaves t in a queue with continuation `cont` and heads for the swap. */
  function Leave(s: State, i: nat, t: Tid, r: Outcome<(Core, Option<Tid>)>, cont: Cont): Result
    requires i < |s.threads| && t < |s.ctx|
  {
    match r
    case Bad(f) => Faulty(f)
    case Ok((c, next)) =>
      Next(SetPc(SetCont(s, t, cont).(core := c), i,
                 Exec(t, if next.Some? then SwapTo(next.value) else SwapBack)))
  }

  function YieldOr(s: State, i: nat, t: Tid, cont: Cont): Result
    requires i < |s.threads| && t < |s.ctx| && t < |s.core.tasks|
  {
    if s.core.runq == [] then AfterYield(s, i, t, cont)
    else Leave(s, i, t, YieldPick(s.core, t), cont)
  }

  /** What follows a `yield`: nothing, or the fetch of a `recv`. */
  function AfterYield(s: State, i: nat, t: Tid, cont: Cont): Result
    requires i < |s.threads| && t < |s.ctx| && t < |s.core.tasks|
  {
    if cont == InRecvYield then FetchAnd(s, i, t, false)
    else Next(SetPc(SetCont(s, t, Executing), i, Exec(t, Release(false))))
  }

  function FetchAnd(s: State, i: nat, t: Tid, timedWait: bool): Result
    requires i < |s.threads| && t < |s.ctx| && t < |s.core.tasks|
  {
    match Fetch(s.core, t, timedWait)
    case Ok(c) => Next(SetPc(SetCont(s, t, Executing).(core := c), i, Exec(t, Release(false))))
    case Bad(f) => Faulty(f)
  }

  /** The loop of either `recv`, from its test; `cont` says which one. */
  function RecvLoop(s: State, i: nat, t: Tid, cont: Cont, switched: bool): Result
    requires i < |s.threads| && t < |s.ctx| && t < |s.core.tasks|
  {
    if s.core.tasks[t].mail == [] then
      if cont.InRecvTimed? then Leave(s, i, t, SleepPick(s.core, t, TimeoutWaitting, cont.wake), cont)
      else Leave(s, i, t, ParkPick(s.core, t), cont)
    else if switched then FetchAnd(s, i, t, cont.InRecvTimed?)
    else YieldOr(s, i, t, InRecvYield)
  }

  function SleepUntil(s: State, i: nat, t: Tid, wake: nat): Result
    requires i < |s.threads| && t < |s.ctx| && t < |s.core.tasks|
  {
    Leave(s, i, t, SleepPick(s.core, t, Sleeping, wake), InSleep)
  }

  function ThrowStop(s: State, i: nat, t: Tid): Result
    requires i < |s.threads|
  {
    Next(SetPc(s, i, Exec(t, Release(true))))
  }

  /** The body of an operation, run with the mutex held. */
  function AtEnter(s: State, i: nat, t: Tid, op: Op, w: nat): Result
    requires i < |s.threads|
  {
    if !OnThread(s, i, t) then Faulty(WrongThreadlet)
    else match op
      case BeforeStart =>
        if s.stop then Faulty(StopBeforeStart) else Next(SetPc(s, i, Exec(t, Release(false))))
      case Finish =>
        var s1 := s.(core := SetState(s.core, t, Finished));
        Next(SetPc(IntoSlot(SetCont(s1, t, Done), i, t), i, Exec(t, SwapBack)))
      case Fail =>
        Next(SetPc(IntoSlot(SetCont(s, t, Done), i, t), i, Exec(t, SwapBack)))
      case _ =>
        if s.stop then ThrowStop(s, i, t) else AtRequest(s, i, t, op, w)
  }

  /** The operations that begin with a check of `_stop`, after that check. */
  function AtRequest(s: State, i: nat, t: Tid, op: Op, w: nat): Result
    requires i < |s.threads| && t < |s.ctx| && t < |s.core.tasks|
  {
    match op
    case Send(target, msg) =>
      if Live(s, target) then AtSend(s, i, t, target, msg, w)
      else Disabled                           // the caller must name an existing tasklet
    case Recv => RecvLoop(s, i, t, InRecv, false)
    case RecvTimed(delay) => RecvLoop(s, i, t, InRecvTimed(s.time + delay), false)
    case Sleep(delay) => SleepUntil(s, i, t, s.time + delay)
    case Yield => YieldOr(s, i, t, InYield)
    case _ => Disabled
  }

  function IntoSlot(s: State, i: nat, t: Tid): State
    requires i < |s.threads|
  {
    s.(threads := s.threads[i := s.threads[i].(slot := Some(t))])
  }

  function AtSend(s: State, i: nat, t: Tid, target: Tid, msg: Message, w: nat): Result
    requires i < |s.threads| && t < |s.ctx| && t < |s.core.tasks| && Live(s, target)
  {
    match Dispatch(s.core, target, msg, true)
    case Bad(f) => Faulty(f)
    case Ok(c) =>
      match Settle(s, c, w) {
        case Next(s1) => if t < |s1.core.tasks| then YieldOr(s1, i, t, InYield) else Faulty(Dangling)
        case r => r
      }
  }

  /** switch_tasklet(current, next). */
  function AtSwapTo(s: State, i: nat, t: Tid, next: Tid): Result
    requires i < |s.threads|
  {
    if !OnThread(s, i, t) then Faulty(WrongThreadlet)
    else if next >= |s.core.tasks| || next >= |s.ctx| then Faulty(Dangling)
    else
      var c := SetState(SetThr(SetThr(s.core, t, None), next, Some(i)), next, Running);
      var h := s.threads[i].(cur := Some(next));
      SwapInto(s.(core := c, threads := s.threads[i := h], ctx := s.ctx[t := s.ctx[t].(saved := true)]), i, next)
  }

  /** switch_tasklet(current); a finished tasklet keeps its threadlet field. */
  function AtSwapBack(s: State, i: nat, t: Tid): Result
    requires i < |s.threads|
  {
    if !OnThread(s, i, t) then Faulty(WrongThreadlet)
    else
      var c := if s.core.tasks[t].state.Finished? then s.core else SetThr(s.core, t, None);
      Next(SetPc(s.(core := c, ctx := s.ctx[t := s.ctx[t].(saved := true)]), i, Back))
  }

  /** The code that follows the swap at which t left. */
  function AtResumed(s: State, i: nat, t: Tid): Result
    requires i < |s.threads|
  {
    if !OnThread(s, i, t) then Faulty(WrongThreadlet)
    else
      var s1 := s.(core := SetState(s.core, t, Running));
      match s.ctx[t].cont
      case Fresh => CallOp(SetCont(s, t, Executing), i, t, BeforeStart)
      case InYield => AfterYield(s1, i, t, InYield)
      case InRecvYield => AfterYield(s1, i, t, InRecvYield)
      case InSleep => Next(SetPc(SetCont(s1, t, Executing), i, Exec(t, Release(false))))
      case InRecv => RecvLoop(s1, i, t, InRecv, true)
      case InRecvTimed(wake) => RecvLoop(s1, i, t, InRecvTimed(wake), true)
      case Done => Faulty(ResumedAfterEnd)
      case Executing => Faulty(ContextNotSaved)
  }

  function AtExec(s: State, i: nat, t: Tid, at: Where, w: nat): Result
    requires i < |s.threads|
  {
    match at
    case User => Disabled                     // see Call
    case Thrown => Disabled                   // see Catch and Propagate
    case Acquire(op) => (match LockMutex(s, Thr(i))
                         case Some(s1) => Next(SetPc(s1, i, Exec(t, Enter(op))))
                         case None => Disabled)
    case Enter(op) => AtEnter(s, i, t, op, w)
    case SwapTo(next) => AtSwapTo(s, i, t, next)
    case SwapBack => AtSwapBack(s, i, t)
    case Resumed => AtResumed(s, i, t)
    case Release(thrown) => AtRelease(s, i, t, thrown)
  }

  function RunThread(s: State, i: nat, w: nat): Result
    requires i < |s.threads|
  {
    match s.threads[i].pc
    case Top => Next(AtTop(s, i))
    case Locking => (match LockMutex(s, Thr(i))
                     case Some(s1) => Next(SetPc(s1, i, Popping))
                     case None => Disabled)
    case Woken => (match LockMutex(s, Thr(i))
                   case Some(s1) => Next(SetPc(s1, i, Popping))
                   case None => Disabled)
    case Popping => AtPopping(s, i)
    case SwitchIn(t) => AtSwitchIn(s, i, t)
    case Back => AtBack(s, i)
    case Unwind => AtUnwind(s, i)
    case Exec(t, at) => AtExec(s, i, t, at, w)
    case _ => Disabled
  }

  // ----- the other agents

  function StopAll(ths: seq<Thread>): seq<Thread> {
    seq(|ths|, i requires 0 <= i < |ths| => WakeThread(ths[i]).(stop := true))
  }

  function StartTasklet(s: State, t: Tid, w: nat): Result
    requires t < |s.core.tasks|
  {
    if s.core.tasks[t].started then Next(s)
    else match PushTasklet(s.core, t) {
      case Ok(c) => if t < |c.tasks| then Settle(s, c.(tasks := c.tasks[t := c.tasks[t].(started := true)]), w)
                    else Faulty(Dangling)
      case Bad(f) => Faulty(f)
    }
  }

  predicate Joined(s: State) {
    && (forall i :: 0 <= i < |s.threads| ==> s.threads[i].pc.Exited? || s.threads[i].pc.NotStarted?)
    && !s.timerIn && !s.portIn && s.ext == {}
  }

  function Unlocked(r: Outcome<State>): Result {
    match r
    case Ok(s) => Next(s)
    case Bad(f) => Faulty(f)
  }

  /** User code never sends the timer's message. */
  predicate Allowed(op: Op) {
    !op.BeforeStart? && (op.Send? ==> op.msg != NoMsg)
  }

  function Created(s: State): State {
    s.(core := s.core.(tasks := s.core.tasks + [FRESH_TASK]), ctx := s.ctx + [Ctx(Fresh, true, 0)])
  }

  function Destroyed(s: State): State {
    s.(ctx := DeleteEach(s.ctx, s.core.runq + s.core.waitq + s.core.sleepers), destroyed := true)
  }

  function Step(s: State, a: Action): Result {
    if s.destroyed then Disabled
    else match a
      case Create => Next(Created(s))
      case StartThread(i) =>
        if i < |s.threads| && s.threads[i].pc.NotStarted? then Next(SetPc(s, i, Top)) else Disabled
      case Run(i, w) =>
        if i < |s.threads| then RunThread(s, i, w) else Disabled
      case Call(i, op) =>
        if i < |s.threads| && s.threads[i].pc.Exec? && s.threads[i].pc.w.User? && Allowed(op)
        then CallOp(s, i, s.threads[i].pc.t, op) else Disabled
      case Catch(i) =>
        if i < |s.threads| && s.threads[i].pc.Exec? && s.threads[i].pc.w.Thrown?
        then Next(SetPc(s, i, Exec(s.threads[i].pc.t, User))) else Disabled
      case Propagate(i) =>
        if i < |s.threads| && s.threads[i].pc.Exec? && s.threads[i].pc.w.Thrown?
        then Next(SetPc(s.(ctx := DeleteOne(s.ctx, s.threads[i].pc.t)), i, Exited)) else Disabled
      case Spurious(i) =>
        if i < |s.threads| && IsBlocked(s.threads[i]) then Next(SetPc(s, i, Woken)) else Disabled
      case Tick(now) => if s.timerIn then Disabled else Next(s.(time := now))
      case TimerLock =>
        (match LockMutex(s, TimerAgent)
         case Some(s1) => Next(s1.(timerIn := true))
         case None => Disabled)
      case TimerStep(w) =>
        if !s.timerIn || !Due(s.core, s.time) then Disabled
        else (match ExpireFirst(s.core)
              case Ok(c) => Settle(s, c, w)
              case Bad(f) => Faulty(f))
      case TimerUnlock =>
        if !s.timerIn || Due(s.core, s.time) then Disabled
        else Unlocked(UnlockMutex(s.(timerIn := false), TimerAgent))
      case PortLock =>
        (match LockMutex(s, PortAgent)
         case Some(s1) => Next(s1.(portIn := true))
         case None => Disabled)
      case PortPost(t, content, w) =>
        if !s.portIn || !Live(s, t) then Disabled
        else (match Dispatch(s.core, t, PortMsg(content), true)
              case Ok(c) => Settle(s, c, w)
              case Bad(f) => Faulty(f))
      case PortUnlock =>
        if !s.portIn then Disabled else Unlocked(UnlockMutex(s.(portIn := false), PortAgent))
      case ExtLock(k) =>
        (match LockMutex(s, Ext(k))
         case Some(s1) => Next(s1.(ext := s1.ext + {k}))
         case None => Disabled)
      case ExtStart(k, t, w) =>
        if k !in s.ext || !Live(s, t) then Disabled else StartTasklet(s, t, w)
      case ExtStop(k) =>
        if k !in s.ext then Disabled else Next(s.(stop := true, threads := StopAll(s.threads)))
      case ExtUnlock(k) =>
        if k !in s.ext then Disabled else Unlocked(UnlockMutex(s.(ext := s.ext - {k}), Ext(k)))
      case Destroy =>
        if !Joined(s) then Disabled
        else Next(Destroyed(s))
  }

  /** A whole run: the state after a list of actions, none of them disabled. */
  function Execute(s: State, actions: seq<Action>): Result
    decreases actions
  {
    if actions == [] then Next(s)
    else match Step(s, actions[0]) {
      case Next(s1) => Execute(s1, actions[1..])
      case r => r
    }
  }
}
