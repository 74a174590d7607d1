/** The scheduler's data and the operations on it, as values: the run queue, the wait list,
    the sleepers and the mailboxes of tasklet_service, seen as sequences.  The class in
    TaskletService.dfy implements these operations over linked nodes; the step machine in
    Machine.dfy composes them with threads, the mutex and context switches. */
module Queues {
  import opened Base

  type Tid = nat

  datatype Message =
    | NoMsg                     // type no_msg, posted by the timer
    | UserMsg(content: int)     // any type but these two
    | PortMsg(content: int)     // type port_msg, as the port service posts it

  datatype TState = Finished | NoStart | Running | Runnable | Waitting | TimeoutWaitting | Sleeping

  /** The scheduling fields of a tasklet.  `sent`, `got` and `viaTimedWait` are history: the
      messages ever pushed into the mailbox, the messages ever fetched from it, and for each
      of these whether it was fetched after a switch-out in the timed `recv`. */
  datatype Task = Task(state: TState, thr: Option<nat>, wake: nat, mail: seq<Message>, started: bool,
                       sent: seq<Message>, got: seq<Message>, viaTimedWait: seq<bool>)

  /** `signals` counts the calls of `_condition.notify()`. */
  datatype Core = Core(tasks: seq<Task>, runq: seq<Tid>, waitq: seq<Tid>, sleepers: seq<Tid>, signals: nat)

  const FRESH_TASK := Task(NoStart, None, 0, [], false, [], [], [])

  // ----- the run queue and the wait list

  function SetState(c: Core, t: Tid, st: TState): Core
    requires t < |c.tasks|
  {
    c.(tasks := c.tasks[t := c.tasks[t].(state := st)])
  }

  function SetThr(c: Core, t: Tid, p: Option<nat>): Core
    requires t < |c.tasks|
  {
    c.(tasks := c.tasks[t := c.tasks[t].(thr := p)])
  }

  function Park(c: Core, t: Tid): Outcome<Core>
    requires t < |c.tasks|
  {
    if t in c.waitq then Bad(ListCorrupted)
    else Ok(SetState(c, t, Waitting).(waitq := c.waitq + [t]))
  }

  function Unpark(c: Core, t: Tid): Outcome<Core>
    requires t < |c.tasks|
  {
    if t !in c.waitq then Bad(AssertFailed)
    else Ok(SetState(c, t, Runnable).(waitq := Without(c.waitq, t)))
  }

  function PushRunnable(c: Core, t: Tid): Outcome<Core>
    requires t < |c.tasks|
  {
    if t in c.runq then Bad(ListCorrupted)
    else Ok(SetState(c, t, Runnable).(runq := c.runq + [t]))
  }

  function PushTasklet(c: Core, t: Tid): Outcome<Core>
    requires t < |c.tasks|
  {
    var c1 :- PushRunnable(c, t);
    Ok(if c.runq == [] then c1.(signals := c1.signals + 1) else c1)
  }

  function PopRunnable(c: Core): Outcome<(Core, Tid)> {
    if c.runq == [] then Bad(AssertFailed)
    else if c.runq[0] >= |c.tasks| then Bad(Dangling)
    else Ok((SetState(c, c.runq[0], Running).(runq := c.runq[1..]), c.runq[0]))
  }

  // ----- the sleepers: ordered by deadline, ties kept in order of arrival

  function WakeOf(tasks: seq<Task>, t: Tid): nat {
    if t < |tasks| then tasks[t].wake else 0
  }

  function InsertByWake(tasks: seq<Task>, xs: seq<Tid>, t: Tid): seq<Tid> {
    if xs == [] || WakeOf(tasks, t) < WakeOf(tasks, xs[0]) then [t] + xs
    else [xs[0]] + InsertByWake(tasks, xs[1..], t)
  }

  /** The statements of `sleep` and of the timed `recv` that file a tasklet under a deadline. */
  function AddSleeper(c: Core, t: Tid, st: TState, wake: nat): Core
    requires t < |c.tasks|
  {
    var tasks := c.tasks[t := c.tasks[t].(state := st, wake := wake)];
    c.(tasks := tasks, sleepers := InsertByWake(tasks, c.sleepers, t))
  }

  ghost predicate SortedByWake(tasks: seq<Task>, xs: seq<Tid>) {
    forall i, j :: 0 <= i < j < |xs| ==> WakeOf(tasks, xs[i]) <= WakeOf(tasks, xs[j])
  }

  // ----- mailboxes and waking

  function Deposit(c: Core, t: Tid, m: Message): Core
    requires t < |c.tasks|
  {
    var k := c.tasks[t];
    c.(tasks := c.tasks[t := k.(mail := k.mail + [m], sent := k.sent + [m])])
  }

  function Fetch(c: Core, t: Tid, timedWait: bool): Outcome<Core>
    requires t < |c.tasks|
  {
    var k := c.tasks[t];
    if k.mail == [] then Bad(EmptyMailbox)
    else Ok(c.(tasks := c.tasks[t := k.(mail := k.mail[1..], got := k.got + [k.mail[0]],
                                        viaTimedWait := k.viaTimedWait + [timedWait])]))
  }

  /** A timed receiver loses its deadline, and leaves the sleepers unless the timer has seen to that. */
  function Unfile(c: Core, t: Tid, deleteFromSleepers: bool): Core
    requires t < |c.tasks|
  {
    var c1 := c.(tasks := c.tasks[t := c.tasks[t].(wake := 0)]);
    if deleteFromSleepers then c1.(sleepers := Without(c1.sleepers, t)) else c1
  }

  function ActiveTasklet(c: Core, t: Tid, deleteFromSleepers: bool): Outcome<Core>
    requires t < |c.tasks|
  {
    match c.tasks[t].state
    case Waitting =>
      var c1 :- Unpark(c, t);
      PushTasklet(c1, t)
    case TimeoutWaitting => PushTasklet(Unfile(c, t, deleteFromSleepers), t)
    case _ => Bad(NotWaiting)
  }

  predicate Waits(st: TState) {
    st.Waitting? || st.TimeoutWaitting?
  }

  function Dispatch(c: Core, t: Tid, m: Message, deleteFromSleepers: bool): Outcome<Core>
    requires t < |c.tasks|
  {
    var c1 := Deposit(c, t, m);
    if Waits(c1.tasks[t].state) then ActiveTasklet(c1, t, deleteFromSleepers) else Ok(c1)
  }

  // ----- the parts of yield, recv and sleep that precede the context switch

  function PickNext(c: Core): Outcome<(Core, Option<Tid>)> {
    if c.runq == [] then Ok((c, None))
    else
      var (c1, n) :- PopRunnable(c);
      Ok((c1, Some(n)))
  }

  /** `None` means that the caller goes on without a switch. */
  function YieldPick(c: Core, t: Tid): Outcome<(Core, Option<Tid>)>
    requires t < |c.tasks|
  {
    if c.runq == [] then Ok((c, None))
    else
      var c1 :- PushRunnable(c, t);
      PickNext(c1)
  }

  /** `None` means a switch to the threadlet's own context. */
  function ParkPick(c: Core, t: Tid): Outcome<(Core, Option<Tid>)>
    requires t < |c.tasks|
  {
    var c1 :- Park(c, t);
    PickNext(c1)
  }

  function SleepPick(c: Core, t: Tid, st: TState, wake: nat): Outcome<(Core, Option<Tid>)>
    requires t < |c.tasks|
  {
    PickNext(AddSleeper(c, t, st, wake))
  }

  // ----- the timer's scan

  predicate Due(c: Core, time: nat) {
    c.sleepers != [] && WakeOf(c.tasks, c.sleepers[0]) <= time
  }

  /** One iteration of the scan: the first sleeper leaves, a timed receiver with a message. */
  function ExpireFirst(c: Core): (r: Outcome<Core>)
    requires c.sleepers != []
    ensures r.Ok? ==> r.value.sleepers == c.sleepers[1..]
  {
    var t := c.sleepers[0];
    var c1 := c.(sleepers := c.sleepers[1..]);
    if t >= |c.tasks| then Bad(Dangling)
    else if c.tasks[t].state.TimeoutWaitting? then Dispatch(c1, t, NoMsg, false)
    else PushTasklet(c1, t)
  }

  function Scan(c: Core, time: nat): Outcome<Core>
    decreases |c.sleepers|
  {
    if !Due(c, time) then Ok(c)
    else
      var c1 :- ExpireFirst(c);
      Scan(c1, time)
  }
}
