# A verified model of the cerl coroutine runtime

The runtime multiplexes tasklets (coroutines) over a pool of threadlets (operating-system
threads).  `tasklet_service` keeps a run queue, a wait list and a set of sleepers; every tasklet
has a mailbox; a timer wakes sleepers; one mutex protects it all and is taken on one tasklet's
stack and released on another's.  Beside it stands `ring_buffer`, the byte ring of the network
layer.  This project models both in Dafny and proves what they promise, and, where the code falls
short of that, exactly when.

## How the model is built

| file | content |
|---|---|
| `Base.dfy` | optional values, outcomes that may fault, sequences without repetition |
| `Queues.dfy` | the scheduler's operations on values: run queue, wait list, sleepers, mailboxes, the timer's scan |
| `Scans.dfy` | the timer's scan and `check_waittings` against filters |
| `Links.dfy`, `TaskletService.dfy` | the same operations on linked nodes, in place, proved against `Queues.dfy` |
| `Machine.dfy` | the step machine: threadlets, timer, port service, outside threads, mutex, condition variable, stored contexts |
| `Threadlet.dfy` | the threadlet's fields, the mutex and the stores around a context switch, in place, proved against the machine |
| `Invariant.dfy`, `Lists.dfy`, `Preservation.dfy`, `Operations.dfy`, `Waking.dfy`, `Steps.dfy` | the inductive invariant and its proof, step by step |
| `Safety.dfy`, `RunQueue.dfy`, `Channels.dfy`, `Waiters.dfy`, `Requests.dfy`, `Shutdown.dfy` | the promises, for every reachable state, every step and every run |
| `Effects.dfy`, `UserCode.dfy`, `Clock.dfy` | when each step can be taken and its whole next state; whole requests, from user code back to it; the timer's clock |
| `Tour.dfy` | runs that exist: one from construction to the destructor, one with a switch and a message, one with two timed receivers |
| `SleeperSet.dfy`, `SleeperRuns.dfy` | the declared `std::set` of sleepers, and when it agrees with the intended collection, for one operation, one step and whole runs |
| `RingModel.dfy`, `RingProofs.dfy`, `RingRuns.dfy`, `RingBuffer.dfy` | the ring as a value, its laws, its runs, and its methods over the array |

A step of the machine is one of three things: the next state, a blocked agent (`Disabled`), or a
fault.  Faults stand for what goes wrong in C++: a failed `assert`, the throw in `active_tasklet`,
`front()` of an empty mailbox, a NULL `_pthreadlet`, an unlock by a thread that does not hold the
mutex, a swap into a context that has not been stored, an intrusive list linked twice.  Putting a
tasklet into a queue and storing its context are separate steps.  The invariant is that some
placement assigns every tasklet one owner and fits all fields; the theorems of `Safety.dfy` do not
mention placements.

Decisions taken where the program's text and its intent differ:

* Sleepers.  The comparator reads only `_wake` (`tasklet.hpp:317-323`), so equal deadlines collapse
  in the set, and `active_tasklet` zeroes `_wake` before it erases (`tasklet_service.cpp:315-318`).
  The scheduler is modelled with the intended collection: ordered by `_wake`, ties kept, erase
  removes that very tasklet.  `SleeperSet.dfy` models the declared set and proves, for filing, expiry
  and waking, when it goes on agreeing with that collection.
* Spin lock.  The test at `lock.hpp:73` is inverted and excludes nobody.  Every caller of
  `dispatch`, `empty` and `fetch` holds the service's mutex, and the model relies on that alone.
* Ring indices.  The ring is modelled as written, with the guards under which it is right.

## Where the code falls short

* A ring as constructed has both indices at 0, where `writable()` is 0: nothing can ever be written
  to it or received into it (`FreshRingCarriesNothing`).  The further items on the ring therefore
  concern states that the present constructor never leads to; they are about the methods as they
  would work in a ring that had been set up otherwise.
* Exactly the rings that are empty with both indices at one end of the array are useless in this way
  (`CarriesIff`, `StuckForever`); a `read` of exactly the bytes held always leads there, and so does
  draining a ring whose bytes end with the array (`DrainingReads`, `DrainingSends`).
* A write or a reception that brings the tail onto the head makes the ring read as empty, unless the
  head is at 0; a write into an empty ring overruns the array when it does not fit behind the tail
  (`WriteAppendsIff`, `WriteOutsideGuard`, `RecvAppendsIff`, `RecvAlwaysAppendsIff`).
* With the tail at the end of the array `on_recv` asks for zero bytes and reports the end of the
  stream although there is room at the start; with the head there, `on_send` sends nothing
  (`RecvSucceedsIff`, `SendSucceedsIff`, `TailAtEndReceivesNothing`).
* Ten retries in a row are reported as -1 or as 0, depending on the layout; callers take 0 for a
  closed connection (`GivingUp`; all causes of a 0 are in `RecvZeroIff` and `SendZeroIff`).
* `back_write` of a patch that starts at the oldest byte is dropped or overruns the array in corner
  cases (`BackWriteIff`, `BackWriteOutsideGuard`).
* In the declared set of sleepers the second of two equal deadlines is lost (`InsertAgreesIff`).  A
  timed receiver woken by a message is erased after its deadline was zeroed: in a set in order that
  removes just this tasklet if and only if it had the earliest deadline of all
  (`EraseAfterZeroing`, `WakingAgreesIff`).  Otherwise it stays in the set, or the earliest sleeper is
  lost with it.  A tasklet left behind is queued again while it is queued or runs (`StaleIsQueuedTwice`,
  `StaleIsQueuedRunning`).

## Model

| member | source | states |
|---|---|---|
| Safety.NothingFaults | tasklet_service.cpp:86-349 | in no run from construction, under any interleaving, does an assert of the scheduler fail, a list get corrupted, `active_tasklet` throw, an empty mailbox get read, a NULL threadlet get followed, the mutex get released by a non-holder, or an unsaved context get entered |
| Steps.StepKeepsInv | tasklet_service.cpp:86-349 | every step of every agent from a state with the invariant leads to one with it, and faults nowhere |
| Steps.RunsKeepInv | threadlet.cpp:9-51 | the same along every finite run |
| Safety.MutualExclusion | threadlet.hpp:48-64 | two agents inside the critical section are the same agent, and it holds the mutex |
| Safety.LockHandOff | tasklet.cpp:323-354 | a tasklet leaves its critical section through the threadlet it is on now, whose thread holds the mutex and then does not; user code runs with neither the flag nor the mutex |
| Safety.NoDoubleRun | tasklet_service.cpp:196-214 | no tasklet is on two threads; none is about to be entered while a thread is still on its stack, and its context counts as unsaved until that thread has left |
| Safety.SingleOwnership | tasklet_service.hpp:92-195 | run queue, wait list, sleepers, threadlets and finished slots together contain a started, undeleted tasklet exactly once and any other not at all |
| Safety.FieldsAgree | tasklet_service.cpp:307-326 | outside the critical section state, threadlet field and stored context of a tasklet agree with the place it is in |
| TaskletService.Service.LinksAgree | tasklet_service.hpp:92-195 | the link fields of a tasklet name its neighbours in the list it is in, and are NULL for the lists it is not in |
| Safety.NoStaleTimeout | timer.cpp:35-58 | a timeout message is in front of its mailbox, alone, while its owner is woken from a timed receive and has not run; only receives that waited with a timeout ever yield one |
| Channels.StepFlow | tasklet_service.cpp:86-158 | every step of every agent delivers to each mailbox, at its end, exactly what the request, the port service or the timer sends, and takes from its front exactly what a receive fetches; no fetch finds it empty |
| Channels.ChannelConservation | channel.cpp:41-51 | over any run, the messages fetched, then the mailbox, are those held at the start, then all that were sent, in order |
| Channels.FetchedInOrder | channel.hpp:61-66 | over any run, as many messages are fetched as receives get to fetch, so these are the oldest |
| Channels.SentIsSent | channel.hpp:48-59 | the history of pushed messages grows by what is sent, over any run |
| Waiters.StepLists | tasklet_service.cpp:96-178 | in every step just the tasklets that the request, the message or the deadline calls for enter and leave the sleepers and the wait list, at their places; all others keep state and deadline |
| Waiters.StepOfSleeper | timer.cpp:35-58 | whoever leaves the sleepers in a step does so by a turn of the timer not before its deadline, or, a timed receiver only, by a message |
| Waiters.StepOfWaiter | tasklet_service.cpp:307-326 | whoever leaves the wait list in a step does so by a message |
| Waiters.SleepsOn | timer.cpp:35-58 | along any run a sleeper stays, under its deadline and in its state, until such a turn or message: nobody is woken early |
| Waiters.WaitsOn | tasklet_service.cpp:96-115 | along any run a waiter stays until a message |
| Safety.NoMissedMessage | tasklet_service.cpp:96-158 | a waiting tasklet has an empty mailbox; one resumed inside a receive has a message |
| Safety.NoLostWakeup | tasklet_service.hpp:225-233 | with work queued, no stop and some threadlet started, some started threadlet is not blocked on the condition; after a stop none is |
| Safety.SlotFreeWhileRunning | threadlet.cpp:28-45 | the finished slot is empty while a tasklet's code runs; a tasklet with a stop_exception in flight is in no list |
| Safety.ExactlyOnceDeletion | tasklet_service.cpp:37-64 | after stop, join and destructor every tasklet ever started has been deleted once and no other |
| Safety.AfterStopNothingEnters | tasklet_service.cpp:267-273 | after stop no thread is on its way into a tasklet, so the check before a tasklet's body never throws |
| RunQueue.StepQueue | tasklet_service.hpp:163-195 | in every step just the tasklets that the request, the message, the deadline or the start calls for enter the run queue, at the tail; tasklets leave it only from the head, one at most, taken by the stepping threadlet; stop stays |
| RunQueue.BoundedBypass | tasklet_service.hpp:178-195 | in every run the tasklet at index k moves up by one with each take and is the one taken after k others |
| RunQueue.AfterStopNothingIsTaken | tasklet_service.cpp:66-84 | along any run after a stop no tasklet is taken from the run queue and no thread is on its way into one |
| Effects.StopSets | tasklet_service.cpp:66-84 | an outside thread inside the critical section, and nobody else, can always stop the service: its flag and every threadlet's are set, whoever waits on the condition is woken, all else stays |
| Effects.ClockAndStop | timer.cpp:13-27 | in every step the clock is what a tick has set, the service is stopped by `stop` alone and for good, and the pool keeps its size |
| Effects.PoolKept | tasklet_service.cpp:13-35 | construction makes the asked number of threadlets, none started, and no run changes their number |
| Effects.CallEnters | tasklet.cpp:246-256 | from user code every operation a tasklet may ask for can be called, raises the flag of its threadlet, and goes for the mutex with just this operation |
| Effects.AcquireTakes | threadlet.hpp:48-55 | with the mutex free, and only then, that operation is entered, with the mutex held |
| Effects.ReleaseFrees | tasklet.cpp:351-354 | a request ends out of the critical section, in user code, or with its stop_exception in flight if it threw; nothing else changes |
| Effects.ThrownEnds | tasklet.cpp:290-294 | a stop_exception that user code swallows leaves it running; one that it lets go deletes the tasklet, for the first time, and ends the thread |
| Effects.BeforeStartPasses | tasklet_service.cpp:267-273 | the check ahead of a tasklet's body lets it go on in every reachable state, stopped or not |
| Effects.OnlyUserCode | tasklet.cpp:290-294 | calls are taken only by a thread that runs user code, and exceptions swallowed or let go only by one that has one in flight |
| Effects.NothingToRun | threadlet.cpp:9-26 | a threadlet that is not started, waits on the condition, runs user code or has ended takes no step of the service; after the destructor nobody takes any |
| Effects.OnlyInside | threadlet.hpp:48-64 | posts, starts and the timer's turns take place only inside the critical section |
| Effects.CreateAdds | tasklet.hpp:110-131 | a tasklet can be constructed at any time, in the state of one not started, with a fresh context and an empty mailbox |
| UserCode.CallRuns | tasklet.cpp:246-256 | from user code, with the mutex free, call and lock lead to just the operation asked for, in a reachable state |
| UserCode.UserSleeps | tasklet.cpp:246-250 | `sleep` in user code puts its tasklet among the sleepers, under now plus the delay, and departs |
| UserCode.UserReceivesTimed | tasklet_service.cpp:124-151 | so does a timed `recv` without mail, in the state timeout_waitting |
| UserCode.UserReceives | tasklet_service.cpp:96-115 | a `recv` without mail in user code parks its tasklet, last |
| UserCode.UserFindsMail | tasklet_service.cpp:117-121 | either `recv` with mail in user code fetches the oldest message, or yields first |
| UserCode.UserSends | tasklet_service.cpp:86-94 | `send` in user code delivers just its message to just its target, and yields |
| UserCode.UserYields | tasklet.cpp:252-256 | `yield` in user code rotates the run queue |
| UserCode.UserEnds | tasklet.cpp:295-310 | the end of the code, by return or by an exception, puts the tasklet into the finished slot of its threadlet |
| UserCode.UserThrows | tasklet_service.cpp:88-91 | after a stop every other request comes back to user code with the stop_exception in flight, flag and mutex released, and changes nothing else |
| UserCode.UserReturns | tasklet.cpp:351-354 | a request that has done its work is back in user code one step later, the core as it left it |
| Effects.RequestLeavesRest | tasklet_service.cpp:86-194 | a request changes besides the core only its caller's continuation and place, and wakes at most the thread that its signal picks |
| Effects.ResumedLeavesRest | tasklet_service.cpp:103-121 | so does the rest of a `recv` that is resumed |
| Effects.AgentLeavesRest | timer.cpp:35-58 | a post, a deadline and a start change the core, and wake at most the thread that their signal picks |
| Effects.TopGoesOn | threadlet.cpp:28-35 | at the head of its loop a threadlet deletes just the tasklet in its slot, once, and then ends if stopped and locks otherwise |
| Effects.PoppingGoesOn | tasklet_service.cpp:283-305 | in pop_tasklet a threadlet goes if stopped, waits without the mutex if nobody is queued, and else takes the first of the queue, which is running from then on |
| Effects.UnwindEnds | threadlet.cpp:13-26 | a threadlet that finds the service stopped releases the mutex and ends |
| Effects.SwitchInEnters | threadlet.cpp:47-51 | the popped tasklet is entered from its stored context, on the threadlet that popped it |
| Effects.SwapToEnters | tasklet_service.cpp:196-206 | a switch between tasklets stores the one's context, clears its threadlet field, and enters the other on the same threadlet |
| Effects.SwapBackLeaves | tasklet_service.cpp:208-214 | a switch to the threadlet stores the tasklet's context, and clears its threadlet field unless it has finished |
| Effects.ResumedGoesOn | tasklet_service.cpp:160-206 | a tasklet that comes back into `yield` or `sleep` leaves it, and one entered anew goes to the check ahead of its body |
| Effects.ThreadStarts | tasklet_service.cpp:230-233 | every threadlet can be started, once, whatever the others do |
| Effects.SpuriousWakes | tasklet_service.cpp:286-299 | whoever waits on the condition may wake by itself, and goes for the mutex |
| Effects.DestroyWhenAtRest | tasklet_service.cpp:37-39 | join returns exactly when every threadlet has ended or was never started and nobody holds the mutex |
| Effects.DestroyDeletes | tasklet_service.cpp:40-58 | then the destructor deletes what is left in the three lists, each once, and nothing else |
| Requests.YieldRotates | tasklet_service.cpp:180-194 | yield puts the caller last, enters the first and keeps the length; with nobody queued it changes nothing |
| Requests.SleepFiles | tasklet_service.cpp:160-178 | sleep adds exactly the caller to the sleepers, with state sleeping and deadline now plus delay, keeps them ordered, and goes to the first of the run queue or to the threadlet |
| Requests.TimedRecvFiles | tasklet_service.cpp:124-151 | a timed receive on an empty mailbox does the same with state timeout_waitting, and its loop keeps that deadline |
| Requests.RecvParks | tasklet_service.cpp:96-115 | a receive on an empty mailbox puts the caller last on the wait list, in state waitting, and goes to the first of the run queue or to the threadlet |
| Requests.RecvFindsMail | tasklet_service.cpp:117-121 | a receive, timed or not, that finds mail returns the oldest message at once if nobody is queued, and it is no timeout; otherwise it yields and leaves the mail in place |
| Requests.RecvReturnsOldest | tasklet_service.cpp:103-121 | a tasklet resumed inside a receive leaves with the oldest message, which is a timeout only if it waited with one |
| Requests.DispatchDelivers | channel.cpp:41-51 | a message lands last in its mailbox, a waiting target leaves its list and is queued last, the condition is signalled exactly when the queue was empty, nobody else changes |
| Requests.SendDelivers | tasklet_service.cpp:86-94 | the step of a send delivers its message, wakes the target if it waits, and then yields: to the first of the queue, or not at all if even the target did not wait |
| Requests.RequestWrites | tasklet_service.cpp:96-194 | a request with which its caller departs writes into the tasklets just the caller's state, its deadline if it asked for one, and the state of the one entered next, and signals nobody |
| Requests.SendWrites | tasklet_service.cpp:86-94 | a send writes what its delivery writes, and then what a yield does |
| Requests.PortDelivers | channel.cpp:41-51 | the step of a post by the port service delivers its message |
| Requests.StartQueuesOnce | tasklet.cpp:258-266 | the step of a start queues the tasklet, last, the first time, and does nothing later |
| Requests.EndsInSlot | tasklet_service.cpp:275-281 | a tasklet whose code has ended goes to the empty finished slot of its threadlet and stays out of all lists |
| Requests.PopTakesFirst | tasklet_service.cpp:283-305 | an idle threadlet takes the first of the run queue, and waits, without the mutex, exactly when there is none |
| Requests.StoppedThrows | tasklet_service.cpp:88-91 | after a stop every request throws and changes nothing else |
| Requests.CheckWaittingsFindsNothing | tasklet_service.cpp:328-349 | in no reachable state would check_waittings find a waiter with mail |
| Requests.TimerMayScan | timer.cpp:35-58 | in every reachable state the sleepers are ordered, distinct, asleep and not queued |
| Requests.TimerStepsScan | timer.cpp:28-58 | whatever the other agents do while the timer holds the mutex, its steps amount to one scan of the core it found: exactly the due sleepers are queued, in deadline order, and besides only new tasklets have appeared |
| Effects.TickSets | timer.cpp:13-27 | the timer can set its clock to any time while it is outside the critical section, and changes nothing else by it |
| Effects.AgentsEnter | timer.cpp:28-30 | the timer, the port service and outside threads can enter exactly when the mutex is free |
| Effects.AgentsLeave | timer.cpp:28-30 | they can leave exactly when inside, the timer once nobody is due any more |
| Clock.TurnTakenIff | timer.cpp:40-56 | while somebody is due the timer's turn can be taken, with a signal to a thread that waits if the queue was empty |
| Clock.TimerQueues | timer.cpp:15-58 | from every reachable state with a free mutex, for every sleeper and every time not before its deadline, the timer by itself sets the clock to it, enters, queues the sleeper and leaves |
| Tour.WholeLife | threadlet.cpp:9-45 | a run with one tasklet exists: started, run to its end, service stopped and joined, tasklet deleted once |
| Shutdown.HolderMovesIff | threadlet.hpp:48-64 | a threadlet that holds the mutex can take its next step if and only if it is not at a send to a deleted tasklet |
| Shutdown.AgentHolderMoves | timer.cpp:28-30 | so can the timer, the port service and outside threads |
| Shutdown.CriticalSectionEnds | tasklet.cpp:323-354 | it frees the mutex by at most six steps of its own, across context switches, with the same exception |
| Shutdown.StoppedCanEnd | tasklet_service.cpp:37-84 | from every reachable state after a stop some run reaches the end of the destructor |
| Tour.MessageExchanged | tasklet_service.cpp:86-122 | a run with two tasklets exists: the first waits, the second is entered in its place and sends it any message, the first is entered in turn and has fetched it |
| Scans.ScanIsFilter | timer.cpp:35-58 | the scan that stops at the first sleeper not due equals the full filter: due sleepers are queued in deadline order, exactly the timed receivers get a timeout message, nobody is woken early or left behind |
| Scans.ExpireFirstWakes | timer.cpp:40-56 | one turn of the scan makes the first sleeper runnable and keeps the others in order |
| Lists.InsertSorted | tasklet_service.cpp:139-141 | filing a tasklet keeps the sleepers ordered by deadline |
| TaskletService.Service.Park | tasklet_service.hpp:92-107 | the nodes end up as the wait list with the tasklet appended, doubly linked |
| TaskletService.Service.Unpark | tasklet_service.hpp:109-136 | the nodes end up as the wait list without exactly this tasklet, the rest in order, wherever it was |
| TaskletService.Service.Parking | tasklet_service.hpp:138-151 | true exactly for the members of the wait list |
| TaskletService.Service.EmptyRunnables | tasklet_service.hpp:153-161 | true exactly when the run queue is empty |
| TaskletService.Service.PushRunnable | tasklet_service.hpp:163-176 | the nodes end up as the run queue with the tasklet appended |
| TaskletService.Service.PopRunnable | tasklet_service.hpp:178-195 | returns the first of the run queue and leaves the rest |
| TaskletService.Service.PushTasklet | tasklet_service.hpp:225-233 | appends, and signals exactly when the queue was empty |
| TaskletService.Service.ActiveTasklet | tasklet_service.cpp:307-326 | wakes a waiter or a timed receiver as the abstract operation does, and fails, changing nothing, on any other state |
| TaskletService.Service.Dispatch | channel.cpp:41-51 | the message is deposited and a waiting owner woken |
| TaskletService.Service.FetchMail | channel.hpp:61-66 | removes and returns the oldest message |
| TaskletService.Service.InsertSleeper | tasklet_service.cpp:141-141 | the sleepers end up with the tasklet behind every one that is not later |
| TaskletService.Service.EraseSleeper | tasklet_service.cpp:318-318 | the sleepers end up without exactly this tasklet |
| TaskletService.Service.YieldPick | tasklet_service.cpp:186-193 | the part of yield before the switch: caller queued last, successor taken from the front |
| TaskletService.Service.ParkPick | tasklet_service.cpp:105-113 | the part of recv before the switch |
| TaskletService.Service.SleepPick | tasklet_service.cpp:166-177 | the part of sleep and of the timed recv before the switch |
| TaskletService.Service.SwitchTasklet | tasklet_service.cpp:198-203 | the stores into the two tasklets: the threadlet passes from the leaving to the entered one, which is running |
| TaskletService.Service.Start | tasklet.cpp:258-266 | queues the tasklet the first time and never again |
| TaskletService.Service.Register | tasklet.hpp:198-218 | a tasklet constructed without starting is known, and every list is as before |
| TaskletService.Service.Add | tasklet_service.hpp:55-63 | the tasklet is known and started: queued last, and the condition signalled if it is the only one |
| TaskletService.Service.CheckWaittings | tasklet_service.cpp:328-349 | from any well-formed state: the wait list keeps exactly its members without mail, the others are appended to the run queue, both in order; true exactly when something moved |
| TaskletService.Timer.ExpireFirst | timer.cpp:40-56 | one turn of the scan, over the nodes |
| TaskletService.Timer.Loop | timer.cpp:35-58 | the loop ends and equals the scan, hence the full filter |
| Links.RemovedWait | tasklet_service.hpp:130-134 | joining the neighbours of an element and clearing it leaves a well-formed doubly linked list without it |
| Threadlets.Threadlet.Lock | threadlet.hpp:48-55 | sets the flag and takes the mutex, unless the flag is set already; while another holds the mutex the call is pending with the flag set |
| Threadlets.Threadlet.Unlock | threadlet.hpp:57-64 | releases the mutex and clears the flag, as the machine does, or fails if another thread holds it |
| Threadlets.Threadlet.Reap | threadlet.cpp:30-34 | the tasklet in the finished slot is deleted once more than before and the slot is empty |
| Threadlets.Threadlet.SetStop | threadlet.hpp:38-41 | the threadlet reads as stopped, as after the loop of `tasklet_service::stop` |
| Threadlets.Threadlet.SwitchIn | threadlet.cpp:47-51 | objects and machine agree after a popped tasklet is entered |
| Threadlets.Threadlet.SwitchTasklet | tasklet_service.cpp:196-206 | objects and machine agree after a switch between tasklets: threadlet fields, current tasklet, state |
| Threadlets.Threadlet.SwitchBack | tasklet_service.cpp:208-214 | objects and machine agree after a switch to the threadlet |
| Threadlets.Threadlet.Resume | tasklet_service.cpp:116-121 | objects and machine agree after the step of a tasklet that runs again: it is in state running and, inside a receive, has fetched its oldest message |
| SleeperSet.InsertAgreesIff | tasklet.hpp:317-323 | the declared set files a new sleeper, in the place where the intended collection has it, if and only if no member has its deadline |
| SleeperSet.FilingAgreesIff | tasklet_service.cpp:139-141 | sleep and the timed receive keep the two collections in agreement if and only if the deadline is not taken |
| SleeperSet.ExpiryAgrees | timer.cpp:45-48 | each turn of the scan keeps them in agreement |
| SleeperSet.WakingAgreesIff | tasklet_service.cpp:313-320 | waking a timed receiver keeps them in agreement if and only if it has the earliest deadline of all sleepers, whichever way the library searches and balances |
| SleeperSet.TieLosesTasklet | tasklet.hpp:317-323 | a concrete tie in which the second sleeper is lost |
| SleeperSet.EraseAfterZeroing | tasklet_service.cpp:315-318 | in any set in order, erasing by key after zeroing removes just the tasklet if and only if it has the earliest deadline, whether the library erases the range between the bounds or the member it finds; otherwise the tasklet stays or the earliest goes too |
| SleeperRuns.StepAgreesIff | tasklet_service.cpp:124-178 | a step of the machine keeps the declared set in agreement with the sleepers if and only if it files under a free deadline or wakes the earliest timed receiver, if it does either |
| SleeperRuns.RunAgrees | tasklet_service.hpp:217-217 | along any run of such steps the declared set goes on agreeing |
| SleeperRuns.TwoNapAgrees | tasklet_service.cpp:139-141 | a reachable state with two timed receivers, both in the declared set |
| SleeperRuns.PostIsCareless | tasklet_service.cpp:313-320 | in it the port service may post to the one with the later deadline |
| SleeperRuns.PostLeavesStale | tasklet_service.cpp:313-320 | that message queues it and leaves it in the declared set, in either way of searching |
| SleeperRuns.StaleIsQueuedTwice | timer.cpp:35-58 | there the timer then links the run queue twice through one tasklet |
| SleeperRuns.StaleIsQueuedRunning | timer.cpp:35-58 | or queues a tasklet that is running |
| SleeperSet.ZeroingLeavesStaleSleeper | tasklet_service.cpp:315-318 | a concrete balanced set of three in which the last, woken, stays |
| SleeperSet.ZeroingLosesEarlierSleeper | tasklet_service.cpp:315-318 | the same set, in which waking the second loses the first |
| SleeperSet.EraseIntended | tasklet_service.cpp:318-318 | erasing before zeroing would always remove exactly that tasklet |
| RingProofs.ReadableIsLength | ring_buffer.hpp:27-35 | `readable` is the number of bytes held; with `writable` it makes up the size except at (0,0) |
| RingProofs.WriteAppendsIff | ring_buffer.hpp:209-254 | `write` appends the bytes it reports if and only if the guard holds, and changes nothing where it reports none |
| RingProofs.WriteOutsideGuard | ring_buffer.hpp:228-251 | outside the guard the ring reads as empty, or the copy leaves the array |
| RingProofs.WriteReturns | ring_buffer.hpp:209-254 | what `write` returns, case by case: 0, -1, -2, -3, -4 with the ring unchanged, or as many bytes as asked for or as there is room for, with the tail moved by as many around the end |
| RingProofs.WriteOverrunsIff | ring_buffer.hpp:228-251 | its copy leaves the array if and only if the ring is empty away from the start and the bytes do not fit behind the tail |
| RingProofs.ReadTakes | ring_buffer.hpp:37-85 | in every state `read` removes the oldest bytes, as many as it reports, and delivers them |
| RingProofs.ReadReturns | ring_buffer.hpp:37-85 | what `read` returns, case by case, and where it leaves the indices |
| RingProofs.BackWriteIff | ring_buffer.hpp:256-268 | a patch inside the contents is written exactly to its place, with length, indices and all other bytes kept, for all data if and only if the guard holds |
| RingProofs.BackWriteOutsideGuard | ring_buffer.hpp:256-268 | outside the guard the patch is dropped or the copy leaves the array |
| RingProofs.BackWriteLong | ring_buffer.hpp:256-268 | a patch longer than the bytes it goes back writes nothing, leaves the array, or ends the contents with its first bytes, and exactly when |
| RingProofs.BackWriteNothing | ring_buffer.hpp:256-268 | without a length nothing is patched, and the code is that of `write` |
| RingProofs.RecvAccounts | ring_buffer.hpp:87-207 | `on_recv` takes from the descriptor exactly the bytes it reports, and changes nothing when it reports none |
| RingProofs.RecvAppendsIff | ring_buffer.hpp:87-207 | received bytes are appended if and only if the descriptor is not about to fill the ring, which its input and the kernel's next attempts tell |
| RingProofs.RecvAlwaysAppendsIff | ring_buffer.hpp:87-207 | they are appended with every descriptor if and only if the head is at 0 or the tail at the end of the array |
| RingProofs.RecvSucceedsIff | ring_buffer.hpp:87-207 | bytes are received if and only if there is room behind the tail, input, and a transfer before ten retries |
| RingProofs.SendSucceedsIff | ring_buffer.hpp:270-391 | bytes are sent if and only if there are some between the head and the end of the array and a transfer before ten retries |
| RingProofs.SendAccounts | ring_buffer.hpp:270-391 | `on_send` removes from the front exactly the bytes the descriptor took and reports their number, for every pattern of short transfers, retries and failures |
| RingProofs.RecvReturns | ring_buffer.hpp:87-207 | the exact result of `on_recv`, from ring, input and the kernel's attempts: the offer for the first piece, plus, once that piece is full and ends the array, the offer for the second, each within ten tries; else the failure code |
| RingProofs.SendReturns | ring_buffer.hpp:270-391 | the exact result of `on_send` in the same way: all of both pieces when the kernel takes them |
| RingProofs.TransferIndices | ring_buffer.hpp:87-391 | `on_recv` moves the tail only and `on_send` the head only, by the bytes transferred, around the end |
| RingProofs.GivingUp | ring_buffer.hpp:97-124 | ten retries in a row yield 0 or -1 depending on the layout |
| RingProofs.RecvZeroIff | ring_buffer.hpp:87-207 | exactly when on_recv returns 0: no room, end of stream, nothing transferred, or giving up below the head |
| RingProofs.SendZeroIff | ring_buffer.hpp:270-391 | exactly when on_send returns 0: nothing to send, nothing transferred, or giving up in a ring that is not wrapped |
| RingProofs.TailAtEndReceivesNothing | ring_buffer.hpp:126-160 | with the tail at the end of the array nothing is ever received |
| RingModel.GivesUpIff | ring_buffer.hpp:129-155 | the loops of tries give up exactly when all ten tries ask for a retry |
| RingRuns.RingRefinesSequence | ring_buffer.hpp:27-254 | over every run from any well-formed ring whose writes and receptions meet their guards: bytes out, then bytes held, equal bytes held at first, then bytes in; indices and copies stay in the array |
| RingRuns.StuckForever | ring_buffer.hpp:32-35 | a ring empty with both indices at an end of the array never carries a byte again |
| RingRuns.CarriesIff | ring_buffer.hpp:27-35 | some run moves a byte into or out of a ring if and only if it is not such a one |
| RingRuns.YieldsIff | ring_buffer.hpp:27-35 | some run gets a byte out of it if and only if, further, it is not a one-byte ring with the head behind its byte |
| RingRuns.FreshRingCarriesNothing | ring_buffer.hpp:15-17 | a ring as constructed never carries a byte, whatever is done with it |
| RingRuns.DrainingReads | ring_buffer.hpp:78-82 | a read that takes all bytes leaves the ring in such a state exactly when it asked for just that many or the bytes ended at an end of the array |
| RingRuns.DrainingSends | ring_buffer.hpp:270-391 | an on_send that takes all bytes does so exactly when they ended at an end of the array |
| RingBuffer.Buffer.Write | ring_buffer.hpp:209-254 | over the array: the ring becomes what the specified `write` says, with its return value |
| RingBuffer.Buffer.Read | ring_buffer.hpp:37-85 | over the array: the ring and the caller's buffer become what the specified `read` says |
| RingBuffer.Buffer.BackWrite | ring_buffer.hpp:256-268 | over the array: the ring becomes what the specified `back_write` says |
| RingBuffer.Buffer.OnRecv | ring_buffer.hpp:87-207 | over the array: the ring, the descriptor and the result are as specified |
| RingBuffer.Buffer.OnSend | ring_buffer.hpp:270-391 | over the array: the ring, the descriptor and the result are as specified |
| RingBuffer.TryReading | ring_buffer.hpp:129-155 | the bounded loop of reads yields the first outcome that is not a retry |
| RingBuffer.TryWriting | ring_buffer.hpp:312-338 | the bounded loop of writes yields the first outcome that is not a retry |

## Left out

- `swapcontext`, `makecontext` and stacks: a stored context is a continuation tag and a flag; that deleting a tasklet frees the stack its own code is on (`tasklet.cpp:290-294`) is not modelled, only that the thread ends there.
- Machine values: the interleaving of threads is modelled on values, one step a function of the state; updates in place and aliasing are captured by the classes of `TaskletService.dfy` and `Threadlet.dfy`, which cover the stretches between context switches.
- Reading `_stop` outside the mutex (`threadlet.cpp:13`) is one atomic step with the deletion that follows it; both concern the threadlet's own fields.
- Requests.DispatchDelivers: assumes, as do the steps that dispatch, that the target exists and has not been deleted, as the callers must ensure; sending to a deleted tasklet is undefined in the program.
- Safety.NoStaleTimeout: assumes, like the program, that user code does not send the type `no_msg`; `Machine.Allowed` says so and excludes nothing else.
- Wall-clock time: `_time` is set to arbitrary naturals by the timer while it does not hold the mutex, and timeouts are naturals; the 64-bit wrap-around of `now() + (int)(timeout*10)` and negative timeouts are not modelled.
- `port_service`, sockets, `netfile` and the netfile paths of `tasklet.cpp`: of these only the dispatch of a message under the mutex is a step.
- The spin lock, atomics and channel ids: see the decisions above; uniqueness of ids is not claimed.
- `stop(false)`, `pool_size`, logging, exception texts and the thread constructors.
- Safety.FieldsAgree: the machine's state has no link fields; that these agree is TaskletService.Service.LinksAgree.
- Tour.WholeLife: one concrete run with one tasklet; what holds of all runs is proved elsewhere.
- Balancing of the tree behind `std::set`: `SleeperSet.dfy` holds for trees of any shape.
- Operations on a `std::set` whose order a zeroed deadline has broken: the standard of C++ leaves them undefined, so nothing is claimed after the erase at which the order breaks but what the timer's scan, which goes by position, then does.
- RingProofs.BackWriteIff: with RingProofs.BackWriteLong, for patches that start inside the contents; one that goes back not at all or behind the head is specified by `RingModel.BackWrite` only.
- Integer widths of the ring: indices and lengths are unbounded integers, all of them bounded by the size of the array.
