# Verification of stp

stp runs many light processes on a few threads. Each process is a mailbox and a set of coroutines; a scheduler
hands processes to workers; a timer process answers timeouts from a hierarchical wheel. The Dafny files beside
this text model the parts where most can go wrong, and prove what those parts are for.

| file | models |
|---|---|
| `Bits.dfy` | 64-bit words: shifts, masks, and what they mean arithmetically |
| `WheelMath.dfy` | the digits of a 64-bit clock: which slot is right for which expiry, and how that changes with a tick |
| `NaiveTimer.dfy` | what a timer service means: at each tick look at every timer, answer those that are due |
| `WheelLayout.dfy` | nodes, lists linked in place, and what each list operation keeps |
| `TimingWheel.dfy` | the wheel itself, a class over arrays of lists of heap nodes, proved to do what `NaiveTimer` says |
| `Scheduler.dfy` | workers, senders and spawners as a state machine, one action per atomic operation or locked section |
| `Common.dfy` | optional values, coroutine names and session ids |
| `ProcessModel.dfy` | one process, as functions on values: its coroutines, sessions and requests, from creation to destruction |
| `ProcessLife.dfy` | what every life of a process keeps, and what that comes to |
| `ProcessEnd.dfy` | when a process goes down, and a response that goes astray |
| `ProcessActs.dfy` | how the state of a process follows from the turns that its user code ran |
| `Process.dfy` | the process as a class, each method proved to do what `ProcessModel` says |
| `MutexModel.dfy` | the mutex of coroutines, as functions on values, and what every run of it keeps |
| `CoMutex.dfy` | the mutex as a class |
| `StackModel.dfy` | the size of a stack and the pool of stacks, as functions on values, and what every run of it keeps |
| `StackPool.dfy` | the pool as a class |
| `StreamIo.dfy` | the stream loops |
| `Sessions.dfy` | the move-only owner of a session id |

## The main results

**The wheel.** Over any interleaving of timeout requests and clock updates, the wheel of 2^14 slots and five levels of
1023 does exactly what a scan of all timers at every tick does (`TimingWheel.Timer.Tick`, `Update`, `Timeout`,
`Serve`). For every sequence of messages, each request whose time has come has exactly one response, to the process
and session that asked, `timeout` after the clock it was asked at (`TimingWheel.AnsweredAsAsked`). Every slot always
holds only timers that are right for the clock; the searches of `_queue` and `_tick` always succeed over the full
64-bit range, where the fifth shift wraps; one cascade per rollover is enough; and a timer is cascaded at most five
times, since the number of its cascades and the level of its slot never add up to more than five.

**The scheduler.** For any number of workers, senders and processes, in every reachable state: a live process is
scheduled exactly once, one that exits is unwound by one worker and scheduled by nobody, so that no process is ever
run by two workers at once; the reference count is the number of references, so that an object is deleted once and
never while it is queued, run or held; a process that exits is taken from the registry by the worker that unwound it
(`Scheduler.Retired`); no wakeup is lost; and no worker idles while there is work without a signal under way.

**A process.** A life of a process (`ProcessModel.Live`) is any sequence of messages pushed and of calls of `resume`,
in which user code is any list of turns, each any list of calls and a way to switch back. The class does exactly what
the functions say (`Process.Live`), and of the functions it is proved, for every life:

- Each of the two queues is served in order, one turn for each coroutine that leaves it (`ProcessLife.ServedInOrder`).
- Requests and notifications are served once each, in the order in which they were pushed, and none waits while the
  coroutine that serves sleeps (`ProcessLife.ServedOnce`, `ProcessLife.NoMailWaits`).
- What the state holds follows from the turns that were run: which coroutines exist and in which order they were
  queued, who is suspended or blocked, which session ids are in use, and which requests were answered
  (`ProcessActs.SpawnedExactly`, `PlacedByLastTurn`, `SessionsExactly`, `ClosedExactly`, `NotedByActs`).
- When the process is destroyed, every request it accepted was answered or is aborted. How often is exact: once if it
  was taken and not answered, and once more if it is still in the inbox (`ProcessLife.NoneForgotten`,
  `ProcessLife.AbortsCounted`).
- A coroutine blocked in a request stays blocked until a response with the negation of its session
  (`ProcessLife.BlockedUntilResponse`). A response wakes nobody, or the coroutine that waits for it, or one that waits
  for the response to a later request under the same session; never the last, if no two responses answer the same
  request (`ProcessLife.ResponsesReachRequesters`). The double abort above does answer one twice, and
  `ProcessEnd.GoesAstray` shows what can follow.
- `dispatch` is false exactly if no coroutine is alive or the process exited (`ProcessLife.DispatchIsAlive`), and
  `resume` returns down exactly if a coroutine left its turn with the exception that exits the process, the message it
  took was the kill order, or no coroutine is alive (`ProcessEnd.DownExactly`). Otherwise it returns resume exactly if
  it took a message, and break exactly if it took none and none is left (`ProcessEnd.ResultExactly`).

That a coroutine is destroyed exactly once is true only under a condition. When the process is down, it was destroyed
exactly once if and only if it never yielded in a turn that began after an exception was delivered to it
(`ProcessLife.DestroyedOnce`); if user code also blocks on sessions that belong to others, there must be as many such
turns as times it lost its place. `resume` puts a coroutine with an exception among the zombies even when it only
yielded (`src/process.cpp:503-518`), and then it is still in the container it is resumed from. The least example is a
process killed while its coroutine is suspended, which suspends once more: `ProcessLife.DestroyedTwice`.

**The coroutine mutex.** For any number of coroutines and any order of steps (`MutexModel.Run`, which `CoMutex.Use`
does on the class): whoever got the mutex left it before anybody got it again, and those that got it and those that
wait are those that asked, in that order, less exactly those that gave up. The assertion after `suspend` in `lock` and
both assertions of `unlock` are proved of every coroutine that returns from `lock` and of every owner. That the mutex
is handed over, so that the front of the queue owns it or is about to run and all others are suspended, holds
throughout a run if and only if no waiter throws while others wait behind it and the process does not exit while
somebody waits behind the front (`MutexModel.HandedOverThroughout`). A waiter that had an exception before it came
throws when it is given the mutex, and nobody wakes the next: `MutexModel.Stuck`.

Such a waiter is also buried while it waits. A run comes to destroy a coroutine that is still suspended or in the
queue if and only if the process sweeps its zombies while one is there that suspended, since the last sweep, after an
exception was delivered to it (`MutexModel.DanglingExactly`); so it never does if no coroutine suspends after that
(`MutexModel.NeverDangles`), and four steps are enough if one does (`MutexModel.Dangles`). A run is followed up to
such a sweep; what a process does with the memory of a destroyed coroutine is not described.

**Stacks.** For any sequence of allocations, frees and writes (`StackModel.Run`, `StackPool.Use`): a stack gets the
least number of pages that holds the request, eight more, and mapped memory for these and two guard pages, if and only
if `(10 + pages) * page < 2^64` (`StackModel.AllocatesRight`). A request for the last page of the address space gets
eight pages, and one for all but nine pages gets a stack of nearly 2^64 bytes in a single mapped page
(`StackModel.StackSizeWraps`, `StackModel.MapLengthWraps`). As long as no stack is handed out that does not fit with
its guard pages, and no stack without a page is freed, the stacks in use overlap neither each other nor their guard
pages nor a pooled stack (`StackModel.StacksApart`); the first such step makes a call fail or hands out a stack
without its memory (`StackModel.RunKeeps`).

**Streams and sessions.** The stream loops deliver exactly the bytes they report, in order, and report success for less
exactly if the last transfer was short without an error. Any program that creates, moves, assigns and destroys sessions
releases every id as often as it was given out.

## Assumptions

The helpers of the `wild` library are not part of this model. An `AppendList` is taken to be a queue, a `FreeList` a
collection that gives back what was put in (modelled as a stack), an `IdAllocator` to return any id of 1 to 2^31 - 1
that is not in use, a `Signaler` to be a counting semaphore without spurious wakeups, and a `WITH_LOCK` block to be
atomic. Atomic variables are sequentially consistent. `mmap` returns memory that overlaps no mapped stack. A timer
request or clock beyond 2^64 - 1 is outside the model, as the code asserts that it does not occur
(`src/time.cpp:115` and `src/time.cpp:153`).

In `ProcessModel` the user code of one `resume` is a list of turns. If it would need more turns than the list holds, a
coroutine runs that never switches back, and the process is `Stuck`; every statement is for every list. Unordered
containers are walked in any order, which may differ each time (`Orders`). Messages pushed by other threads while a
coroutine runs are calls of its turn.

## Model

| member | source | states |
|---|---|---|
| Bits.AndLowMask | src/time.cpp:117 | masking with 2^k - 1 keeps the low k bits |
| Bits.OrMaskAgrees | src/time.cpp:125 | or-ing two words with 2^k - 1 makes them equal exactly when they agree above bit k |
| Bits.AndHighMask | src/context.cpp:32 | masking with the complement of 2^k - 1 clears the low k bits and nothing else |
| Bits.ShlSmall | src/time.cpp:123 | a shift that loses no bits multiplies |
| NaiveTimer.TickExact | src/time.cpp:145-167 | one tick keeps the meaning of the service: exactly the timers with a passed expiry have been answered, each at its expiry and to its requester |
| NaiveTimer.AdvanceExact | src/time.cpp:169-174 | moving the clock keeps it, over any distance, and moves the clock to where it was told |
| NaiveTimer.RunExact | src/time.cpp:193-203 | over every interleaving of requests and clock updates no timer is early, late, lost or answered twice |
| NaiveTimer.RunMakes | src/time.cpp:169-183 | the clock is the greatest that was named, and the timers are those that were asked for, in that order: each for the process and session that asked, running out `timeout` after the clock it was asked at |
| NaiveTimer.ClockIsGreatest | src/time.cpp:169-174 | the clock is the greatest time of an update, or 0 |
| WheelMath.DueIsLeast | src/time.cpp:147-149 | a timer that is due can only be in the one slot that a tick drains |
| WheelMath.LeastIsDue | src/time.cpp:147-149 | every timer that may be in that slot is due |
| WheelMath.TickInsideBlock | src/time.cpp:151-152 | a tick without rollover leaves every slot right for the new clock |
| WheelMath.WrappedLevelEmpty | src/time.cpp:157-161 | a level whose digit has become 0 holds nothing, so skipping it is right |
| WheelMath.TickRollover | src/time.cpp:152-167 | on a rollover only the slot of the first nonzero digit is stale; all others are right for the new clock |
| WheelMath.CascadeNotOverdue | src/time.cpp:115 | a cascaded timer is never overdue, so the assertion in `_queue` holds |
| WheelMath.PlaceAtLevel | src/time.cpp:125-129 | at the first level where the times agree the digit is 1 to 1023, and the slot of that digit is right |
| WheelMath.LastLevelMatches | src/time.cpp:131-132 | above the fifth level any two 64-bit times agree, so the search succeeds |
| WheelMath.RolloverHasDigit | src/time.cpp:153-165 | a clock that is not 0 has a nonzero digit among the levels left, so the search of `_tick` succeeds |
| WheelMath.ShlBase | src/time.cpp:121-124 | the wheel's powers are shifted exactly, and the fifth shift wraps to 0 |
| WheelLayout.ListAppend | src/time.cpp:49-53 | appending to a list through the address of its last `next`, without touching the `next` of the new node |
| WheelLayout.ListClear | src/time.cpp:55-61 | clearing a list ends it with null, returns its first node and leaves it empty |
| WheelLayout.AttachSound | src/time.cpp:136-143 | linking the next node of a walked chain into any slot keeps every list, the free nodes, the rest of the walk and the answers |
| WheelLayout.DetachSound | src/time.cpp:55-61 | detaching a slot list turns it into a chain to walk, with every other list as it was |
| WheelLayout.FireSound | src/time.cpp:101-109 | answering a node and freeing it keeps every list and records the answer under the timer's name |
| WheelLayout.AdmitSound | src/time.cpp:176-181 | a new or recycled node for a new timer keeps every list and every earlier timer |
| WheelLayout.FollowChain | src/time.cpp:136-141 | following `next` through a detached chain visits exactly the appended sequence |
| TimingWheel.FindSlot | src/time.cpp:111-134 | the slot `_queue` picks is right for the expiry, of the lowest rank at which the times agree, and always exists |
| TimingWheel.FindRollover | src/time.cpp:152-166 | the first level with a nonzero digit on a rollover, which always exists |
| TimingWheel.LevelMask | src/time.cpp:122-125 | the masked comparison at a level asks whether the times agree above its digit, also when the mask is all ones |
| TimingWheel.DrainAnswers | src/time.cpp:147-149 | the drained slot holds exactly the timers that the scan finds due |
| TimingWheel.DrainLeavesAhead | src/time.cpp:149-151 | after draining, every timer left expires after the clock |
| TimingWheel.ClockRollsOver | src/time.cpp:151-167 | after the clock moved over a rollover only the slot to cascade is stale |
| TimingWheel.StaleDetached | src/time.cpp:162 | once that slot is detached, all that is left in the wheel is right and each detached node can be queued at a lower rank |
| TimingWheel.AttachTimely | src/time.cpp:136-143 | queueing a node where the search says keeps every slot right and strictly lowers the rank left to it |
| TimingWheel.Timer.Queue | src/time.cpp:111-134 | a node goes into one slot that is right for the clock, and no other node moves |
| TimingWheel.Timer.QueueList | src/time.cpp:136-143 | every node of a detached list is queued although queueing rewrites the links being followed |
| TimingWheel.Timer.SendList | src/time.cpp:101-109 | exactly the timers of the list are answered, once each, and their nodes are free, although freeing a node overwrites its link |
| TimingWheel.Timer.FreeNode | src/time.cpp:91-94 | the node is first on the free list, which links through its `next` |
| TimingWheel.Timer.Tick | src/time.cpp:145-167 | a tick of the wheel is a tick of the scan |
| TimingWheel.Timer.Update | src/time.cpp:169-174 | moving the wheel's clock is moving the scan's clock |
| TimingWheel.Timer.Timeout | src/time.cpp:176-183 | a request adds one timer with its expiry, and nothing else changes |
| TimingWheel.Timer.CascadesAtMostFive | src/time.cpp:152-166 | a timer of the wheel was cascaded at most five times |
| TimingWheel.LogAnsweredOnce | src/time.cpp:96-109 | the log has one response for each timer whose expiry has passed, and no others |
| TimingWheel.AnsweredAsAsked | src/time.cpp:176-203 | each request whose time has come has one response, to the process and session that asked, `timeout` after the clock it was asked at; no other response was sent |
| TimingWheel.Serve | src/time.cpp:193-203 | the timer process over any sequence of messages does what the scan does, and the log answers every request whose time has come exactly once, at its time and to whoever asked |
| Scheduler.StepInv | src/process.cpp:833-863 | every action keeps the token, the references, the mail and the work invariants |
| Scheduler.RunInv | src/process.cpp:1163-1201 | they hold over every run from any number of idle workers |
| Scheduler.ScheduledOnce | src/process.cpp:851-871 | a process that does not exit has exactly one of: one actor that runs or enqueues it, one queue entry, the wait flag; one that exits has none and is unwound by one worker at most; so no two actors ever have it at once |
| Scheduler.OneExiterKept | src/process.cpp:520-534 | every action keeps that a process is unwound by one worker at most, also while it pushes to its own mailbox |
| Scheduler.DownWhen | src/process.cpp:607-611 | a process goes down exactly when it exits by itself or takes the kill order from its mailbox; the worker that ran it then unwinds it |
| Scheduler.RetireKept | src/process.cpp:845-849 | every action keeps that a process that exits is in the registry exactly as long as a worker unwinds it or is about to retire it |
| Scheduler.Retired | src/process.cpp:833-863 | a process is in the registry until it exits and is retired; after that it was deleted exactly if it is in no queue and nobody holds it |
| Scheduler.TokenKept | src/process.cpp:85-105 | each action moves the token of one process at most, and keeps all others |
| Scheduler.CountsReferences | src/process.cpp:833-843 | `_refcnt` is the number of references in the registry, the queues, the workers, the callers of `resume` and the handles; the object was deleted, once, exactly if there are none |
| Scheduler.OwnKept | src/process.cpp:395-440 | each action gains, drops or hands on the references it should |
| Scheduler.NoUseAfterDelete | src/process.cpp:837-863 | no action touches a process object that was deleted |
| Scheduler.NoLostWakeup | src/process.cpp:85-105 | a process that waits with mail has a sender between its push and its compare-and-swap |
| Scheduler.MailKept | src/process.cpp:445-450 | every action keeps that |
| Scheduler.WorkConserving | src/process.cpp:1163-1201 | with idle workers, the queues are no longer than the signals under way; with work and no signal under way, no worker waits |
| Scheduler.WorkKept | src/process.cpp:1180-1201 | every action keeps that |
| Scheduler.MailboxFifo | src/process.cpp:85-105 | the two-stage mailbox is one queue: an action appends a message, takes the first, or leaves it alone |
| Scheduler.QueueStep | src/process.cpp:1183-1198 | the two run queues are one queue: an action appends, pops the first or leaves it alone |
| Scheduler.NeverStuck | src/process.cpp:1163-1201 | every actor has a next action but a worker that waits without a signal; who holds, runs or unwinds a process may push to it |
| Scheduler.WokenExactly | src/process.cpp:1180-1201 | a worker counts as woken from its wakeup to its next look at the queues |
| ProcessModel.ResponseRoundTrip | src/process.cpp:169-181 | negation undoes itself and makes a response of a request exactly for the ids that are allocated and for 2^31 |
| ProcessModel.Run | src/process.cpp:546-566 | when it returns without an exit nothing is queued, no zombie is left, and no coroutine serves with a filled inbox |
| ProcessLife.CallsKeep | src/process.cpp:282-300 | whatever calls user code makes in a turn, with messages arriving meanwhile, the books of the coroutines, the order of the queues, the sessions, the requests and the responses stay right |
| ProcessLife.PopBalanced | src/process.cpp:554-559 | the coroutine at the front of a queue exists and leaves it for the hand of whoever resumes it |
| ProcessLife.FinishBalanced | src/process.cpp:503-518 | a turn that ends, yields, yields after an exception or takes the place of another is booked as that and nothing else |
| ProcessLife.FinishKeeps | src/process.cpp:452-462 | however a coroutine switches back, all invariants hold again with nobody running |
| ProcessLife.AllocateResponses | src/process.cpp:909-920 | a coroutine that blocks in a request waits for the response to that request, also if the id was used before |
| ProcessLife.YieldIsAnswered | src/process.cpp:621-625 | `yield` makes a request and pushes the response to that very request, so it counts among those that reach their requester |
| ProcessLife.ResumeOneKeeps | src/process.cpp:503-518 | resuming one coroutine keeps all invariants and wakes nobody that is blocked |
| ProcessLife.WokenForMail | src/process.cpp:560-563 | the coroutine that serves is woken if and only if the inbox has something |
| ProcessLife.ResumeAllKeeps | src/process.cpp:528-530 | so does serving a queue, whatever its coroutines queue meanwhile |
| ProcessLife.RunKeeps | src/process.cpp:546-566 | so does `run`, over all its rounds |
| ProcessLife.InterruptKeeps | src/process.cpp:486-501 | interrupting moves each blocked and each suspended coroutine to the wakeup queue once, in any order of the containers |
| ProcessLife.InterruptReaches | src/process.cpp:486-501 | every coroutine that is suspended or blocked goes behind those that are woken already, once for each of its places, with an exit exception, and no exception of another changes |
| ProcessLife.AbandonKeeps | src/process.cpp:481-484 | coroutines that never started are destroyed once |
| ProcessLife.UnwindKeeps | src/process.cpp:520-534 | `exit` comes to an end only when nothing is left in any container, whatever was spawned or blocked meanwhile |
| ProcessLife.TakeResponseMatched | src/process.cpp:593-606 | a response that is taken finds the coroutine whose request it answers still blocked on that session |
| ProcessLife.TakeReached | src/process.cpp:593-606 | a response wakes whoever made the latest request under its session, which is not earlier than the request it answers |
| ProcessLife.TakeKeepsReady | src/process.cpp:585-614 | handling a message of any kind keeps all invariants |
| ProcessLife.LiveKeeps | src/process.cpp:580-632 | the invariants hold over every life of a process; when it is down nothing is left in any container |
| ProcessLife.InOnePlace | src/process.cpp:770-800 | a coroutine that never yielded after an exception nor lost its place is in exactly one of: hand, spawn queue, wakeup queue, suspended, one session, zombies, destroyed |
| ProcessLife.DestroyedOnce | src/process.cpp:503-534 | when the process is down, a coroutine was destroyed exactly once if and only if none of its yielding turns began with an exception, given that user code blocks on no foreign session; the exact number otherwise |
| ProcessLife.DestroyedTwice | src/process.cpp:486-534 | a process killed when its only coroutine is suspended, which suspends once more, destroys it twice |
| ProcessLife.ServedInOrder | src/process.cpp:546-566 | both queues are served in the order in which coroutines were put into them, and only those abandoned by `exit` never run |
| ProcessLife.ServedOnce | src/process.cpp:585-614 | the requests and notifications that were taken from the mailbox, but the kill order, are served or in the inbox, once each and in the order of the pushes |
| ProcessLife.NoMailWaits | src/process.cpp:560-563 | after `dispatch` the inbox is empty if the coroutine that waits in `serve` still sleeps |
| ProcessLife.NoneForgotten | src/process.cpp:751-768 | every request that was ever accepted was answered, or is among what the destructor aborts |
| ProcessLife.NotedExactly | src/process.cpp:662-668 | the process notes a source and session exactly if it took a request with them and has not answered it |
| ProcessLife.AbortAnswers | src/process.cpp:670-672 | an abort goes to the requester and is a response to its session |
| ProcessLife.AbortsCounted | src/process.cpp:751-768 | how often the destructor aborts the requests with a source and session: once if one was taken and not answered, once for each in the inbox, once for each in the mailbox |
| ProcessLife.AbortedTwice | src/process.cpp:751-761 | a request that is neither answered nor served when the process is destroyed is aborted twice |
| ProcessLife.AbortsAreDue | src/process.cpp:751-768 | every abort of the destructor is for a request that was accepted, and that was not answered unless it is still in the inbox |
| ProcessLife.ResponsesReachRequesters | src/process.cpp:593-606 | every response that was taken woke nobody, or the coroutine that waited for it, or one that waited for the response to a later request under the same session; the one that waited for it, if no two responses answer the same request |
| ProcessLife.BlockedUntilResponse | src/process.cpp:464-472 | a blocked coroutine stays blocked over a whole `resume`, unless the process goes down or the message taken is the response to its session; then it is the last in the wakeup queue, with the exception of the response if there is one |
| ProcessLife.AliveIsActive | src/process.cpp:543 | with empty queues, nobody is blocked or suspended exactly if every body has ended or lost its place |
| ProcessLife.DispatchIsAlive | src/process.cpp:536-544 | `dispatch` is false exactly if no coroutine is alive or the process exited, and then all of them are destroyed |
| ProcessEnd.TurnFollows | src/process.cpp:315-328 | a coroutine leaves a turn with the exception that was delivered to it, or else with that which ended it |
| ProcessEnd.ResumeAllThrows | src/process.cpp:503-518 | serving a queue is broken off exactly if a coroutine leaves its turn with the exception that exits the process, and right after that turn |
| ProcessEnd.RunThrows | src/process.cpp:536-566 | so is `run`, over all its rounds |
| ProcessEnd.DownExactly | src/process.cpp:580-619 | in any life, `resume` returns down if and only if a coroutine left its turn with the exception that exits the process, the message taken was the kill order, or no coroutine is alive |
| ProcessEnd.ResultExactly | src/process.cpp:580-619 | in any life, a `resume` that does not bring the process down returns break if and only if it took no message and none is left, and resume if and only if it took one, of whatever type |
| ProcessEnd.KindsOf | src/process.cpp:588-611 | which sessions make requests and notifications, and that only a notification can be the kill order |
| ProcessActs.CallDoes | src/process.cpp:445-472 | what each call of user code does, and that it changes nothing else |
| ProcessActs.PushedArrives | src/process.cpp:445-450 | a message pushed from outside is last in the mailbox, whatever the process has come to |
| ProcessActs.LiveActs | src/process.cpp:580-632 | over every life the state follows from the turns that were run, as the next rows say |
| ProcessActs.ClosedExactly | src/process.cpp:627-632 | a request that was taken is closed if and only if a turn after that called `response` with its source and session |
| ProcessActs.NotedByActs | src/process.cpp:662-668 | a source and session are noted if and only if a request with them was taken that no turn has answered since |
| ProcessActs.SpawnedExactly | src/process.cpp:649-653 | the coroutines are the first one and those that turns spawned, queued in that order |
| ProcessActs.PlacedByLastTurn | src/process.cpp:452-462 | who is suspended has last yielded by suspending, who is blocked by blocking on that session |
| ProcessActs.SessionsExactly | src/process.cpp:636-643 | a session id is in use exactly as long as the coroutine that allocated it to yield has not run since |
| ProcessEnd.GoesAstray | src/process.cpp:593-606 | a second response to a request wakes the requester of a later one that got the same session |
| Process.Process.PushMessage | src/process.cpp:445-450 | the message is last in the mailbox, and nothing else changes |
| Process.Process.Spawn | src/process.cpp:649-653 | a new coroutine is last in the spawn queue, without an exception |
| Process.Process.Wakeup | src/process.cpp:568-572 | only a suspended coroutine is woken, and goes last into the wakeup queue |
| Process.Process.Respond | src/process.cpp:627-632 | a response closes the request it answers and no other |
| Process.Process.TakeInbox | src/process.cpp:706 | the first message leaves the inbox and counts as served |
| Process.Process.Perform | src/process.cpp:445-472 | each call of user code has the effect the model gives it, and that is what the call is for (`ProcessActs.Does`) |
| Process.Process.PerformAll | src/process.cpp:282-300 | all calls of a turn are made, in order |
| Process.Process.NewSession | src/process.cpp:636-639 | the running coroutine owns the new id |
| Process.Process.ReleaseSession | src/process.hpp:48-52 | the id is free again once the coroutine runs on |
| Process.Process.Pass | src/process.cpp:621-625 | a yielding coroutine owns a new id, is blocked on it, and its own response is last in the mailbox |
| Process.Process.Serve | src/process.cpp:699-707 | what is left in the inbox is served in order before the coroutine waits for more |
| Process.Process.SwitchBack | src/process.cpp:315-328 | a turn ends blocked, suspended, or with an exception in the result |
| Process.Process.Transfer | src/process.cpp:282-300 | one turn: session released, calls made, switched back, and recorded with what it began and ended with |
| Process.Process.Resume | src/process.cpp:503-518 | after its turn a coroutine with an exception is a zombie; the exception of a process exit goes on unless the process exits already |
| Process.Process.ResumeAll | src/process.cpp:554-559 | the loop resumes front after front until the queue is empty or the process is told to exit |
| Process.Process.WakeServer | src/process.cpp:560-563 | the serving coroutine is woken if the inbox has something, and has to come back to wait again |
| Process.Process.Run | src/process.cpp:546-566 | the loop over both queues and the inbox, with the sweep at its end |
| Process.Process.SweepZombies | src/process.cpp:474-479 | each zombie is destroyed, in order |
| Process.Process.InterruptBlocked | src/process.cpp:486-493 | every blocked coroutine is woken, once for each session, with an exit exception |
| Process.Process.InterruptSuspended | src/process.cpp:495-501 | every suspended coroutine is woken once with an exit exception |
| Process.Process.Exit | src/process.cpp:520-534 | interrupted and resumed until a round finds nobody to wake; then the spawned are abandoned and all zombies destroyed |
| Process.Process.Dispatch | src/process.cpp:536-544 | an exit is caught and done; otherwise the process lives exactly if somebody is blocked or suspended |
| Process.Process.TakeResponse | src/process.cpp:593-606 | the coroutine blocked on the negation of the session leaves it and is woken, with the exception if there is one |
| Process.Process.TakeMessage | src/process.cpp:585-614 | the first message leaves the mailbox; a request is noted and, like a notification, goes last into the inbox |
| Process.Process.ResumeProcess | src/process.cpp:580-619 | coroutines run, one message is taken; down, break and resume are returned in the cases of the code |
| Process.Process.AbortNoted | src/process.cpp:752-754 | one abort for each noted request, in the order they are found in |
| Process.Process.AbortQueue | src/process.cpp:755-767 | one abort for each request in a queue, in order, and none for other messages |
| Process.Process.Destroy | src/process.cpp:751-768 | the aborts are those of the noted requests, of the inbox and of the mailbox, in this order |
| Process.Live | src/process.cpp:580-632 | the object after any events is the state of the model after the same events |
| MutexModel.WithoutOne | src/process.cpp:1071 | erasing what `std::remove` leaves takes exactly one element out, and the order of the rest stays |
| MutexModel.Exclusive | src/process.cpp:1058-1097 | in a consistent history, between any two times the mutex was got the first owner left it |
| MutexModel.GrantKeeps | src/process.cpp:1061-1062 | getting an empty mutex keeps the invariant |
| MutexModel.WaitKeeps | src/process.cpp:1063-1067 | the assertion before waiting holds, and a new waiter changes nothing for those in front of it |
| MutexModel.OwnerIsFront | src/process.cpp:1087-1091 | a coroutine that runs owns the mutex exactly if it is the front of the queue |
| MutexModel.UnlockKeeps | src/process.cpp:1087-1097 | for the owner both assertions of `unlock` hold, and the mutex is handed to the next if it was handed over before |
| MutexModel.AcquireKeeps | src/process.cpp:1067-1069 | when `suspend` returns in `lock`, both assertions after it hold and nobody owned the mutex |
| MutexModel.ThrowKeeps | src/process.cpp:1070-1073 | a waiter that throws leaves the queue and all other claims stay; it breaks the handover exactly if others were behind it |
| MutexModel.InterruptKeeps | src/process.cpp:495-501 | an exit of the process keeps mutual exclusion and the order; it breaks the handover exactly if somebody waits behind the front |
| MutexModel.StepKeeps | src/process.cpp:1058-1097 | every step keeps the invariant, and breaks the handover exactly when `Breaks` says so |
| MutexModel.RunKeeps | src/process.cpp:1058-1097 | the invariant holds over every run |
| MutexModel.MutualExclusion | src/process.cpp:1058-1097 | over every run, whoever got the mutex left it before anybody got it again |
| MutexModel.FirstComeFirstServed | src/process.cpp:1058-1097 | over every run, the grants and then the waiters are those that asked, in that order, less exactly those that gave up |
| MutexModel.RunRecords | src/process.cpp:1058-1097 | over every run, who asked, who got and left the mutex and who gave up follow from the operations: `try_lock` on a free mutex gets it, `lock` always asks, a resumed waiter gets it unless an exception was delivered to it |
| MutexModel.LockDoes | src/process.cpp:1058-1085 | a free mutex is taken at once by `lock` and `try_lock`; else `lock` waits at the end and `try_lock` does nothing |
| MutexModel.UnlockDoes | src/process.cpp:1087-1097 | the owner goes, and the next is woken exactly if it sleeps |
| MutexModel.ResumeDoes | src/process.cpp:1066-1073 | a waiter that is resumed has the mutex, or is out of the queue that keeps all others |
| MutexModel.AnyRunningMay | src/process.cpp:1058-1097 | a coroutine that runs may do everything but lock what it owns and unlock what it does not |
| MutexModel.HandedOverThroughout | src/process.cpp:1087-1097 | the mutex is handed over at every point of a run if and only if no waiter threw with others behind it and the process did not exit with somebody behind the front |
| MutexModel.DanglingExactly | src/process.cpp:474-479 | a run destroys a coroutine that is still suspended or in the queue if and only if a sweep finds one there that had suspended, since the sweep before, after an exception was delivered to it |
| MutexModel.ExceptedExactly | src/process.cpp:486-501 | a coroutine has an exception exactly if one was delivered to it while it was blocked or it was interrupted while suspended |
| MutexModel.BuriedExactly | src/process.cpp:503-518 | the zombies are the coroutines that suspended, since the last sweep, after an exception was delivered to them |
| MutexModel.NeverDangles | src/process.cpp:474-518 | if no coroutine suspends after an exception was delivered to it, no coroutine is destroyed too early |
| MutexModel.Dangles | src/process.cpp:1058-1075 | a waiter that came with an exception is destroyed by the next sweep while it is suspended and in the queue |
| MutexModel.Stuck | src/process.cpp:1066-1073 | after a waiter that came with an exception nobody owns the mutex and nobody is woken |
| CoMutex.Mutex.Lock | src/process.cpp:1058-1075 | gets the mutex at once exactly if the queue is empty, otherwise waits at its end, buried already if it has an exception |
| CoMutex.Mutex.TryLock | src/process.cpp:1077-1085 | returns true exactly if the mutex was free, and then the caller owns it and is alone in the queue; otherwise nothing changes |
| CoMutex.Mutex.Unlock | src/process.cpp:1087-1097 | the owner is the front and leaves, and the next is woken if it is suspended |
| CoMutex.Mutex.ResumeNext | src/process.cpp:1066-1073 | a resumed waiter has the mutex, or throws and is out of the queue |
| CoMutex.Mutex.Interrupt | src/process.cpp:495-501 | all suspended coroutines are woken with an exception, in the order they are found in |
| CoMutex.Use | src/process.cpp:1058-1097 | the object after any operations is the state of the model after the same operations |
| StackModel.StackSizeLeast | src/context.cpp:29-37 | the size is the least number of pages that holds the request, and eight more, exactly if that fits a word; it is 0 exactly if it is 2^64; it is always whole pages |
| StackModel.StackFits | src/context.cpp:29-50 | size and length of the mapping are both right exactly if `(10 + pages) * page` fits a word |
| StackModel.MapLengthWraps | src/context.cpp:50 | a request for all but nine pages gets a stack of all but one page in one page of memory |
| StackModel.StackSizeWraps | src/context.cpp:30-34 | a request for nearly the whole address space gets eight pages |
| StackModel.RoundUpPages | src/context.cpp:30-33 | the masked addition rounds up to whole pages or drops to 0 |
| StackModel.ChainFrame | src/context.cpp:66-67 | a write outside the pooled stacks leaves their list as it is |
| StackModel.TakeKeeps | src/context.cpp:41-45 | taking the first stack of a pool keeps all pools right |
| StackModel.PutKeeps | src/context.cpp:63-68 | putting a stack back keeps all pools right, and it was in none |
| StackModel.MstackKeeps | src/context.cpp:29-57 | an allocation gives out a stack that was not in use, of the size asked for and with memory of its own, unless stack and guard pages do not fit the address space, and then not |
| StackModel.MunstackKeeps | src/context.cpp:59-76 | a stack that is given back is the first of its pool or unmapped; an empty one faults |
| StackModel.FreesRight | src/context.cpp:59-76 | a freed stack is first in its pool with its memory, or its mapping is gone; it is not in use |
| StackModel.HoldersMay | src/context.cpp:50-76 | who holds a stack may free it and write to it, and a write changes one word |
| StackModel.WriteKeeps | src/context.cpp:50-55 | what a coroutine writes to its own stack leaves all pools right |
| StackModel.RunKeeps | src/context.cpp:29-76 | a run is sound exactly if no allocation overflows and no empty stack is freed, and then the invariant holds |
| StackModel.StacksApart | src/context.cpp:29-76 | after any such run each stack in use is mapped with its guard pages, apart from all others, nothing else is mapped but for pooled stacks, and each pool is a linked list of unused stacks of its size |
| StackModel.ReusesFree | src/context.cpp:37-48 | nothing is mapped while a stack of the size asked for is not in use |
| StackModel.AllocatesRight | src/context.cpp:29-57 | an allocation gives out the least whole pages and eight more, with memory for them and the guard pages, if and only if `(10 + pages) * page` fits a word |
| StackPool.StackPool.Mstack | src/context.cpp:29-57 | the first stack of the right pool or new memory, with the length of the mapping as a word; the stack and its size are returned |
| StackPool.StackPool.Munstack | src/context.cpp:59-76 | the stack is the first of its pool, or its mapping is gone |
| StackPool.Use | src/context.cpp:29-76 | the object after any operations is the state of the model after the same operations |
| StreamIo.ReadFull | src/io.cpp:14-40 | fills exactly the bytes it reports with the next of the stream; success for less exactly if the last transfer was short without an error; one wait between transfers |
| StreamIo.Read | src/io.cpp:42-64 | the same, waiting only while there is nothing, so that all bytes come from one transfer |
| StreamIo.Write | src/io.cpp:66-87 | delivers exactly the bytes it reports, in order and once; success for less exactly if the last transfer was short without an error |
| Sessions.Session.Move | src/process.hpp:42-46 | the new owner has the id and the old one nothing |
| Sessions.Session.Assign | src/process.hpp:59-68 | what was owned is released first; a session assigned to itself ends up owning nothing |
| Sessions.Session.Destroy | src/process.hpp:48-52 | the id is released if there is one |
| Sessions.MoveKeeps | src/process.hpp:42-46 | a variable that owns nothing takes over what another owns, and each live id keeps one owner |
| Sessions.StepKeeps | src/process.hpp:36-87 | every operation, self-assignment included, keeps one owner for each live id and one release for each id that is not |
| Sessions.StepDoes | src/process.hpp:36-87 | what each operation does to each variable, and which id it gives out or releases |
| Sessions.AllReleased | src/process.cpp:957-960 | after any program that leaves the scopes of all its sessions, every id was released as often as it was given out |
| Sessions.MoveAssign | src/process.hpp:59-68 | among any variables, which may be one, an assignment does what the model says |
| Sessions.Use | src/process.hpp:36-87 | the variables and the allocator after any program are the state of the model after the same program |

## Left out

- Timers with equal expiry: the order in which they are answered is not stated, since a later one can reach its slot before an earlier one is cascaded there.
- Scheduler.NoUseAfterDelete: does not cover the signal that a spawner sends last, which does not touch the process.
- Stopping the scheduler, thread start and cancellation, module initialisation and real clocks (`src/process.cpp:1139-1161`, `src/time.cpp:205-261`).
- Relaxed memory ordering: the state machine interleaves atomic actions.
- The lists of the scheduler and the mailbox in memory: being shared by threads they are a state machine on values, and their links through `next` are sequences there.
- `Process` and `Scheduler` are joined only by what `resume` returns: user code of a process is a list of turns in `ProcessModel`, what it does to other processes is an actor of `Scheduler`.
- Process ids that wrap after 2^32 processes (`src/process.cpp:395-403`): a new process has an id that was never used.
- Termination of `run` and `exit`, which depends on user code: statements are about what holds when they return.
- Handlers by message type (`src/process.cpp:685-722`): a handler is any user code.
- A woken serving coroutine takes a message without looking whether there is one (`src/process.cpp:702-706`); that it is not woken by user code is not modelled.
- Use of a coroutine after it was destroyed: `ProcessModel` counts how often a coroutine is destroyed, and goes on as if its memory were still there.
- ProcessLife.ResponsesReachRequesters: that a response wakes no coroutine but the one that waits for it assumes that no two responses answer the same request. Nothing in the code checks that, and the destructor breaks it when it aborts a request twice (`ProcessLife.AbortedTwice`). It also assumes that user code does not block on a session it did not allocate.
- ProcessLife.BlockedUntilResponse: says nothing of a process whose user code has blocked on a session it did not allocate, as it may take another's place.
- What `response` and the aborts do in the mailbox of the process they are sent to: for that process they are messages pushed.
- The order in which a coroutine that blocks pushes its message and allocates its session: both happen before anybody else runs in its process.
- More than one session of different processes in one program: `Sessions` follows the ids of one process.
- Sessions made from a bare id (`src/process.cpp:944-946`): ownership then depends on the caller.
- The reference count of the coroutine mutex (`src/process.cpp:1045-1056`): `unref` subtracts 0, so the mutex is never freed.
- What happens to a mutex after a sweep has destroyed a coroutine that is still suspended or in its queue; `MutexModel.DanglingExactly` says which sweep that is.
- A mutex shared by coroutines of different processes: there `wakeup` looks for the next waiter in the wrong process.
- StreamIo.ReadFull: a stream that answers EAGAIN forever is not modelled; the kernel's answers are a list, after which the stream has ended.
- What happens to the stack pool after a call has failed or a stack was handed out without its memory.
- Overlapping of a link with writes next to it: memory is modelled by the word at an address.
- Contexts, `mprotect` and the free lists of contexts and messages (`src/context.cpp:86-196`, `src/process.cpp:117-155`).
- Polling with epoll and kqueue, TCP sockets, the event registry and the environment map: system calls and plain map updates.
