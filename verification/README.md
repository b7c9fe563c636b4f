# Verified model of the anon runtime

`anon` is a server runtime of fibers, io threads and timers with a small WebRTC stack on top. This
project models the parts whose correctness rests on the whole system rather than on one function,
and proves what their comments, documentation and standards promise. `dafny verify dfyconfig.toml`
checks all of it.

| file | what it models |
|---|---|
| `AbstractMutex.dfy`, `FiberMutex.dfy`, `MutexProgress.dfy` | `fiber_mutex` at the granularity of its atomic operations, its refinement of an abstract mutex, and that it never gets stuck |
| `FiberScheduler.dfy`, `SchedulerProgress.dfy` | fibers, threads, mutexes, condition variables, pipes and the opcodes of `wake_all`, as one step relation, which never gets stuck |
| `WakeLists.dfy`, `ListRefinement.dfy` | the same lists as linked objects that share one link field, and that they follow the scheduler's steps |
| `PauseProtocol.dfy`, `AtRestAlone.dfy` | `while_paused2`, the `k_pause` handler and the at-rest functions |
| `TimerQueue.dfy` | `schedule_task`, `remove_task` and the timer handler over one kernel timer |
| `TimeoutSweep.dfy`, `SecondLimit.dfy` | the sweep that times out blocked pipes, against the events of those pipes |
| `Crc32.dfy` | the two table-driven CRCs against division bit by bit |
| `SctpReceive.dfy`, `SctpPacket.dfy` | received TSNs, SACKs, and packing and walking SCTP packets |
| `Stun.dfy`, `StunMeaning.dfy` | the STUN builder and parser, and what the parser makes of every message |
| `EndpointPool.dfy`, `PoolSockets.dfy` | the connection pool of `endpoint_cluster` |
| `HttpBuffer.dfy`, `HttpHeaders.dfy` | the HTTP server's buffer and its header callbacks |
| `Base64.dfy` | base64 |
| `Bytes.dfy`, `ByteBits.dfy`, `Wrappers.dfy` | big-endian access, exclusive or of bytes, what the models share |

Protocols are step relations over any number of threads and fibers, with an invariant that every step
keeps (`StepPreserves`), its consequence for every run (`RunSafe`), and the promises as lemmas about
runs. What the source does by changing objects and buffers in place is a class or a method on an
array, proved equal to a function; the lemmas are about that function.

`TimeoutSweep` takes from `PauseProtocol` what guards its two sweep steps: no thread is in `wake_all`
while the first part runs (`PauseProtocol.FRunsAlone`), and the second part runs only once every thread
has been at the top of `epoll_loop` (`PauseProtocol.AtRestAfterAll`). `FiberScheduler` uses the mutex
that `FiberMutexProtocol.RunRefines` justifies, its lists are the linked ones by `ListRefinement`, and
whether a blocked fiber goes on by its event or by the timeout is left to `TimeoutSweep`. Epoll, sockets,
clocks, the HTTP parser, HMAC and the user-name lookup are parameters or free choices of the environment.

## Where the code departs from its documentation

- A task scheduled for time zero disarms the kernel timer (`src/cpp/io_dispatch.cpp:454-457`), and unless a
  handler is on its way nothing looks at the queue any more: `TimerQueue.NoTimerLost`, `TimerQueue.TimerLost`.
- `remove_task` can take out another task when it is given a handle that nothing returned, the default one for
  instance (`src/cpp/io_dispatch.cpp:466-470`): `TimerQueue.HitIsAnother`, `TimerQueue.OtherTaskRemoved`.
- A pipe's time limit is enforced once: the sweep that times a fiber out takes the pipe off the list of pipes and
  nothing puts it back (`src/cpp/fiber.cpp:661-685`), so later limits on it are ignored: `TimeoutSweep.TimesOutOnce`,
  `TimeoutSweep.DetachedAfterItsLimit`, `SecondLimit.SecondLimitIgnored`.
- A failed connect never gives its admission back (`src/cpp/epc.cpp:402-413`): `EndpointPool.StuckForGood`,
  `EndpointPool.NextCallerGoesOn`, `EndpointPool.AllConnectsFail`.
- With an initial TSN of 0 the chunks before the first SACK are dropped (`src/cpp/sctp_dispatch.cpp:556`):
  `SctpReceive.ExactUnlessEarlyWithZero`. A SACK's duplicates take four bytes each, of which two are written
  (`src/cpp/sctp_dispatch.cpp:494-497`), and only duplicates beyond the cumulative TSN are reported:
  `SctpReceive.DuplicateReads`, `SctpReceive.DuplicatesReported`.
- Decoding base64 gives one zero byte too many when the data's length is not a multiple of three, where
  sections 4 and 5 of RFC 4648 have the data alone: `Base64.DecodeEncode`, `Base64.ExactIfWholeBlocks`.
- The family in XOR-MAPPED-ADDRESS is 1 also for IPv6, where sections 14.1 and 14.2 of RFC 8489 have 2:
  `Stun.FamilyOnlyForIPv4`. The parser never reports a fingerprint: `Stun.FingerprintNotReported`, `Stun.SealedVisits`.
- Comments say that at-rest functions run while no other io thread does anything (`src/cpp/fiber.cpp:647-650`,
  `src/cpp/io_dispatch.cpp:401-406`). With more than one io thread others may handle events meanwhile:
  `AtRestAlone.AloneIfOneThread`, `AtRestAlone.NotAlone`. What holds is `PauseProtocol.AtRestAfterAll`.

## Model

| member | source | states |
|---|---|---|
| `FiberMutexProtocol.StepPreserves` | src/cpp/fiber.h:98-126 | Every atomic operation of lock, unlock, spin_lock and spin_unlock, taken by any one of any number of fibers, keeps the whole invariant: the counter formula, the exact wait list, and that nobody sleeps without a holder |
| `FiberMutexProtocol.RunSafe` | src/cpp/fiber.h:658-731 | So the invariant holds at every point of every interleaving |
| `FiberMutexProtocol.CounterExact` | src/cpp/fiber.h:692-731 | state_ is one for a holder, two for one who is unlocking or spin-locking, plus one per fiber that is enqueueing itself and one per spinner; with no holder it is 0 and nobody enqueues or spins |
| `FiberMutexProtocol.MutualExclusion` | src/cpp/fiber.h:665-681 | At most one fiber holds; at most one adds itself to the wait list, empties it or keeps others off it |
| `FiberMutexProtocol.UnlockerSeesSleepers` | src/cpp/fiber.h:702-712 | Whoever has moved state_ to 2 finds only fibers on the wait list whose switch to the parent is over |
| `FiberMutexProtocol.NoLostWakeup` | src/cpp/fiber.h:706-731 | When state_ is 0 nobody is on the wait list, and whenever somebody is there is a holder that has yet to empty it |
| `FiberMutexProtocol.NoEarlyWakeup` | src/cpp/fiber.cpp:111-139 | wake_sleepers moves only fibers that have switched out and whose increment the parent has taken back, and leaves no sleeper behind |
| `FiberMutexProtocol.WhereItGoes` | src/cpp/fiber.h:665-681 | From inside lock, be it retrying, enqueueing, asleep, woken or spinning, a step leads to one of these or to holding, then with the counter at 0 before; and a fiber gets outside only out of unlock or spin_unlock |
| `FiberMutexProtocol.LockEndsHolding` | src/cpp/fiber.h:665-681 | So over every run: a fiber leaves lock only as the holder |
| `FiberMutexProtocol.StepRefines` | src/cpp/fiber.h:658-731 | Every atomic step is one step of a mutex with a holder, one enqueuer and a list of waiters, or nothing a client can see |
| `FiberMutexProtocol.RunRefines` | src/cpp/fiber.h:658-731 | Every run of the counter protocol is a run of that abstract mutex, which is the one the scheduler model uses |
| `MutexProgress.SomeoneMoves` | src/cpp/fiber.h:658-731 | In every reachable state in which any fiber is inside lock, unlock or a locked section, one that is inside can take a step that brings it nearer to being out, and no fiber farther from it |
| `MutexProgress.EveryoneGetsOut` | src/cpp/fiber.h:658-731 | So wherever a run has come to, steps of the fibers that are inside take it to a state in which all are out, state_ is 0 and nobody waits: no deadlock, and nobody left asleep |
| `MutexProgress.EveryoneGetsIt` | src/cpp/fiber.h:665-681 | On that way each fiber that is inside lock comes to hold the mutex |
| `MutexProgress.TakenIfFree` | src/cpp/fiber.h:670-721 | A fiber can take the mutex, by lock or by spin_lock, if and only if nobody holds it, has yet to finish unlocking it, or has spin-locked it |
| `FiberScheduler.StepPreserves` | src/cpp/fiber.cpp:549-619 | Starting, nesting, resuming, locking, waiting, notifying, blocking, being timed out, sleeping, the parent's handling of every opcode, and ending keep the invariant that ties threads, lists, mutexes, pipes and fibers together |
| `FiberScheduler.RunSafe` | src/cpp/fiber.cpp:549-619 | The invariant holds throughout every run of any number of threads, fibers, mutexes, conditions and pipes |
| `FiberScheduler.Conservation` | src/cpp/fiber.cpp:555-618 | A fiber lives if and only if it is somewhere; it executes at one place at most and is on one list at most, once; it is at both only while it suspends itself, when nobody can take it off that list |
| `FiberScheduler.ResumedOncePerSuspension` | src/cpp/fiber.cpp:555-560 | A fiber is resumed at most once per suspension, and executes nowhere when it is resumed |
| `FiberScheduler.WaitReturnsHolding` | src/cpp/fiber.cpp:55-77 | wait returns with the associated mutex held, and its caller does not hold it while suspended |
| `FiberScheduler.OnlySwitchedOutAreWoken` | src/cpp/fiber.cpp:81-139 | notify_one, notify_all and unlock move only fibers whose switch is complete, if the notifier holds the mutex |
| `FiberScheduler.NothingStranded` | src/cpp/fiber.cpp:555-618 | A thread in epoll_wait has an empty wake list; a mutex that is free has nobody on its list |
| `FiberScheduler.ZeroFibers` | src/cpp/fiber.h:312-317 | num_running_fibers_ is 0 if and only if no fiber lives and none is on its way |
| `FiberScheduler.WaitReleasesThenLocks` | src/cpp/fiber.cpp:55-77 | Between putting itself on the condition's list and its return from wait a fiber has given the mutex up, through the parent and with its switch complete, and has then locked that same mutex again |
| `FiberScheduler.LockReturnsHolding` | src/cpp/fiber.h:661-681 | Over every run: a fiber stays inside lock, however often it is woken and finds the mutex taken, until the step in which it acquires the mutex, and leaves as its holder |
| `FiberScheduler.NestedStartsReturn` | src/cpp/fiber.cpp:174-188 | Nested starts return like calls: what goes on when a nested wake_all ends is the fiber that was running when it began |
| `SchedulerProgress.NeverStuck` | src/cpp/fiber.cpp:549-619 | In every reachable state in which a thread is in wake_all, finishing an opcode, or running a fiber that is inside lock or wait, some such thread can take a step |
| `SchedulerProgress.SleepersCanBeWoken` | src/cpp/fiber.cpp:443-452 | Whoever waits for a pipe or a time with its switch complete can be woken by any idle thread, and whoever was submitted can be started by it |
| `SchedulerProgress.NotifierCanWake` | src/cpp/fiber.cpp:79-107 | Whoever holds the mutex can notify the fiber that has waited longest, or all of them in the order in which they have waited |
| `ListRefinement.Enqueue` | src/cpp/fiber.cpp:111-122 | What the scheduler knows of a fiber that locks gives the linked list what it requires, and afterwards all linked lists show the sequences of the scheduler's next state |
| `ListRefinement.Release` | src/cpp/fiber.cpp:130-139 | The same for unlock, by a fiber or by the parent |
| `ListRefinement.Wait` | src/cpp/fiber.cpp:62-71 | The same for wait |
| `ListRefinement.NotifyOne` | src/cpp/fiber.cpp:97-107 | The same for notify_one |
| `ListRefinement.NotifyAll` | src/cpp/fiber.cpp:81-93 | The same for notify_all |
| `ListRefinement.WakeFirst` | src/cpp/fiber.cpp:549-553 | The same for wake_all on a new fiber, or on one that a pipe, a timeout or the timer lets go on |
| `ListRefinement.WakeNext` | src/cpp/fiber.cpp:555-560 | The same for its loop, which resumes the fiber the scheduler resumes |
| `ListRefinement.OtherStepsKeepLists` | src/cpp/fiber.cpp:562-615 | No other step changes these lists |
| `ListRefinement.PointerConservation` | src/cpp/fiber.cpp:55-139 | In every run that the linked lists have followed, a fiber is on the linked list of exactly the place where the scheduler has it |
| `WakeLists.IoParams.Push` | src/cpp/fiber.cpp:549-553 | wake_all puts a fiber that is on no list in front of the thread's list |
| `WakeLists.IoParams.Pop` | src/cpp/fiber.cpp:555-559 | Its loop takes the first fiber off, which is then on no list; the rest stays as it was |
| `WakeLists.FiberMutex.Enqueue` | src/cpp/fiber.cpp:115-122 | sleep_till_woken puts the fiber in front of the wait list and keeps head and tail right |
| `WakeLists.FiberMutex.WakeSleepers` | src/cpp/fiber.cpp:130-139 | Splicing by the tail puts all waiters, in their order, before the fibers of the thread's list and empties the wait list |
| `WakeLists.FiberCond.Last` | src/cpp/fiber.cpp:65-67 | The walk over next_wake_ ends at the last waiter |
| `WakeLists.FiberCond.Enqueue` | src/cpp/fiber.cpp:62-71 | wait appends the fiber at the end of the list |
| `WakeLists.FiberCond.NotifyAll` | src/cpp/fiber.cpp:81-93 | All waiters go, in order, in front of the thread's list |
| `WakeLists.FiberCond.NotifyOne` | src/cpp/fiber.cpp:97-107 | Exactly the first waiter, if any, goes in front of the thread's list |
| `WakeLists.Runtime.OneListOnly` | src/cpp/fiber.cpp:111-139 | With all structures sound, no fiber is on the lists of two of them, although all lists share one link field |
| `WakeLists.Runtime.SleepTillWoken` | src/cpp/fiber.cpp:111-122 | Enqueueing on one mutex keeps all structures sound and every other mutex list as it was |
| `WakeLists.Runtime.WakeSleepers` | src/cpp/fiber.cpp:130-139 | The splice keeps all structures sound and all other lists as they were |
| `WakeLists.Runtime.Wait` | src/cpp/fiber.cpp:62-71 | The same for wait |
| `WakeLists.Runtime.NotifyOne` | src/cpp/fiber.cpp:97-107 | The same for notify_one |
| `WakeLists.Runtime.NotifyAll` | src/cpp/fiber.cpp:81-93 | The same for notify_all |
| `WakeLists.Runtime.WakePush` | src/cpp/fiber.cpp:549-553 | The same for the start of wake_all |
| `WakeLists.Runtime.WakePop` | src/cpp/fiber.cpp:555-559 | The same for one round of its loop |
| `PauseProtocol.StepPreserves` | src/cpp/io_dispatch.h:155-219 | Every step of while_paused2, of the k_pause handler and of the top of epoll_loop keeps the invariant over the counters, locks, threads and at-rest functions, back-to-back and contended pauses included |
| `PauseProtocol.RunSafe` | src/cpp/io_dispatch.cpp:388-416 | The invariant holds throughout every run of any number of io threads |
| `PauseProtocol.FRunsAlone` | src/cpp/io_dispatch.h:186-200 | While one thread runs f, every other io thread is blocked in the k_pause wait, and the runner has both mutexes |
| `PauseProtocol.NothingLeftOver` | src/cpp/io_dispatch.h:162-184 | When a pause starts, no k_pause byte of an earlier one is left and no thread is in, or on its way to, an earlier wait |
| `PauseProtocol.CountdownExact` | src/cpp/io_dispatch.h:206-216 | thread_countdown_ is the sum of what the threads owe plus one for each thread that has not yet left the wait of the current pause |
| `PauseProtocol.AtRestAfterAll` | src/cpp/io_dispatch.cpp:393-415 | When at-rest functions run, one thread runs them, and every io thread has been at the top of epoll_loop since each was added |
| `PauseProtocol.AtRestOnce` | src/cpp/io_dispatch.cpp:361-364 | Every function ever added has run once or is still to run, never both; with nothing left to count down a thread is on its way to run those that wait |
| `PauseProtocol.NeverStuck` | src/cpp/io_dispatch.cpp:81-116 | While a pause is under way its thread, or one it waits for, has a step that brings this pause nearer to its end |
| `PauseProtocol.PauseCanEnd` | src/cpp/io_dispatch.h:186-216 | And such steps lead to its end: from every reachable state the pause under way can be finished |
| `PauseProtocol.LastAddedRunsFirst` | src/cpp/io_dispatch.cpp:411-413 | At-rest functions run in the reverse of the order in which they were added |
| `PauseProtocol.WaitNewestFirst` | src/cpp/io_dispatch.cpp:361-364 | And those that wait are always in that order |
| `AtRestAlone.NotAlone` | src/cpp/fiber.cpp:646-650 | For every number of io threads above one, a run in which one thread runs an at-rest function while another handles an event |
| `AtRestAlone.AloneIfOneThread` | src/cpp/io_dispatch.cpp:401-412 | At-rest functions run while no other io thread handles an event, in every run, if and only if there is one io thread |
| `TimerQueue.TaskMap.TimerSetTime` | src/cpp/io_dispatch.cpp:215-218 | Setting the timer clears an unread expiration, and a time of zero disarms it, as timerfd_settime does |
| `TimerQueue.TaskMap.Schedule` | src/cpp/io_dispatch.cpp:445-460 | schedule_task_ puts the task behind all that are no later and sets the timer if the earliest time is now this one |
| `TimerQueue.TaskMap.Sweep` | src/cpp/io_dispatch.cpp:200-220 | The locked section takes out exactly the due tasks and sets the timer for the first that is left, if any |
| `TimerQueue.TaskMap.Remove` | src/cpp/io_dispatch.cpp:462-474 | For any handle at all, remove_task takes out the task at which its search stops, if that has the handle's id, and returns whether it did |
| `TimerQueue.HitIsTask` | src/cpp/io_dispatch.cpp:462-474 | For a handle that names one queued task at most, that is the task it names, and there is one if and only if it is queued |
| `TimerQueue.HitIsAnother` | src/cpp/io_dispatch.cpp:466-470 | For any handle, it is another task than the one named if and only if some task has the handle's time, none of that time has its id, and the first later one has |
| `TimerQueue.OtherTaskRemoved` | src/cpp/io_dispatch.cpp:462-474 | Such a run: the default handle takes out a task |
| `TimerQueue.StepGuarded` | src/cpp/io_dispatch.cpp:449-458 | A step keeps "armed in time, or an unread expiration, or a handler on its way" if and only if it does not schedule a task for time zero while no handler is on its way |
| `TimerQueue.NoTimerLost` | src/cpp/io_dispatch.cpp:174-225 | In every run of any number of scheduling, removing and handling threads no timer is ever lost, exactly if no step does that |
| `TimerQueue.TimerLost` | src/cpp/io_dispatch.cpp:454-457 | Such a run: the task for time zero stays queued and nothing will look at it |
| `TimerQueue.StepPreserves` | src/cpp/io_dispatch.cpp:174-225 | Every step keeps the queue sorted, the ids fresh and every issued task in exactly one place |
| `TimerQueue.RunSafe` | src/cpp/io_dispatch.cpp:174-225 | And so it is throughout every run |
| `TimerQueue.OncePerTask` | src/cpp/io_dispatch.cpp:196-223 | A scheduled task is once either queued, taken out to be run, removed, or run; it never runs twice |
| `TimerQueue.NeverEarly` | src/cpp/io_dispatch.cpp:202-209 | What a step runs is one task at most, and its time has come |
| `TimerQueue.BatchInOrder` | src/cpp/io_dispatch.cpp:202-223 | A batch is exactly the due part of the queue, in nondecreasing order of time |
| `TimerQueue.HandlesGenuine` | src/cpp/io_dispatch.h:313-335 | What schedule_task returned names one queued task at most, and remove_task takes out that one, if and only if it is still queued |
| `TimerQueue.SweepSetsTimer` | src/cpp/io_dispatch.cpp:210-218 | A sweep that leaves tasks sets the timer for the first of them, no sooner and no later, with no expiration left unread; one that leaves none does not touch it |
| `TimerQueue.ScheduleSetsTimer` | src/cpp/io_dispatch.cpp:449-458 | Scheduling sets the timer if and only if the task's time is now the earliest, for that time; for time zero it disarms it |
| `TimerQueue.ArmedForATask` | src/cpp/io_dispatch.cpp:210-218 | The timer is only ever armed for the time of a task that was scheduled |
| `TimerQueue.NothingDueIsLeft` | src/cpp/io_dispatch.cpp:196-209 | Once a handler has read an expiration, its sweep leaves no task behind that was due by then |
| `TimerQueue.FirstScheduledFirst` | src/cpp/io_dispatch.cpp:448 | Tasks of the same time are queued, and so taken out, in the order in which they were scheduled |
| `TimerQueue.BatchRunsInOrder` | src/cpp/io_dispatch.cpp:221-223 | A handler runs its batch from the front, each task no later than those left |
| `TimerQueue.RemovedNeverRuns` | src/cpp/io_dispatch.cpp:462-474 | A task that remove_task has removed never runs, nor is it queued or in a batch again |
| `TimerQueue.UpperBound` | src/cpp/io_dispatch.cpp:448 | Where std::multimap puts a new task: behind all that are no later |
| `TimerQueue.Find` | src/cpp/io_dispatch.cpp:465 | Where std::multimap finds the first task of a time, if there is one |
| `TimeoutSweep.StepPreserves` | src/cpp/fiber.cpp:621-705 | Events, wake-ups, blocking, arming, both parts of a sweep and time passing keep the invariant over threads, fibers and pipes |
| `TimeoutSweep.RunSafe` | src/cpp/fiber.cpp:621-705 | The invariant holds throughout every run |
| `TimeoutSweep.OneWayToResume` | src/cpp/fiber.cpp:725-742 | For a fiber blocked on a pipe there is one thing, and one only, that will resume it: an event, or the timeout |
| `TimeoutSweep.NothingToResume` | src/cpp/fiber.cpp:447-452 | If nobody is blocked on a pipe, nothing is about to resume anybody there, so io_avail always finds its fiber |
| `TimeoutSweep.FlagIsForItsFiber` | src/cpp/fiber.cpp:677-689 | timeout_expired_ is set only while the fiber it was set for is the next to go on on that thread; its time is up and no event can wake it |
| `TimeoutSweep.TimeoutOnlyFromSweep` | src/cpp/fiber.cpp:733-741 | A fiber throws the timeout error exactly if the sweep woke it, then the flag is clear; fibers that go on from elsewhere never see the flag |
| `TimeoutSweep.DetachesWhatIsAttached` | src/cpp/fiber.cpp:635-644 | The first part of a sweep takes only pipes out of epoll that are in it |
| `TimeoutSweep.SweepLeavesNoOne` | src/cpp/fiber.cpp:655-689 | The second part times out exactly the blocked fibers whose pipe the first part detached and that no event has woken since |
| `TimeoutSweep.BusyThreadGoesOn` | src/cpp/fiber.cpp:549-619 | In every reachable state each thread that is not idle has a step: with the fiber of its event, the first on its wake list, the next pipe to time out, or the fiber it runs |
| `TimeoutSweep.TimesOutAfterItsLimit` | src/cpp/fiber.cpp:725-742 | Over runs: a fiber that is timed out had blocked with a limit, longer ago than that limit, on a pipe that was in the list; one that blocked without a limit never is |
| `TimeoutSweep.DetachedAfterItsLimit` | src/cpp/fiber.cpp:635-644 | Over runs: a sweep takes the pipe of a blocked fiber out of epoll if and only if the pipe is in the list, the fiber has a limit, and that has passed |
| `TimeoutSweep.TimesOutOnce` | src/cpp/fiber.cpp:661-685 | After a timeout the pipe is out of the list, and no later blocking on it ends by a timeout |
| `TimeoutSweep.ListedUntilPicked` | src/cpp/fiber.cpp:661-685 | A pipe is out of the list only if a sweep has picked it before |
| `SecondLimit.SecondLimitIgnored` | src/cpp/fiber.cpp:661-685 | Such a run: a fiber blocks again on the pipe it was timed out on, and a sweep long after its limit leaves it blocked |
| `Bytes.RoundTrip16` | src/cpp/big_endian_access.h:27-38 | Reading what set_be_uint16 wrote gives the value back |
| `Bytes.Bytes16` | src/cpp/big_endian_access.h:27-38 | And writing what get_be_uint16 read gives the bytes back |
| `Bytes.RoundTrip32` | src/cpp/big_endian_access.h:40-57 | The same for 32 bits |
| `Bytes.Bytes32` | src/cpp/big_endian_access.h:40-57 | And the other way round |
| `Bytes.SetBe16` | src/cpp/big_endian_access.h:34-38 | Writes these two bytes and no others |
| `Bytes.SetBe32` | src/cpp/big_endian_access.h:51-57 | Writes these four bytes and no others |
| `Bytes.SetBe64` | src/cpp/big_endian_access.h:69-74 | Leaves eight bytes whose base-256 value is the argument, and no others changed |
| `Bytes.GetBe64` | src/cpp/big_endian_access.h:59-67 | Reads the base-256 value of eight bytes |
| `Crc32.SctpTableOk` | src/cpp/sctp_dispatch.cpp:96-161 | Each of the 256 entries is what eight steps of reflected division by the Castagnoli polynomial make of its index |
| `Crc32.StunTableOk` | src/cpp/stun.cpp:35-79 | The same for the other table and the IEEE polynomial |
| `Crc32.ByteByTable` | src/cpp/sctp_dispatch.cpp:174-188 | Eight steps on a whole byte are one table entry and a shift, for every polynomial |
| `Crc32.LookUpFeeds` | src/cpp/sctp_dispatch.cpp:174-188 | One round of the table loop feeds the next byte of the message bit by bit |
| `Crc32.FeedPacket` | src/cpp/sctp_dispatch.cpp:173-188 | The three loops feed the packet with zeros in place of its checksum field |
| `Crc32.Crc32Sctp` | src/cpp/sctp_dispatch.cpp:163-197 | crc32_sctp is bit-at-a-time reflected division of the packet with a zero checksum field, inverted and byte-swapped; ~0 for a packet shorter than the header |
| `Crc32.Crc32Xor` | src/cpp/stun.cpp:124-133 | crc32_xor is bit-at-a-time division with the IEEE polynomial, inverted, with the STUN constant |
| `Crc32.BurstDetected` | src/cpp/sctp_dispatch.cpp:163-197 | Two messages that agree but for four consecutive bytes have the same remainder if and only if they are equal |
| `Crc32.SctpBurstDetected` | src/cpp/sctp_dispatch.cpp:163-197 | So have two packets that differ within four consecutive bytes outside the checksum field |
| `Crc32.StoredLowByteFirst` | src/cpp/sctp_dispatch.cpp:190-196 | After the final swap, set_be_uint32 stores the remainder with its low byte first |
| `SctpReceive.Association.constructor` | src/cpp/sctp_dispatch.h:37-41 | A new association has received nothing |
| `SctpReceive.Association.DoChunkInit` | src/cpp/sctp_dispatch.cpp:229-282 | INIT sets the cumulative TSN to the one before the initial TSN, modulo 2^32, and puts the initial TSN into the set |
| `SctpReceive.Association.AddChunk` | src/cpp/sctp_dispatch.cpp:550-566 | add_chunk inserts a TSN beyond the cumulative one and notes it as a duplicate if it was there |
| `SctpReceive.Association.Advance` | src/cpp/sctp_dispatch.cpp:444-456 | The loop moves the cumulative TSN over all that follow it without a gap |
| `SctpReceive.Association.GapBlocks` | src/cpp/sctp_dispatch.cpp:458-476 | The gap blocks are the maximal runs of the set as offsets: ordered, separated by at least one missing TSN, together exactly the set |
| `SctpReceive.Association.BuildSack` | src/cpp/sctp_dispatch.cpp:478-504 | The bytes of the SACK chunk |
| `SctpReceive.Insert` | src/cpp/sctp_dispatch.cpp:556-559 | std::set's insert: in order, and nothing but the new element is added |
| `SctpReceive.NothingLostNothingInvented` | src/cpp/sctp_dispatch.cpp:444-456 | For an initial TSN of at least 1 and any sequence of chunks and SACKs, the compressed state stands for exactly the initial TSN and the TSNs from there on that came; the set is all beyond the cumulative TSN |
| `SctpReceive.CumulativeOnlyGrows` | src/cpp/sctp_dispatch.cpp:444-456 | The cumulative TSN never goes back |
| `SctpReceive.AllBeyondWhenAcked` | src/cpp/sctp_dispatch.cpp:444-456 | After INIT with any initial TSN, also 0, all of the set is beyond the cumulative TSN whenever gap blocks are built |
| `SctpReceive.ExactUnlessEarlyWithZero` | src/cpp/sctp_dispatch.cpp:229-234 | Once the first SACK is out the state is exact if and only if the initial TSN is not 0 or every TSN that came before that SACK came again |
| `SctpReceive.LostWithZero` | src/cpp/sctp_dispatch.cpp:556-561 | A TSN that is lost with initial TSN 0 |
| `SctpReceive.DuplicatesReported` | src/cpp/sctp_dispatch.cpp:556-561 | What a SACK reports as duplicates is each TSN beyond the cumulative one as often as it came again since the SACK before |
| `SctpReceive.DuplicatesInOrder` | src/cpp/sctp_dispatch.cpp:556-561 | And in the order in which they came: one more chunk adds its TSN at the end if and only if that was there already |
| `SctpReceive.SackAnnounces` | src/cpp/sctp_dispatch.cpp:481-485 | The rest of a SACK's header: its type, no flags, and the receiver window |
| `SctpReceive.DuplicateInSack` | src/cpp/sctp_dispatch.cpp:487-497 | What a SACK holds of the duplicates, behind the blocks and in order: of each the lower half of its TSN and two zero bytes, and how many they are |
| `SctpReceive.FirstBlockFrom2` | src/cpp/sctp_dispatch.cpp:444-476 | The first gap block starts at 2 or later |
| `SctpReceive.SackRoundTrip` | src/cpp/sctp_dispatch.cpp:478-504 | Reading a SACK gives the cumulative TSN back, and the set exactly if no offset is too long for 16 bits |
| `SctpReceive.SenderLearnsWhatWasReceived` | src/cpp/sctp_dispatch.cpp:444-504 | With such offsets the sender learns from a SACK, for each TSN from the initial one on, whether it came, no more and no less |
| `SctpReceive.DuplicateReads` | src/cpp/sctp_dispatch.cpp:494-497 | A reader of a duplicate's four bytes gets the TSN that was meant if and only if it is 0 |
| `SctpPacket.SctpDispatch.constructor` | src/cpp/sctp_dispatch.cpp:543-546 | Nothing is queued and nothing received at the start |
| `SctpPacket.WriteChunks` | src/cpp/sctp_dispatch.cpp:525-532 | The loop writes the queued chunks one after the other, each padded with zeros to four bytes, behind the header |
| `SctpPacket.BuildUnsummed` | src/cpp/sctp_dispatch.cpp:513-533 | The packet without its checksum |
| `SctpPacket.BuildReply` | src/cpp/sctp_dispatch.cpp:534-535 | And with it |
| `SctpPacket.SctpDispatch.AddChunk` | src/cpp/sctp_dispatch.cpp:550-566 | The function given to the data channels notes the TSN and queues an answer unless it is empty |
| `SctpPacket.SctpDispatch.SendAcks` | src/cpp/sctp_dispatch.cpp:444-541 | send_acks packs all queued chunks and a SACK of the maximal runs beyond the moved cumulative TSN with the duplicates so far, and leaves neither chunks nor duplicates |
| `SctpPacket.ParseChunks` | src/cpp/sctp_dispatch.cpp:287-409 | The chunks that parse_sctp_chunks hands on, and whether it gets to the end, are those of a recursive walk over the packet |
| `SctpPacket.WalkFindsChunks` | src/cpp/sctp_dispatch.cpp:287-408 | The walk over a packed body hands on exactly the packed chunks, in order, and then the SACK, if and only if every chunk carries its own size |
| `SctpPacket.ChecksumPasses` | src/cpp/sctp_dispatch.cpp:578-583 | A packet with its checksum stored passes the test of recv_msg |
| `SctpPacket.PackThenWalk` | src/cpp/sctp_dispatch.cpp:513-535 | Both together for every packet send_acks can build |
| `SctpPacket.HeaderReadsBack` | src/cpp/sctp_dispatch.cpp:520-535 | A reader of the finished packet gets ports and tag back, and finds chunks and SACK from the twelfth byte on |
| `SctpPacket.AnswersOwnSize` | src/cpp/sctp_dispatch.cpp:266-283 | Whatever the walk hands on carries its own size, and so do HEARTBEAT_ACK and COOKIE_ACK; an INIT_ACK does if and only if the INIT is at most 65528 bytes |
| `SctpPacket.AnswersSay` | src/cpp/sctp_dispatch.cpp:266-283 | What a peer reads in the answers: a heartbeat with nothing but its type changed; an INIT with type and length changed, its padding, and behind that a cookie of no bytes |
| `SctpPacket.SackOwnSize` | src/cpp/sctp_dispatch.cpp:478-488 | A SACK carries its own size if and only if it has fewer than 16380 blocks and duplicates |
| `Stun.StunMessageBuilder.constructor` | src/cpp/stun.cpp:208-215 | Type, empty length, magic cookie and transaction id |
| `Stun.StunMessageBuilder.AddXorMappedAddress` | src/cpp/stun.cpp:217-265 | Appends the address xored with cookie and transaction id, as IPv4 if it is an IPv4 address inside an IPv6 one |
| `Stun.StunMessageBuilder.AddIceControlled` | src/cpp/stun.cpp:277-284 | Appends ICE-CONTROLLED with eight zero bytes |
| `Stun.StunMessageBuilder.AddPriority` | src/cpp/stun.cpp:286-293 | Appends PRIORITY |
| `Stun.StunMessageBuilder.AddMessageIntegrity` | src/cpp/stun.cpp:295-304 | Sets the length as if the message ended behind the attribute, and stores the HMAC of what precedes it |
| `Stun.StunMessageBuilder.AddFingerprint` | src/cpp/stun.cpp:306-314 | The same with the CRC |
| `Stun.AlignRoundsUp` | src/cpp/stun.cpp:297 | The mask 0x0fffc rounds up to a multiple of four if and only if the size is at most 65532 |
| `Stun.CheckAttribute` | src/cpp/stun.cpp:393-487 | The switch over the attribute types is the function whose meaning StunMeaning.AttributesMean states |
| `Stun.WalkAttributes` | src/cpp/stun.cpp:369-489 | The loop computes the recursive walk over the attributes |
| `Stun.ParseStunMsg` | src/cpp/stun.cpp:330-505 | parse_stun_msg is the header test, then that walk, of which StunMeaning.Accepted says what they accept and report |
| `Stun.CreateStunReply` | src/cpp/stun.cpp:507-525 | Which reply is built to which message |
| `Stun.HashedAlike` | src/cpp/stun.cpp:435-453 | For any aligned start below 64K, the bytes the parser hashes are those the builder hashed, although the length field has been rewritten since |
| `Stun.SealedParses` | src/cpp/stun.cpp:443-488 | From the integrity attribute on, the walk meets exactly two attributes up to the end and accepts if and only if there was a user name whose password gives the same HMAC; the fingerprint always matches |
| `Stun.RequestParses` | src/cpp/stun.cpp:369-489 | Any attributes with integrity and fingerprint behind them are accepted if and only if each is acceptable by itself, one is a user name, and its password gives the same HMAC; what is reported is the last user name with its connection, and each flag by whether such an attribute is there |
| `Stun.MessageParses` | src/cpp/stun.cpp:341-505 | The same for the whole message with its header and length field |
| `Stun.AppendBuilds` | src/cpp/stun.cpp:230-232 | Appending an attribute keeps the buffer tiled by its attributes and adds that one |
| `Stun.IntegrityBuilds` | src/cpp/stun.cpp:295-304 | So does add_message_integrity |
| `Stun.FingerprintBuilds` | src/cpp/stun.cpp:306-314 | So does add_fingerprint, of the bytes with the new length |
| `Stun.ReplyTiles` | src/cpp/stun.cpp:507-525 | A reply consists exactly, from header to end, of the address, ICE-CONTROLLED if asked, integrity if there is a password, and the fingerprint of all before it |
| `Stun.ReplyAnswers` | src/cpp/stun.cpp:512-521 | A reply's header passes the parser's tests, says success, and has the transaction id of the request |
| `Stun.AddressReadsBack` | src/cpp/stun.cpp:223-229 | Xoring again gives port and address back |
| `Stun.MappedIsIPv4` | src/cpp/stun.cpp:236-248 | An address is sent as it is, but an IPv4 address inside an IPv6 one alone |
| `Stun.FamilyOnlyForIPv4` | src/cpp/stun.cpp:222-248 | The family in XOR-MAPPED-ADDRESS is the one RFC 8489 asks for if and only if the address is IPv4, by itself or inside an IPv6 one |
| `Stun.FingerprintNotReported` | src/cpp/stun.cpp:334-504 | has_fingerprint is never set, so it is right for an accepted message if and only if the message has no FINGERPRINT |
| `Stun.SealedVisits` | src/cpp/stun.cpp:306-314 | Every message the builder has sealed has one |
| `StunMeaning.AttributesMean` | src/cpp/stun.cpp:369-489 | For every message: its attributes are accepted if and only if the walk gets to the end, each attribute is of a known kind or optional, has the right length, and is a user name with an ufrag that lookup knows, and each sum is right behind the attributes before it; what is reported is then what these attributes say together |
| `StunMeaning.Accepted` | src/cpp/stun.cpp:330-505 | For every message: it is accepted if and only if length, cookie and type are right and its attributes are; the class is the type less the method |
| `StunMeaning.ReportedIsThere` | src/cpp/stun.cpp:393-505 | Of an accepted message each flag is reported if and only if the walk comes past an attribute of its kind, and the user name is that of the last USERNAME, with the connection lookup has for it |
| `StunMeaning.WhatIsHashed` | src/cpp/stun.cpp:435-453 | The HMAC is of the message up to the attribute, changed only in its length field, which then says that the message ends with the attribute |
| `StunMeaning.AnswerTo` | src/cpp/stun.cpp:507-525 | An accepted message is answered if and only if it is a BINDING request; the answer has ICE-CONTROLLED if and only if the request has ICE-CONTROLLING, and integrity if and only if the user name led to a password |
| `EndpointPool.EndpointObject.Admit` | src/cpp/epc.cpp:382-394 | Counts the request and takes a cached socket, dropping those idle for too long |
| `EndpointPool.EndpointObject.Finish` | src/cpp/epc.cpp:246-272 | The cleanup destructor changes the endpoint by the function whose meaning PoolSockets.AnswerDecides and PoolSockets.CachedAtTheEnd state |
| `EndpointPool.Cluster.Erase` | src/cpp/epc.cpp:170-189 | Removes the first entry that is this endpoint, and no other |
| `EndpointPool.ErasedAll` | src/cpp/epc.cpp:170-189 | In a list without repetition that leaves none |
| `EndpointPool.FirstRecentIsLent` | src/cpp/epc.cpp:384-394 | A caller gets the first socket that is not too old; those before it go, those behind stay |
| `EndpointPool.StepPreserves` | src/cpp/epc.cpp:316-443 | Picking, waiting, admitting, connecting, failing, finishing, looking up, erasing, destroying keep the invariant |
| `EndpointPool.RunSafe` | src/cpp/epc.cpp:316-443 | In every interleaving of any number of callers |
| `EndpointPool.NeverTooMany` | src/cpp/epc.cpp:365-394 | Cached sockets and outstanding requests are never more than max_conn_per_ep_ together, and the outstanding ones are the callers inside plus the connects that failed |
| `EndpointPool.NeverLentTwice` | src/cpp/epc.cpp:384-441 | No socket is lent to two callers or lent while it is cached |
| `EndpointPool.ErrorMeansErased` | src/cpp/epc.cpp:253-270 | An endpoint with an error is not in the list, so a caller that tries again picks another |
| `EndpointPool.LostStaysLost` | src/cpp/epc.cpp:402-413 | A failed connect's admission is never taken back |
| `EndpointPool.StuckForGood` | src/cpp/epc.cpp:365-413 | Once max_conn_per_ep_ connects have failed, nobody waiting for the endpoint is ever admitted or sent on |
| `EndpointPool.NextCallerGoesOn` | src/cpp/epc.cpp:365-382 | With all callers done, one more goes on if and only if fewer connects than that have failed |
| `EndpointPool.AllConnectsFail` | src/cpp/epc.cpp:402-413 | Such a run, for every bound: the connects of all that were admitted fail, and the caller that waits can neither be admitted nor sent on |
| `PoolSockets.AnswerDecides` | src/cpp/epc.cpp:246-279 | Over runs: when a callback has ended its socket is in a cache if and only if it said so and the endpoint still lives; otherwise the socket is never in a cache or with a caller again |
| `PoolSockets.CachedAtTheEnd` | src/cpp/epc.cpp:265-270 | A socket that is kept is the last of its endpoint, idle from that moment; the endpoint has an error if and only if a callback has thrown |
| `PoolSockets.CallersFindIt` | src/cpp/epc.cpp:384-394 | Over runs: the next caller admitted finds the socket there, unless one before it was lent it, or dropped it after 25 seconds, or the endpoint went; within the 25 seconds it does not connect anew |
| `PoolSockets.ConnectsIfNoneRecent` | src/cpp/epc.cpp:384-413 | A caller that is admitted connects anew if and only if no cached socket was put there less than 25 seconds ago; otherwise it gets one that was |
| `PoolSockets.ErasedForGood` | src/cpp/epc.cpp:170-189 | An endpoint that is off the list never comes back to it and is never picked again |
| `PoolSockets.FailureErases` | src/cpp/epc.cpp:253-264 | What takes an endpoint off the list is a connect to it that fails and a callback that throws |
| `PoolSockets.NobodyAfterThrow` | src/cpp/epc.cpp:246-270 | After a callback has thrown nobody is admitted to its endpoint any more, or picks it |
| `PoolSockets.RetryPicksAnother` | src/cpp/epc.cpp:372-381 | A caller that finds an error picks again, and never the same endpoint |
| `HttpBuffer.Connection.constructor` | src/cpp/http_server.cpp:185-186 | An empty buffer of 8192 bytes |
| `HttpBuffer.Connection.Fill` | src/cpp/http_server.cpp:190-195 | Reads into the free end of the buffer, which then holds what the loop without a buffer is ahead |
| `HttpBuffer.Connection.Parse` | src/cpp/http_server.cpp:200 | The parser is given the next bytes the client sent |
| `HttpBuffer.Connection.Read` | src/cpp/http_server.cpp:278-289 | A handler gets the next bytes the client sent, out of the buffer while it has any, then from the socket |
| `HttpBuffer.Connection.Compact` | src/cpp/http_server.cpp:242-250 | The memmove keeps the unread bytes, overlapping as they may be, and makes room |
| `HttpBuffer.RunHandler` | src/cpp/http_server.cpp:209-233 | Whatever a handler reads, it is given piece by piece what the loop without a buffer gives it |
| `HttpBuffer.ServeRound` | src/cpp/http_server.cpp:187-269 | One round of the loop is one round of the loop without a buffer |
| `HttpBuffer.Serve` | src/cpp/http_server.cpp:187-270 | For everything a client may send and every sequence of rounds, the parser and the handlers are given exactly the pieces that the loop without a buffer takes straight out of what the client sends; what has been read besides is left in the buffer |
| `HttpBuffer.EachByteOnce` | src/cpp/http_server.cpp:184-270 | All these pieces together are the beginning of what the client sends, in order and without a gap; an open connection always has room to read more |
| `HttpBuffer.StaysOpen` | src/cpp/http_server.cpp:187-269 | A connection stays open if and only if there was something to parse, and either a message is complete, it is no upgrade and keep-alive holds, or none is, the parser has taken all there was and the message is shorter than 8192 bytes so far |
| `HttpBuffer.RoundPieces` | src/cpp/http_server.cpp:190-233 | A round gives the parser as much as it takes of what is left or, if nothing is, of what a read into the rest of the 8192 bytes brings; then, if and only if a message is complete, each of the handler's reads what is left in the buffer or, if nothing is, what the socket has |
| `HttpBuffer.SameBytesByThen` | src/cpp/http_server.cpp:187-195 | In whatever portions the bytes arrive, once equally many have been handed on they are the same bytes |
| `HttpHeaders.HeaderCallbacks.constructor` | src/cpp/http_server.cpp:44-53 | The state before the first fragment |
| `HttpHeaders.HeaderCallbacks.LowerField` | src/cpp/http_server.cpp:97-99 | The field is turned to lower case in place, nothing else changes |
| `HttpHeaders.HeaderCallbacks.OnHeaderField` | src/cpp/http_server.cpp:92-112 | One step of the callback state machine |
| `HttpHeaders.HeaderCallbacks.OnHeaderValue` | src/cpp/http_server.cpp:114-124 | One step of it |
| `HttpHeaders.HeaderCallbacks.OnHeadersComplete` | src/cpp/http_server.cpp:131-139 | Its last step |
| `HttpHeaders.OpenAfter` | src/cpp/http_server.cpp:92-124 | Whatever the fragments, after some headers all but the last are recorded and the last is open |
| `HttpHeaders.LowerAllAt` | src/cpp/http_server.cpp:97-99 | Exactly the bytes inside fields are lowered |
| `HttpHeaders.LettersToLower` | src/cpp/http_server.cpp:97-99 | Lowering turns A to Z into a to z and leaves every other byte alone |
| `HttpHeaders.FragmentsDoNotMatter` | src/cpp/http_server.cpp:92-147 | For every way of cutting fields and values into contiguous fragments there is in the end one pair per header, in order: the field in lower case and the value as it came |
| `HttpHeaders.NoHeaders` | src/cpp/http_server.cpp:131-139 | Without headers nothing is recorded |
| `Base64.IndexUndoesCode` | src/cpp/b64.cpp:129-163 | The index functions undo the alphabet tables and accept no other character |
| `Base64.CodeIsInRfc4648` | src/cpp/b64.cpp:55-67 | The tables are the alphabets of RFC 4648, tables 1 and 2 |
| `Base64.EncodedSize` | src/cpp/b64.cpp:77-81 | The size computed beforehand is that of what is written |
| `Base64.EncodeBlocks` | src/cpp/b64.cpp:87-93 | The loop over whole blocks |
| `Base64.EncodeRest` | src/cpp/b64.cpp:95-114 | The incomplete block and its padding |
| `Base64.EncodeTo` | src/cpp/b64.cpp:70-117 | encode fills its buffer exactly |
| `Base64.DecodeBlocks` | src/cpp/b64.cpp:204-214 | The loop over whole blocks, up to the first character that is none |
| `Base64.DecodeRest` | src/cpp/b64.cpp:216-226 | The incomplete block leaves one zero byte behind |
| `Base64.DecodeFrom` | src/cpp/b64.cpp:166-229 | decode, with its two ways to throw |
| `Base64.BlockRoundTrip` | src/cpp/b64.cpp:87-93 | Three bytes come back from their four characters |
| `Base64.DecodeEncode` | src/cpp/b64.cpp:166-229 | For every table and its inverse, decode of encode never throws and gives the data back, with one more byte, zero, unless the length is a multiple of three |
| `Base64.ExactIfWholeBlocks` | src/cpp/b64.cpp:194-198 | So decode of encode is the data alone, as RFC 4648 has it, if and only if the length is a multiple of three |
| `Base64.RoundTripsUnlessPadIsDigit` | src/cpp/b64.cpp:182-192 | That holds for all data if and only if the padding is no character of the alphabet |
| `Base64.DecodeFails` | src/cpp/b64.cpp:166-192 | decode throws exactly on an illegal length or a character, not taken for padding, outside the alphabet |
| `Base64.TablesInverse` | src/cpp/b64.cpp:55-67 | Both alphabets meet the hypotheses |
| `Base64.BothAlphabetsRoundTrip` | src/cpp/b64.cpp:119-127 | So both codecs round-trip, unpadded or padded with = |
| `Base64.B64Encode` | src/cpp/b64.cpp:119-127 | b64_encode and b64url_encode |
| `Base64.B64Decode` | src/cpp/b64.cpp:231-239 | b64_decode and b64url_decode |

## Left out

- FiberScheduler.OnlySwitchedOutAreWoken: notifiers hold the associated mutex, as `fiber_cond` asks of them; without it a fiber may be woken before it is switched out.
- FiberScheduler.RunSafe: a fiber unlocks only what it holds, does not lock what it holds already and holds nothing when it ends; one fiber at a time blocks on a pipe. The source asks this of its callers and does not check it.
- FiberScheduler.ZeroFibers: the host condition variable behind `wait_for_zero_fibers` is its predicate; when the waiting thread is scheduled is not modelled.
- FiberMutexProtocol.RunSafe: the counter is unbounded; so many spinners that an `int` overflows are not modelled, nor is fairness: MutexProgress says what is possible from every state, not that the processor schedules it.
- PauseProtocol.NeverStuck: says that a step towards the end is possible, not that the system's scheduler ever takes it, nor that f and the handlers return.
- PauseProtocol.RunSafe: all pauses use `while_paused2`; `while_paused` and `on_each` beside it break the countdown and are not part of the runs.
- TimeoutSweep.RunSafe: `orhibernating` is false, and the next sweep is scheduled by the at-rest function of the one before, so two are never under way at once.
- TimerQueue.OncePerTask: task ids do not wrap.
- SctpReceive.NothingLostNothingInvented: one INIT on an association and no TSN past 2^32 - 1, so no serial-number arithmetic.
- SctpReceive.CumulativeOnlyGrows: for an initial TSN of at least 1; with 0 the cumulative TSN starts at 2^32 - 1 and the first SACK takes it to 0.
- SctpPacket.PackThenWalk: holds for chunks that carry their own size; the one-byte answer that the data channels queue for DCEP does not.
- Stun.MessageParses: HMAC and the lookup of a user name, with its protobuf message, are any functions.
- HttpBuffer.Serve: a parser that takes any number of bytes and completes a message when it likes; a read that gets nothing stands for the error that is thrown; `respond`, URLs, query strings, cookies and io time limits are not modelled.
- EndpointPool.RunSafe: looking up endpoints keeps any of the old ones and adds new ones; their ages, the retry loop of `with_connected_pipe` and `erase_if_empty` are not modelled.
- Base64.EncodeTo: lengths are unbounded, where the source keeps sizes in an `int`.
- Switching stacks, exception globals, sanitizer hooks and stack sizes: a switch is one step.
- A fiber object destroyed by a fiber that joins it on another thread.
- Locking `zero_net_pipes_mutex_` from a thread that runs no fiber.
- The SCTP INIT's options, an INIT that is refused half way, and what the data channels do with DATA chunks.
- `add_user_name` of the STUN builder, which nothing calls and which writes over the header.
- The `joyent` parser, OpenSSL, epoll, sockets and clocks themselves: they are the environment.
- AWS clients, SQS, TLS, DTLS, DNS, process supervision, logging, HTTP/2 and routing: io or libraries whose code is not part of this model.
- Hex ids, percent coding, the ring of recent logs and batch splitting: they would only add easy members.
