# SIL Kit: a verified model of time synchronization, remote calls and the protocols of its integration tests

SIL Kit lets participants of a distributed simulation exchange messages and advance a common
virtual time. This project models, in Dafny,

* the distributed time synchronization: any number of participants, each with its own step
  size and with a blocking or an asynchronous step handler, that announce their next steps to
  each other over channels which keep the order (`TimeConfiguration.dfy`, `TimeSync.dfy`,
  `TimeSyncTheorems.dfy`, `TimeSyncProgress.dfy`, `TimeSyncAdvance.dfy`, `TimeSyncStart.dfy`,
  `TimeSyncOrdered.dfy`, `TimeSyncShortPeriod.dfy`, `TimeSyncZeroPeriod.dfy`,
  `TimeSyncTicks.dfy`);
* remote procedure calls in the library: active calls, timeouts, late answers and any number
  of servers, discovered at any time (`RpcCalls.dfy`, `RpcCallsTheorems.dfy`, `RpcTimers.dfy`);
* the concurrent protocols of the integration tests: the handoff between a step handler and a
  worker thread (`Counter.dfy`, `SimTask.dfy`), asynchronous step completion in two forms
  (`AsyncSimTask.dfy`) and the barrier (`Barrier.dfy`);
* their schedulers and state machines: the LIN timer and its two schedules
  (`LinSchedule.dfy`), the deferred LIN response (`LinDeferredResponse.dfy`), publish/subscribe
  participants (`Senders.dfy`, `Fifo.dfy`, `PubSub.dfy`, `PubSubParticipant.dfy`), remote call
  participants (`RpcHarness.dfy`, `RpcParticipant.dfy`), the deterministic simulation test
  (`DeterministicSim.dfy`) and the simulated networks (`NetSim.dfy`);
* the trunk and hazard gateway of the body domain test case (`Hpc.dfy`).

## How to read it

A concurrent protocol is a `State`, an `Event` type, a predicate `Enabled` and a function
`Apply`; `ValidRun` and `Exec` extend both to event lists. An event list is one interleaving,
so a theorem over all valid event lists holds in every run. Each machine has an inductive
invariant (`Inv`), one preservation lemma per kind of event, and theorems read off from it.
An object whose methods change its fields is a class; each method promises that the abstract
value of the object (`Model()`) changes as the corresponding function says, and the theorems are
about these functions.

Environment assumptions are written into `Enabled` or into a `requires`: channels keep the
order per sender; the runtime begins an asynchronous step only after the previous one was
completed; a gateway routine is atomic, and its worker sends to Zonal B and to telematics in
turn; a server of remote calls gets calls as soon as it is registered, and the client counts it
when it discovers it, at any time after that; a LIN header is delivered before the slave's step
two milliseconds after it. Condition variables may wake without a notification everywhere.

`TimeSync` lets a participant handle its messages and its queued checks in any order. What is
proved of all its runs therefore holds of the runs of the IO thread, which keeps the order in
which work is queued. Where that order matters, `TimeSyncOrdered` asks for it: before its first
check a participant handles only messages that were there when it started.

## What was found not to hold in general

Each of these is stated with the exact condition under which the code does meet the property,
or with a run that shows the failure.

* `ShutdownReachesWorkerUnlessBlocking`: `running` is cleared outside the mutex, and the
  shutdown notification is lost exactly if the worker is between its test and its sleep.
* `StartCanAbortIff`: if a participant shortens its period in its first step, a coordinated
  participant can take the start for a running simulation and abort; this can happen in every
  net of three or more, and only if some period can be shortened.
* `OthersOutsideIff`: a participant that sees nobody behind its open step can rely on being the
  only one inside a step exactly if no step has duration zero.
* `UnknownResponseIff`: the client warns of a response to an unknown call as one that ran into a
  timeout; it is also one of a server that got the call before the client had discovered it.
* `ExpectationsHoldIff`: the expected results of the test client are counted by successes, and
  fail if a success follows a timeout.
* `FinalCheckIff`: the final check of the asynchronous test fails if the completion thread is told
  to stop while a step is open.
* `TimeHandlerIsDefinedIff`: the time handler of the remote call client uses the element it
  looked up before it asks whether there is one; `AnsweredCallStillExpires` is the run that
  gets there.
* `CyclicEqualsWrapping`: the two LIN schedules differ exactly on one-task lists.
* `AnsweredIffFirstHeaderAtZero`: the stamp 0 serves as "no header", which is harmless exactly
  if the first header is stamped 0.
* `ReceptionAtMostOnceIff`: the reception promise of a remote call participant is fulfilled
  once per server if no server expects calls.
* `FinalCounts`: a subscriber that announces no message, beside one that does, ends with one.
* `NobodyIsStrandedIff`: an entry too many into the barrier can leave threads waiting for ever.
* `StopsExactlyOnceIff`: the stop condition compares 32-bit sums and fires more than once
  beyond 2^32 messages.
* `AnswerAgreesIff`: a trunk request that arrives between the frame to Zonal B and the answer to
  it replaces the answer; `InterposedRequest` is a run in which that is wrong.
* `TimeConfig.TimeConfiguration.SynchronizedParticipantRemoved` throws exactly for the
  participants it knows, so that the erasure after the test never removes anybody; the model
  follows the code.

## Model

| member | source | states |
|---|---|---|
| `TimeConfig.TimeConfiguration.constructor` | SilKit/source/services/orchestration/TimeConfiguration.cpp:13-21 | a new participant has no current step, its next one is at 0 and lasts one millisecond |
| `TimeConfig.TimeConfiguration.AddSynchronizedParticipant` | SilKit/source/services/orchestration/TimeConfiguration.cpp:28-40 | a new name is added as unknown; a known one keeps its last announcement |
| `TimeConfig.TimeConfiguration.RemoveSynchronizedParticipant` | SilKit/source/services/orchestration/TimeConfiguration.cpp:43-53 | removes exactly that name and tells whether it was known |
| `TimeConfig.TimeConfiguration.OnReceiveNextSimStep` | SilKit/source/services/orchestration/TimeConfiguration.cpp:65-88 | unknown senders are ignored; a step back in time is reported but taken over |
| `TimeConfig.TimeConfiguration.SynchronizedParticipantRemoved` | SilKit/source/services/orchestration/TimeConfiguration.cpp:90-103 | throws exactly for known names, before the erasure, so that nobody is ever removed |
| `TimeConfig.TimeConfiguration.SetStepDuration` | SilKit/source/services/orchestration/TimeConfiguration.cpp:104-108 | changes the duration of the next step and nothing else |
| `TimeConfig.TimeConfiguration.AdvanceTimeStep` | SilKit/source/services/orchestration/TimeConfiguration.cpp:110-115 | the next step becomes the current one, and the new next step begins at its time point plus its duration |
| `TimeConfig.TimeConfiguration.OtherParticipantHasLowerTimepoint` | SilKit/source/services/orchestration/TimeConfiguration.cpp:129-143 | true if and only if some other participant is known to be behind our next step |
| `TimeConfig.TimeConfiguration.IsHopOn` | SilKit/source/services/orchestration/TimeConfiguration.cpp:164-192 | before the first step: yes if and only if the simulation is already running (or was found to be), and then the first step moves to the earliest announcement past a first step |
| `TimeSync.Preserve` | SilKit/source/services/orchestration/TimeSyncService.cpp:68-286 | every step of every participant keeps the invariant that ties what each one knows to what the others announced and published |
| `TimeSync.ProcessOk` | SilKit/source/services/orchestration/TimeSyncService.cpp:151-211 | the time advance check starts a step only if nobody known is behind it, and changes nothing the others rely on |
| `TimeSync.RunInv` | SilKit/source/services/orchestration/TimeSyncService.cpp:562-662 | the invariant holds in every run, for any number of participants, steps completed from outside included |
| `TimeSyncTheorems.ConservativeWindow` | SilKit/source/services/orchestration/TimeSyncService.cpp:173-211 | nobody is in a step that another participant has not announced to be ready for |
| `TimeSyncTheorems.KnowsThePast` | docs/simulation/simulation.rst:336-359 | in a step at time T a participant has received, in order and without loss, every message published in a step before T |
| `TimeSyncTheorems.DeliveryWindow` | SilKit/IntegrationTests/ITest_DifferentPeriods.cpp:188-189 | every message arrives within the receiver's own step interval |
| `TimeSyncTheorems.OthersAreOutsideTheirSteps` | SilKit/IntegrationTests/ITest_AsyncSimTask.cpp:257-266 | while a participant in an open step of positive duration sees nobody behind it, nobody else is inside a step; the exact condition is `OthersOutsideIff` |
| `TimeSyncTheorems.StepsStartInVirtualTimeOrder` | docs/simulation/simulation.rst:336-359 | over all participants together, steps start in the order of their virtual times |
| `TimeSyncTheorems.NeverStuck` | SilKit/source/services/orchestration/TimeSyncService.cpp:95-165 | as long as all participants run, a message, a deferred check or an open step is outstanding: no wake-up is lost |
| `TimeSyncTheorems.NoFalseLateJoin` | SilKit/source/services/orchestration/TimeSyncService.cpp:213-278 | a coordinated start is never mistaken for a late join if no period is shortened |
| `TimeSyncProgress.EventBound` | SilKit/source/services/orchestration/TimeSyncService.cpp:95-165 | every event of the runtime uses up what the participants may still cause, unless it starts a step or completes a step that is not open |
| `TimeSyncProgress.StepsKeepComing` | SilKit/source/services/orchestration/TimeSyncService.cpp:562-598 | in every run of n participants the work of the runtime is at most (n+1)(n+S) + nP + 2X events for S started steps, P publications and X completions of steps that were not open |
| `TimeSyncProgress.SuperfluousBound` | SilKit/IntegrationTests/ITest_AsyncSimTask.cpp:195-227 | completing a step that is not open announces nothing and only queues one more check |
| `TimeSyncAdvance.StepsAdvance` | SilKit/source/services/orchestration/TimeConfiguration.cpp:110-115 | after k steps of its own, none shorter than d, a participant is at least (k-1)d further |
| `TimeSyncAdvance.TimeGoesOn` | SilKit/source/services/orchestration/TimeSyncService.cpp:173-278 | if no step is shorter than d, S started steps of n participants have moved the next step of every one of them to at least d(S-n)/n |
| `TimeSyncAdvance.StepsFollowEachOther` | SilKit/source/services/orchestration/TimeConfiguration.cpp:110-115 | in every run, with periods changed at will, the next step of a participant begins exactly where its current one ends, and the first one at 0 |
| `TimeSyncAdvance.StepsAreEvenlySpaced` | SilKit/IntegrationTests/ITest_DifferentPeriods.cpp:188-194 | with one unchanged period d, in every run the k-th step of a participant is at exactly (k-1)d and lasts d |
| `TimeSyncAdvance.SpacedEvent` | SilKit/source/services/orchestration/TimeSyncService.cpp:250-278 | a started step is the one that was next, a changed period is that of the next step, and no other event moves a step |
| `TimeSyncAdvance.PublishesWhatItIsTold` | SilKit/IntegrationTests/ITest_DifferentPeriods.cpp:188-194 | in every run a participant has published exactly the payloads it was told to, in order |
| `TimeSyncShortPeriod.ShortenedPeriodAbortsTheStart` | SilKit/source/services/orchestration/TimeConfiguration.cpp:164-192 | in every initial net of three or more, a participant that can shorten its period can get any other one aborted, in a run that handles no message while a check is queued |
| `TimeSyncShortPeriod.LongerNeverAborts` | SilKit/source/services/orchestration/TimeSyncService.cpp:250-278 | any number of participants that set no period shorter than the initial ones never abort, in any order of work |
| `TimeSyncShortPeriod.StartCanAbortIff` | SilKit/source/services/orchestration/TimeConfiguration.cpp:164-192 | for every initial net, with any periods and handler modes: some ordered run that sets periods to q aborts somebody if and only if there are three participants or more and q is shorter than one of their periods |
| `TimeSyncShortPeriod.UnorderedStartCanAbortIff` | SilKit/source/services/orchestration/TimeSyncService.cpp:95-111 | if answers to an announcement could overtake the check queued with it, which the IO thread excludes, two participants would be enough |
| `TimeSyncOrdered.TwoNeverAbort` | SilKit/source/services/orchestration/TimeSyncService.cpp:95-111 | two participants never abort in an ordered run, whatever periods they set |
| `TimeSyncOrdered.PromptIsOrdered` | SilKit/source/core/vasio/VAsioConnection.hpp:164-167 | a run that handles no message while a check is queued is an ordered run |
| `TimeSyncTicks.EveryArrivalIsInTime` | SilKit/IntegrationTests/ITest_DeterministicSimVAsio.cpp:180-186 | with one period for everybody, in every run every message is handled in the step it was sent in or just before |
| `TimeSyncStart.BeginsFirstStep` | SilKit/source/services/orchestration/TimeSyncService.cpp:113-165 | in a coordinated start any participant can be the next to hear of all the others, and then begins its first step |
| `TimeSyncZeroPeriod.ZeroStepMeetsAnother` | SilKit/source/services/orchestration/TimeSyncService.cpp:229-248 | a run in which a participant with a step of duration zero sees nobody behind it while another one is inside a step |
| `TimeSyncZeroPeriod.OthersOutsideIff` | SilKit/IntegrationTests/ITest_AsyncSimTask.cpp:257-266 | for every initial net whose periods may be set to q: the others are outside their steps in all runs, or in all prompt ones, if and only if there is but one participant, or neither q nor an initial duration is zero |
| `CounterCodec.CodecRoundTrip` | SilKit/IntegrationTests/ITest_SimTask.cpp:23-89 | decoding the published bytes gives back both 32-bit fields, for all values |
| `CounterCodec.WireForm` | SilKit/IntegrationTests/ITest_SimTask.cpp:40-66 | each of the eight bytes as a literal quotient of the minor or major field |
| `CounterCodec.GatherBound` | SilKit/IntegrationTests/ITest_SimTask.cpp:68-78 | the bytes gathered so far stay below the next byte's place, so that adding it is or-ing it in |
| `CounterCodec.ExtractValue` | SilKit/IntegrationTests/ITest_SimTask.cpp:68-78 | the decoding loop gathers eight bytes into one 64-bit value, byte i with weight 256^i |
| `CounterCodec.Counter.IncrementMajor` | SilKit/IntegrationTests/ITest_SimTask.cpp:29-33 | the next major number, modulo 2^32, with the minor number reset |
| `CounterCodec.Counter.IncrementMinor` | SilKit/IntegrationTests/ITest_SimTask.cpp:35-38 | the next minor number, modulo 2^32, with the major number kept |
| `CounterCodec.Counter.PublishValue` | SilKit/IntegrationTests/ITest_SimTask.cpp:55-66 | the eight bytes are the minor field and then the major field, each from its lowest byte, and decode to the two fields |
| `SimTask.PublishedInOrder` | SilKit/IntegrationTests/ITest_SimTask.cpp:159-218 | in every interleaving, shutdown included, the decoded messages are (1,1), (1,2), (1,3), (2,1) and so on, without gap or repetition |
| `SimTask.EveryStepPublishesThree` | SilKit/IntegrationTests/ITest_SimTask.cpp:159-218 | in every run, after k steps begun exactly 3k messages are published, and in the k-th step between 3(k-1) and 3k-1 |
| `SimTask.IdleHandlerBegins` | SilKit/IntegrationTests/ITest_SimTask.cpp:166-174 | a running idle handler begins a step if and only if the time is not up, and clears the flag if and only if it is |
| `SimTask.CounterIsExclusive` | SilKit/IntegrationTests/ITest_SimTask.cpp:159-218 | the two threads never touch the counter at once, although the handler holds no mutex while it does |
| `SimTask.NoLostHandoff` | SilKit/IntegrationTests/ITest_SimTask.cpp:179-217 | a thread sleeps with its condition true only while the other still owes its notification |
| `SimTask.SomeThreadCanMove` | SilKit/IntegrationTests/ITest_SimTask.cpp:179-217 | in an open step some thread can move, without help from spurious wake-ups |
| `SimTask.EveryMoveCounts` | SilKit/IntegrationTests/ITest_SimTask.cpp:179-217 | every thread step shrinks what is left of the simulation step |
| `SimTask.EveryStepFinishes` | SilKit/IntegrationTests/ITest_SimTask.cpp:179-217 | a simulation step is over after at most 49 thread steps and four events per spurious wake-up, however they interleave |
| `SimTask.ShutdownWakeupCanBeLost` | SilKit/IntegrationTests/ITest_SimTask.cpp:159-178 | a run in which the worker sleeps for ever after the shutdown |
| `SimTask.ShutdownReachesWorkerUnlessBlocking` | SilKit/IntegrationTests/ITest_SimTask.cpp:159-178 | the worker never sleeps again after the shutdown notification if and only if it was not just about to block |
| `AsyncLockstep.IncrementsAlternate` | SilKit/IntegrationTests/ITest_AsyncSimTask.cpp:55-110 | the increments of the counter strictly alternate, the handler first |
| `AsyncLockstep.IncrementsAreCounted` | SilKit/IntegrationTests/ITest_AsyncSimTask.cpp:55-110 | every step the runtime begins is counted, and until the end the counter was incremented once for each begun and each completed step |
| `AsyncLockstep.OneActiveStep` | SilKit/IntegrationTests/ITest_AsyncSimTask.cpp:55-110 | zero or one step is active, and exactly one whenever the completer has passed its wait |
| `AsyncLockstep.HandlerNeverBlocks` | SilKit/IntegrationTests/ITest_AsyncSimTask.cpp:55-110 | the handler always finds the counter even |
| `AsyncLockstep.OpenStepIsServed` | SilKit/IntegrationTests/ITest_AsyncSimTask.cpp:55-110 | before the end an open step is never stuck |
| `AsyncLockstep.OpenStepIsServedWithin` | SilKit/IntegrationTests/ITest_AsyncSimTask.cpp:55-110 | an open step is completed, or the end reached, within 24 events and seven more per spurious wake-up |
| `AsyncLockstep.CompleterLeaves` | SilKit/IntegrationTests/ITest_AsyncSimTask.cpp:74-119 | once the last handler step has notified, the completer never sleeps again and leaves after at most three steps of its own |
| `AsyncMailbox.StartsAndCompletionsInterleave` | SilKit/IntegrationTests/ITest_AsyncSimTask.cpp:269-301 | start i precedes completion i precedes start i+1; a full mailbox means one open step |
| `AsyncMailbox.AssertValid` | SilKit/IntegrationTests/ITest_AsyncSimTask.cpp:242-255 | accepts exactly if the thread is told to stop, the mailbox is empty and the stamps are in that order |
| `AsyncMailbox.FinalCheckIff` | SilKit/IntegrationTests/ITest_AsyncSimTask.cpp:242-255 | when both threads are done, the final check accepts if and only if every started step was completed |
| `AsyncMailbox.FinalCheckAccepts` | SilKit/IntegrationTests/ITest_AsyncSimTask.cpp:283-301 | it accepts if the thread is told to stop while no step is open and none begins later |
| `AsyncMailbox.FinalCheckCanFail` | SilKit/IntegrationTests/ITest_AsyncSimTask.cpp:283-301 | a run in which it does not accept |
| `AsyncMailbox.NoStepIsForgotten` | SilKit/IntegrationTests/ITest_AsyncSimTask.cpp:269-301 | an open step is in the handler, in the mailbox or being completed, and some thread can move |
| `AsyncMailbox.OpenStepIsCompletedWithin` | SilKit/IntegrationTests/ITest_AsyncSimTask.cpp:269-301 | every step begun is stamped, and an open one is completed within 17 events and eight more per timeout or spurious wake-up |
| `Barrier.NobodyReturnsEarly` | SilKit/IntegrationTests/IntegrationTestUtils.hpp:59-80 | with at most the expected number of threads, none returns before all of them have entered |
| `Barrier.NobodySleepsForgotten` | SilKit/IntegrationTests/IntegrationTestUtils.hpp:59-80 | after the last entry a thread sleeps only while another is bound to notify it |
| `Barrier.StopsOnlyWhenDone` | SilKit/IntegrationTests/IntegrationTestUtils.hpp:59-80 | when no thread can move, all have returned if all came, and all wait if somebody is missing |
| `Barrier.EveryRunEnds` | SilKit/IntegrationTests/IntegrationTestUtils.hpp:59-80 | with n threads a run has at most n(2n+4) steps and three more per spurious wake-up |
| `Barrier.StrandedForever` | SilKit/IntegrationTests/IntegrationTestUtils.hpp:70 | a thread that waits when the number is passed never returns |
| `Barrier.NobodyIsStrandedIff` | SilKit/IntegrationTests/IntegrationTestUtils.hpp:59-80 | that cannot happen if and only if no more than the expected number enter, or at most one is expected |
| `LinSchedule.Timer.ExecuteAction` | SilKit/IntegrationTests/ITest_Lin.cpp:43-51 | hands out the action exactly if active and due, and is inactive by then |
| `LinSchedule.Schedule.constructor` | SilKit/IntegrationTests/ITest_Lin.cpp:63-77 | construction arms the first task, if there is one |
| `LinSchedule.Schedule.ResetSchedule` | SilKit/IntegrationTests/ITest_Lin.cpp:73-77 | moves the cursor to the first task and arms it, due at now plus its delay |
| `LinSchedule.Schedule.EnableCyclic` | SilKit/IntegrationTests/ITest_Lin.cpp:79-82 | switches the cyclic mode and changes neither cursor nor timer |
| `LinSchedule.Schedule.ScheduleNextTask` | SilKit/IntegrationTests/ITest_Lin.cpp:84-96 | arms the task at the cursor, due at now plus its delay, and moves the cursor, wrapping in cyclic mode only; past the end it does nothing |
| `LinSchedule.Schedule.ExecuteTask` | SilKit/IntegrationTests/ITest_Lin.cpp:98-102 | runs the task if and only if its timer is active and due; it may schedule any number of times while it runs |
| `LinSchedule.FiresInOrderAndOnTime` | SilKit/IntegrationTests/ITest_Lin.cpp:31-102 | in every run without reset or cyclic mode, tasks fire in list order, none twice, none before its delay |
| `LinSchedule.FiresAPrefix` | SilKit/IntegrationTests/ITest_Lin.cpp:31-102 | re-armed only when idle, no task is skipped, and fired, pending and remaining tasks add up to the list |
| `LinSchedule.FiresExactlyWhenDue` | SilKit/IntegrationTests/ITest_Lin.cpp:43-51 | in every run, cyclic or not, executing fires if and only if the delay of the task armed last has passed since, and fires that task |
| `LinSchedule.ResetArmsFirst` | SilKit/IntegrationTests/ITest_Lin.cpp:73-77 | a reset of a non-empty list arms task 0, due at now plus its delay |
| `LinSchedule.WrappingSchedule.ScheduleNextTask` | SilKit/IntegrationTests/ITest_LinDemo.cpp:84-93 | arms the task at the cursor and moves it, always wrapping |
| `LinSchedule.WrappingSchedule.ExecuteTask` | SilKit/IntegrationTests/ITest_LinDemo.cpp:95-99 | runs the due task, which may schedule while it runs |
| `LinSchedule.CyclicEqualsWrapping` | SilKit/IntegrationTests/ITest_Lin.cpp:73-96 | made cyclic after construction, the one schedule behaves like the wrapping one under all events if and only if there are at least two tasks |
| `LinSchedule.CyclicAfterResetEqualsWrapping` | SilKit/IntegrationTests/ITest_Lin.cpp:73-96 | after a reset they agree for every non-empty list |
| `LinSchedule.WrappingIsRoundRobin` | SilKit/IntegrationTests/ITest_LinDemo.cpp:78-93 | the k-th armed task is task k mod n |
| `LinDeferredResponse.AnsweredIffFirstHeaderAtZero` | SilKit/IntegrationTests/ITest_LinDynamicResponse.cpp:670-745 | in all runs every header is answered exactly once, two milliseconds after its stamp, if and only if the first one is stamped 0 |
| `LinDeferredResponse.ExchangeIsSomewhere` | SilKit/IntegrationTests/ITest_LinDynamicResponse.cpp:670-745 | an exchange is always in exactly one place and never lost |
| `LinDeferredResponse.OneHeaderPerResponse` | SilKit/IntegrationTests/ITest_LinDynamicResponse.cpp:670-745 | the master sends one header at first and one per response it gets, each in its next step |
| `Hpc.EveryRoundIsCorrect` | Domain_Body_TestCase/HPC_QEMU/HPC.cpp:263-296 | opening is sent only while the vehicle stands still; if no request comes in between, Zonal B and telematics get the same command, and the verdict is exactly right and never the error |
| `Hpc.AnswerAgreesIff` | Domain_Body_TestCase/HPC_QEMU/HPC.cpp:159-176 | in every run the answer is the command byte if and only if the last request that came in between, if any, equals it, and the verdict is then about that request |
| `Hpc.FramesAreAddressed` | Domain_Body_TestCase/HPC_QEMU/HPC.cpp:210-261 | in every run the frame for Zonal B carries Zonal B's hardware and network addresses and the requested payload with the command in it; the answer carries those of telematics and the stored payload |
| `Hpc.BitsMean` | Domain_Body_TestCase/HPC_QEMU/HPC.cpp:36-50 | each bit of the info byte as a literal quotient; hazard is bits 0 and 4, moving bit 2, from the most significant one |
| `Hpc.RunsStayInBounds` | Domain_Body_TestCase/HPC_QEMU/HPC.cpp:210-261 | no routine reads outside its buffers in any run |
| `Hpc.InterposedRequest` | Domain_Body_TestCase/Telematics_QEMU/Telematic_ECU.cpp:10-47 | a run from the start in which telematics is told that the trunk was opened although the vehicle moves and Zonal B was told to close it |
| `Hpc.PatchedElsewhere` | Domain_Body_TestCase/HPC_QEMU/HPC.cpp:178-208 | only bytes 12 to 19, 30 and 31 of the payload are patched; 12 to 19 become the address fields of section 3.1 of RFC 791 |
| `Hpc.Program.ExtractBits` | Domain_Body_TestCase/HPC_QEMU/HPC.cpp:36-50 | the eight bits, most significant first |
| `Hpc.Program.FrameHandlerZonalA` | Domain_Body_TestCase/HPC_QEMU/HPC.cpp:114-126 | takes over the payload, its bits and the hazard flag |
| `Hpc.Program.FrameHandlerTelematic` | Domain_Body_TestCase/HPC_QEMU/HPC.cpp:159-176 | takes over the request and flags it only with the ignition on |
| `Hpc.Program.SendTelematic2Zonal` | Domain_Body_TestCase/HPC_QEMU/HPC.cpp:263-296 | an opening request of a moving vehicle becomes a closing one, in the buffer and in the frame, which is addressed to Zonal B |
| `Hpc.Program.SendHpc2Telematic` | Domain_Body_TestCase/HPC_QEMU/HPC.cpp:333-354 | one answer per trunk response flag, addressed to telematics and built from that buffer |
| `Hpc.Program.CreateFrame1` | Domain_Body_TestCase/HPC_QEMU/HPC.cpp:178-208 | the patches reach the frame exactly if the argument is the buffer for Zonal B |
| `Hpc.Program.SendHazard2Zonal` | Domain_Body_TestCase/HPC_QEMU/HPC.cpp:298-331 | an alternation of ON and OFF frames as long as bits 0 and 4 are set, ending in OFF, then one frame with Zonal A's own byte 44; every other byte is Zonal A's except the patches |
| `RpcCalls.RpcClient.TriggerCall` | SilKit/source/services/rpc/RpcClient.cpp:141-185 | a call without a server is reported as not reachable; otherwise it is remembered with the number of servers and its timeout |
| `RpcCalls.RpcClient.ReceiveMessage` | SilKit/source/services/rpc/RpcClient.cpp:196-226 | a known call is reported and forgotten with its last answer; an unknown one is dropped |
| `RpcCalls.RpcClient.TimeHandler` | SilKit/source/services/rpc/RpcClient.cpp:98-138 | every expired call that is still known is forgotten and reported as timed out, in order |
| `RpcCalls.RpcClient.TakeExpired` | SilKit/source/services/rpc/RpcClient.cpp:98-119 | erasing while iterating splits the entries into the expired and the counted down ones, both in order |
| `RpcCallsTheorems.Preserve` | SilKit/source/services/rpc/RpcServerInternal.cpp:37-95 | every step of client, servers and channels keeps each call in exactly one place per server |
| `RpcCallsTheorems.NextIsNew` | SilKit/source/services/rpc/RpcServerInternal.cpp:52-66 | a call is never refused as already active |
| `RpcCallsTheorems.ReportsAreSound` | SilKit/include/silkit/services/rpc/IRpcClient.hpp:36-48 | in every run no server's result is reported twice, nothing is reported for a call after its timeout, and a reported result is what that server submitted after it was given that call's argument, or an error for a call that reached no handler |
| `RpcCallsTheorems.RemembersExactly` | SilKit/source/services/rpc/RpcClient.cpp:213-226 | a call is remembered exactly until its timeout or until it has as many results as servers were counted when it was made; the difference is kept with it, and the first results to arrive are the ones reported |
| `RpcCallsTheorems.NothingIsLost` | SilKit/source/services/rpc/RpcClient.cpp:196-226 | once nothing is under way, a call without a timeout is forgotten and was reported once per server counted when it was made, and by every server that got it if and only if all of these were counted |
| `RpcCallsTheorems.UnknownResponseIff` | SilKit/source/services/rpc/RpcClient.cpp:201-211 | a response is unknown if and only if its call timed out, as the warning supposes, or as many responses arrived as servers were counted, which needs a server that got the call before the client had discovered it |
| `RpcCallsTheorems.UncountedAnswerIsUnknown` | SilKit/source/services/rpc/RpcClient.cpp:58-85 | a run without any timeout in which a response is unknown |
| `RpcCallsTheorems.TimeHandlerIsDefinedIff` | SilKit/source/services/rpc/RpcClient.cpp:121-136 | the lookup is well defined if and only if every expired call has fewer responses than servers were counted |
| `RpcCallsTheorems.AnsweredCallStillExpires` | SilKit/source/services/rpc/RpcClient.cpp:121-136 | a run in which it is not |
| `RpcTimers.QueueIsExact` | SilKit/source/services/rpc/RpcClient.cpp:98-119 | in every run the queue holds exactly the calls with a timeout that were not yet found due, in order, each with what is left of its timeout |
| `RpcTimers.TickReportsExactly` | SilKit/source/services/rpc/RpcClient.cpp:121-138 | in every run a tick reports exactly the timeouts of the calls that become due by it and are still active, in order |
| `RpcTimers.TimesOutExactly` | SilKit/source/services/rpc/RpcClient.cpp:98-138 | a call times out at the first tick at which the durations since the call add up to its timeout, if it is still active then, and never before |
| `RpcTimers.ArgumentsAreCalled` | SilKit/source/services/rpc/RpcClient.cpp:141-185 | the arguments of a run are those of the calls that found a server |
| `RpcTimers.ResultsAreSubmitted` | SilKit/source/services/rpc/RpcServerInternal.cpp:74-95 | a reported result is one that this server was told to submit for this call |
| `RpcTimers.HandlingActs` | SilKit/source/services/rpc/RpcServerInternal.cpp:37-72 | with a handler the call is passed on and kept open, without one it is answered with an error |
| `Senders.AfterRounds` | SilKit/IntegrationTests/ITest_Internals_DataPubSub.hpp:59-71 | after k rounds a sender has sent min(k, max(1, quota)) messages, and every byte of its n-th message is n modulo 256 |
| `Senders.OutcomeOfLoop` | SilKit/IntegrationTests/ITest_Internals_DataPubSub.hpp:345-381 | rounds until somebody is finished: everybody has sent the smallest effective quota, and all are finished if and only if the quotas agree |
| `Senders.SenderList.SendRound` | SilKit/IntegrationTests/ITest_Internals_DataPubSub.hpp:345-350 | every member sends once, if it is not finished |
| `Senders.SenderList.RunUntilSomeFinished` | SilKit/IntegrationTests/ITest_Internals_Rpc.hpp:478-490 | the loop ends for every list of quotas after the smallest one and then fulfils the promise once; an empty list does nothing |
| `Senders.SenderList.Step` | SilKit/IntegrationTests/ITest_Internals_DataPubSub.hpp:358-368 | one synchronized step sends once each and fulfils the promise if all are finished for the first time |
| `Senders.StepsFulfilOnce` | SilKit/IntegrationTests/ITest_Internals_DataPubSub.hpp:245-253 | the promise is fulfilled exactly once, by the step numbered like the largest effective quota |
| `PubSub.DataSubscriber.OnDataReception` | SilKit/IntegrationTests/ITest_Internals_DataPubSub.hpp:123-152 | until the announced number, data is counted and accepted exactly if every byte is the running number, or if it is found in the list, from which it is then erased |
| `PubSub.DataSubscriber.OnNewServiceDiscovery` | SilKit/IntegrationTests/ITest_Internals_DataPubSub.hpp:154-165 | sources are counted, and the flag stays once set |
| `PubSub.WithoutAt` | SilKit/IntegrationTests/ITest_Internals_DataPubSub.hpp:135-144 | erasing at the found index removes the first occurrence and leaves the rest as it is |
| `PubSub.UnorderedAcceptsExactly` | SilKit/IntegrationTests/ITest_Internals_DataPubSub.hpp:123-152 | no lookup fails if and only if the received multiset is contained in the expected one, and exactly the received data is gone then |
| `PubSub.BuildExpected` | SilKit/IntegrationTests/ITest_Internals_DataPubSub.cpp:211-216 | the expected list has n times p entries, and every byte of entry k is k divided by p |
| `PubSub.EveryMergeIsAccepted` | SilKit/IntegrationTests/ITest_Internals_DataPubSub.cpp:203-226 | for any number of publishers and messages and every merge: no lookup fails, the list ends empty and the count is complete |
| `PubSub.IncreasingAcceptsIff` | SilKit/IntegrationTests/ITest_Internals_DataPubSub.hpp:127-132 | in order, no expectation fails if and only if every counted message holds its running number modulo 256 in every byte |
| `PubSubParticipants.PromisesAreExact` | SilKit/IntegrationTests/ITest_Internals_DataPubSub.hpp:206-253 | in every run each promise is fulfilled at most once, exactly when there is nothing to wait for or every subscriber was told enough |
| `PubSubParticipants.FinalCounts` | SilKit/IntegrationTests/ITest_Internals_DataPubSub.hpp:389-392 | the final count check holds if and only if the subscriber announced a message or got none |
| `PubSubParticipants.Participant.constructor` | SilKit/IntegrationTests/ITest_Internals_DataPubSub.hpp:287-291 | promises with nothing to wait for are fulfilled at the start |
| `PubSubParticipants.Participant.OnReception` | SilKit/IntegrationTests/ITest_Internals_DataPubSub.hpp:294-300 | reception, then the check of the promise |
| `PubSubParticipants.Participant.OnDiscovered` | SilKit/IntegrationTests/ITest_Internals_DataPubSub.hpp:302-313 | discovery, then the check of the promise |
| `RpcHarness.ReturnsStopAtTarget` | SilKit/IntegrationTests/ITest_Internals_Rpc.hpp:120-155 | for every list of outcomes, successes and timeouts stop exactly at the sum of both announcements modulo 2^32 (at one, for zero), and that is when all calls count as returned |
| `RpcHarness.ClientState.OnReturn` | SilKit/IntegrationTests/ITest_Internals_Rpc.hpp:402-415 | outcomes are counted until all calls returned; others are ignored |
| `RpcHarness.ClientState.OnCallReturned` | SilKit/IntegrationTests/ITest_Internals_Rpc.hpp:120-145 | a result is accepted exactly if every byte is the number of successes plus 100, or if it is found in the list, from which it is then erased; it is counted |
| `RpcHarness.ExpectationsHoldIff` | SilKit/IntegrationTests/ITest_Internals_Rpc.hpp:97-155 | one client, one server: in every run every byte of the k-th argument is k and of the k-th result k + 100, modulo 256; the client's expectations all hold if and only if the number of earlier calls that timed out is a multiple of 256 for every result it counted, or payloads are empty |
| `RpcHarness.TimeoutBreaksExpectation` | SilKit/IntegrationTests/ITest_Internals_Rpc.hpp:120-155 | a run in which a success after a timeout fails the expectation |
| `RpcHarness.FinalRunIsComplete` | SilKit/IntegrationTests/ITest_Internals_Rpc.hpp:432-447 | a run that cannot go on has served every call, and every call has had its outcome if the server replies or calls time out |
| `RpcParticipants.ReceptionPromise` | SilKit/IntegrationTests/ITest_Internals_Rpc.hpp:293-323 | the reception promise is fulfilled once per server if nothing is expected, otherwise at most once and exactly when every server got its calls |
| `RpcParticipants.ReceptionAtMostOnceIff` | SilKit/IntegrationTests/ITest_Internals_Rpc.hpp:428-430 | at most once in every run if and only if there is at most one server or some server expects calls |
| `RpcParticipants.ReturnPromise` | SilKit/IntegrationTests/ITest_Internals_Rpc.hpp:325-334 | fulfilled at most once, exactly when every client reached its target |
| `RpcParticipants.DiscoveryPromise` | SilKit/IntegrationTests/ITest_Internals_Rpc.hpp:357-376 | fulfilled at most once, exactly when some function was discovered and the expected names, with their multiplicity, all were |
| `RpcParticipants.Participant.PrepareServer` | SilKit/IntegrationTests/ITest_Internals_Rpc.hpp:428-430 | creating a server prepares the promise again |
| `RpcParticipants.Participant.ProcessCall` | SilKit/IntegrationTests/ITest_Internals_Rpc.hpp:432-447 | answers with every byte incremented, unless told not to reply, then counts the call and checks the promise |
| `RpcParticipants.Participant.OnReturned` | SilKit/IntegrationTests/ITest_Internals_Rpc.hpp:402-415 | counts the outcome and checks the promise |
| `RpcParticipants.Participant.OnNewServiceDiscovery` | SilKit/IntegrationTests/ITest_Internals_Rpc.hpp:357-376 | erases the first such name and fulfils the promise when none is left |
| `DeterministicSim.ParseFormat` | SilKit/IntegrationTests/ITest_DeterministicSimVAsio.cpp:87-96 | parsing undoes printing for every tick of 63 bits and every index of 32 |
| `DeterministicSim.PrintedDigits` | SilKit/IntegrationTests/ITest_DeterministicSimVAsio.cpp:87-96 | the k-th printed digit from the right is n divided by 10^k modulo 10 |
| `DeterministicSim.MessageText` | SilKit/IntegrationTests/ITest_DeterministicSimVAsio.cpp:87-96 | the text is the name, the tick and the index with single spaces |
| `DeterministicSim.Publisher.Step` | SilKit/IntegrationTests/ITest_DeterministicSimVAsio.cpp:63-68 | each step sends the next index, up to the test size |
| `DeterministicSim.Subscriber.Accumulate` | SilKit/IntegrationTests/ITest_DeterministicSimVAsio.cpp:195 | the sum of the indexes modulo 2^32 |
| `DeterministicSim.Subscriber.ReceiveMessage` | SilKit/IntegrationTests/ITest_DeterministicSimVAsio.cpp:156-200 | a message counts exactly if its tick is the current one or one millisecond later and its index is the expected one; failures and the stop on the complete sum follow |
| `DeterministicSim.StopsExactlyOnceIff` | SilKit/IntegrationTests/ITest_DeterministicSimVAsio.cpp:156-200 | for every merge of all streams no check fails, and the simulation is stopped exactly once if and only if there are between 1 and 2^32 messages |
| `DeterministicSim.NeverStopsEarly` | SilKit/IntegrationTests/ITest_DeterministicSimVAsio.cpp:193-199 | before the last message no interleaving stops it |
| `NetSim.Network.ProvideSimulatedController` | SilKit/IntegrationTests/ITest_NetSimCan.cpp:85-102 | appends the controller and counts the call |
| `NetSim.Network.OnMessage` | SilKit/IntegrationTests/ITest_NetSimLin.cpp:206-284 | counts the message and produces exactly the events of its kind |
| `NetSim.EachRequestOnce` | SilKit/IntegrationTests/ITest_NetSim.hpp:379-438 | in every run, with controllers provided at any time, each controller gets each event exactly once per request that concerns it |
| `NetSim.DeliveriesAreExact` | SilKit/IntegrationTests/ITest_NetSim.hpp:379-438 | with all controllers provided first: requests times controllers, and one answer per request to its sender |
| `NetSim.CanDeliveries` | SilKit/IntegrationTests/ITest_NetSimCan.cpp:127-150 | frames are delivered requests times controllers, with one acknowledge per request |
| `NetSim.FlexrayDeliveries` | SilKit/IntegrationTests/ITest_NetSimFlexRay.cpp:222-249 | n wake-ups of n controllers give n times n events of each broadcast kind and n symbol transmits |
| `NetSim.LinDeliveries` | SilKit/IntegrationTests/ITest_NetSimLin.cpp:206-284 | status events are frame requests other than sleep, plus sleep updates, plus dynamic responses, times controllers |

## Left out

- TimeSync: participants that join or leave a running simulation, autonomous operation after a late join, pausing, stopping and the coupling to the wall clock; a participant that aborts takes no further part.
- RpcCalls: removal of a server while calls are open, and the interleaving of the client's threads inside one routine; a call is identified by its number instead of a random identifier.
- RpcCalls.RpcClient.TimeHandler: the use of an element that is not there is counted and otherwise has no effect.
- RpcHarness: the server side is modelled by the subscriber of `PubSub`, whose code is the same.
- AsyncMailbox: the variant of participant A that records its own stamps.
- AsyncMailbox and AsyncLockstep: no class, because the shared data is changed by two threads; the machines model update in place step by step.
- Barrier: time limits of the wait and the destructor.
- CounterCodec.ExtractValue: `or` and shifts of words are modelled as additions and multiplications by powers of 256.
- Hpc.Program.SendHazard2Zonal: pauses, console output and MQTT; a blinking that never ends has no result.
- Hpc: start-up of the two workers and the validity of the IPv4 checksum; frames shorter than the offsets the source reads.
- PubSub.DataSubscriber.OnNewServiceDiscovery: the wrap-around of the source counter after 2^32 discoveries.
- PubSub.BuildExpected: more than 255 messages per publisher, for which the byte counter of the source's loop never ends.
- DeterministicSim.Subscriber.ReceiveMessage: signs before numbers are not parsed; the publishers never print one.
- LinDynamicResponse: the timer chain that checks response resets and the erasure after a response.
- NetSim: the Ethernet network, which repeats the CAN fan-out, controller removal, and the payloads of the events.
- Registry, service discovery, label matching, transport, logging, the dashboard, language bindings, demos and build scripts: not part of this model.
