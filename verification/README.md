# Codex queue bot: a verified model

The bot runs Codex requests for a list of targets. A target can be *queued* (retried until it succeeds), *kept alive*
(called again at random intervals) or asked once, *ad hoc*. Any number of goroutines compete for two things under one
mutex: the target, through its arbiter, and one of a limited number of process slots. Around that are the observers of
the job state, the configuration database, the web handlers that change manager and database together, and the message
adapters that are reloaded while they run.

To verify everything: `dafny verify dfyconfig.toml`.

## How it is put together

| files | what they hold |
|---|---|
| `JobState`, `JobSteps`, `JobApi`, `JobRegistry` | The job manager as a protocol: its state, and a function for every section of code that runs under the lock |
| `JobInvariant`, `JobFrame`, `JobKeeps`, `JobApiKeeps`, `JobRegistryKeeps` | The invariant, local to a goroutine and its target, and the proofs that every section keeps it (rely and guarantee) |
| `JobRuns` | Runs: any interleaving of goroutines, callers and the outside world; `Sound` is what holds in all their states |
| `JobSafety`, `JobHistory`, `JobShutdown`, `JobDrain`, `JobStarts`, `JobOverlaps` | The theorems about states and runs |
| `JobOutcomes`, `JobAnswers`, `JobEndings`, `JobSchedule` | What calls, runs, callers, stops and timers come to, said without the protocol's own functions |
| `ManagerTables`, `Manager`, `ManagerRuns` | The manager as a class with the program's fields; every method is proved against the protocol's function, and together they carry out any run |
| `Streams`, `StatusStore` | Bounded observer channels, and the status store that uses them |
| `Reload`, `Messages` | The reload protocol of the message adapters, and the class that runs it |
| `Text`, `Targets`, `Configuration`, `Store`, `Catalog` | Names, targets, validation, the database's transactions, and the handlers |
| `RememberedEvents`, `TailBuffer` | Two bounded memories |

A goroutine is a value with a program counter; its index is its identity. A channel that is closed and replaced is a
generation counter: who captured an older generation can wake up. A cancel function is the index of the goroutine whose
context it cancels. A `select` with several cases ready is a free choice, and so are what the runner returns, the samples
of the keepalive interval and the passing of time. `startQueue` and `startKeepalive` may take their second section at any
time, not only after `prepareMode` said so: what is proved of all runs holds for more runs than the program has. Where a
run is to show that something happens, it is one whose starts `prepareMode` has let through (`JobOverlaps.Called`).

`Manager` keeps no ghost state. What `goroutines` holds beside their stacks and contexts, that is `calls`, `results`,
`registered`, `handed` and `verdict`, is history kept as ordinary data: nothing the program does depends on it. The contracts read: if
the fields show state `s` of the protocol, then afterwards they show the state the protocol's function gives. The
protocol's functions in turn are what the theorems are about, and `ManagerRuns.PerformAll` joins the two: any run of the
protocol is carried out by the manager's methods.

## What the proofs found

* `waiting_queue` is a state no keepalive is ever in: the branch that sets it is never taken
  (`JobSafety.ModesAreExclusive`), and the slot a keepalive has acquired is never given back for it.
* The worker counts are not bounded by one, an ad-hoc request can own a target whose mode is on, and the slots in use can
  exceed a lowered limit. `JobOverlaps` shows a run for each and says exactly which step does it. The first two need two
  callers that `prepareMode` let through, or one and an ad-hoc request in between; a caller that comes later waits. None
  of it makes runner calls overlap.
* A keepalive keeps its interval only between changes of the settings: a timer that has fired when new intervals are
  drawn is not called back, and the request due later goes out at once (`JobSchedule.StaleTimerFires`). Nothing else makes
  one early (`JobSchedule.OnlyAStaleTimerFiresEarly`).
* The table's NOCASE constraint alone does not keep the database loadable: names that differ in the case of a letter
  outside ASCII pass it (`ConfigStore.NotLoadedHappens`). `ConfigStore.Store.CreateTarget` says exactly when such a write
  is committed and then reported as failed; the manager's lower-case key check is what rules it out
  (`TargetCatalog.CreateIsSafe`).
* The comments promise one token rule for both adapters: none keeps it, an empty one clears it. A token of spaces is kept
  by OpenILink and cleared by Telegram (`ConfigStore.TokenRulesDiffer`). The model follows the code.
* `UpdateSettings` says that waiting retry timers are resampled too. There are none: a failed queue attempt competes for
  the target again at once (`JobSafety.NoRetryTimer`). The model follows the code.

## Model

| member | source | states |
|---|---|---|
| `JobSafety.ManagerIsSound` | internal/jobs/manager.go:234-274 | A manager built from any sorted target list with distinct ids and keys starts in a state that satisfies the whole invariant |
| `JobRuns.NextKeepsCore` | internal/jobs/manager.go:276-1655 | Every section of code that runs under the lock, of a goroutine or of a caller, and every move of the outside world keeps the invariant, in any interleaving |
| `JobRuns.NextKeepsObserved` | internal/jobs/manager.go:1133-1173 | After every such step an open observer that has drained its channel holds exactly the current snapshot, and nobody has missed an event |
| `JobRuns.QuietIsInvisible` | internal/jobs/manager.go:1253-1274 | A section that does not broadcast changes nothing a snapshot shows |
| `JobRuns.NewIsRegistered` | internal/jobs/manager.go:265-272 | New files every configured target once, under its normalized name, in the configured order |
| `JobSafety.SingleFlight` | internal/jobs/manager.go:1253-1368 | At most one runner call is in progress per target, and the goroutine inside owns the target with its own run number |
| `JobSafety.OwnerIsAlive` | internal/jobs/manager.go:1478-1487 | An owned arbiter has a live goroutine of that kind and run number behind it |
| `JobSafety.BusyTargetContinues` | internal/jobs/manager.go:1472-1487 | A busy target is never removed, renamed or rebound by any step, and its arbiter is released only by the goroutine that took it: not by a stop and not by another run |
| `JobSafety.ModeExclusion` | internal/jobs/manager.go:919-971 | Queue goroutines and keepalive goroutines never coexist on a target |
| `JobSafety.ModesAreExclusive` | internal/jobs/manager.go:1286-1301 | No keepalive is ever in waiting_queue; while one mode is on, the other is off and has no worker left |
| `JobSafety.SlotIsNotWasted` | internal/jobs/manager.go:1309-1337 | A run that is current and has got a slot starts its call next: the slot is never handed back unless the run was stopped |
| `JobSafety.PoolIsExact` | internal/jobs/manager.go:1557-1615 | slotsInUse is the number of goroutines holding a slot, currentProcesses the number inside a counted call, runWG the number still running, and processes never exceed slots |
| `JobSafety.GuardsNeverBite` | internal/jobs/manager.go:1575-1615 | The "> 0" guards before every decrement always hold |
| `JobSafety.ExcessGrowsOnlyByLowering` | internal/jobs/manager.go:1557-1573 | No step but a lowering of the limit makes the slots in use exceed the limit by more than before |
| `JobSafety.LimitIsKept` | internal/jobs/manager.go:1557-1573 | Over any run without a lowering that starts within the limit, the slots in use stay within it |
| `JobOverlaps.ExcessComesFromLowering` | internal/jobs/manager.go:661-664 | From within the limit, a step leads above it if and only if it lowers the limit below what is in use |
| `JobOverlaps.NeverExceeded` | internal/jobs/manager.go:1557-1573 | Over any run: the slots in use stay within the limit throughout if and only if no step on the way lowers it below what is in use |
| `JobOverlaps.LimitCanBeExceeded` | internal/jobs/manager.go:661-664 | Two idle targets are started and get a slot each, and the limit is lowered to one: more slots are in use than the limit allows, in a run whose starts prepareMode has let through |
| `JobSafety.NoLostWakeUp` | internal/jobs/manager.go:1489-1493 | Whoever waits on the current generation of a channel has its condition against it right now |
| `JobSafety.SlotHoldersMove` | internal/jobs/manager.go:1557-1615 | No slot holder ever waits for anything |
| `JobSafety.HolderMoves` | internal/jobs/manager.go:1253-1307 | Whoever is blocked on a target waits for the very goroutine that has taken it, which can take a step or waits for a slot |
| `JobSafety.NoDeadlock` | internal/jobs/manager.go:1253-1337 | With a limit of at least one, what a blocked goroutine waits for is on its way: the goroutine that has its target can take a step, or it or the blocked one waits for a slot and a slot holder can |
| `JobSafety.ScheduleIsInWindow` | internal/jobs/manager.go:1424-1433 | A waiting keepalive is due between keepaliveMin and keepaliveMax after it was last sampled, under the settings in force |
| `JobSafety.TimerIsCurrent` | internal/jobs/manager.go:1622-1649 | A sleeping keepalive has its timer set for the current nextRequest, or its schedule channel is already closed |
| `JobSafety.NoRetryTimer` | internal/jobs/manager.go:1370-1388 | No queue ever waits for a retry timer: nextAttempt is always zero |
| `JobSafety.BusyMeansWorkedOn` | internal/jobs/manager.go:913-917 | A target is busy if and only if some goroutine that has not returned works on it |
| `JobSafety.RunHasOneWorker` | internal/jobs/manager.go:340-361 | Two live goroutines of one kind on one target are never both current |
| `JobSafety.RunHasAWorker` | internal/jobs/manager.go:340-361 | A queue that is Running, and a keepalive that is not Stopped, has a live goroutine with its run number |
| `JobSafety.CommitsAreQuiescent` | internal/jobs/manager.go:810-829 | When update or delete reaches persist, no goroutine works on the target |
| `JobSafety.WaitMeansQuiescent` | internal/jobs/manager.go:606-618 | When the wait group is down to zero, no slot, process, arbiter or worker count is held and every mode is off |
| `JobOverlaps.WorkersCanOverlap` | internal/jobs/manager.go:295-364 | In each mode, on any idle target: two callers that prepareMode has both let through, with a stop between their starts, leave two workers on the target; every start of that run is one prepareMode has let through |
| `JobOverlaps.OverlapsComeFromStarts` | internal/jobs/manager.go:312-362 | From at most one worker of a mode, a step leads to more than one if and only if it is a start of that mode that succeeds while one is still counted |
| `JobOverlaps.OneAtATime` | internal/jobs/manager.go:312-362 | Over any run: at most one worker of a mode throughout if and only if no start on the way finds one |
| `JobOverlaps.AdhocCanSlipIn` | internal/jobs/manager.go:682-715 | In each mode: an ad-hoc reservation after prepareMode has let a caller through owns the target while its mode is on, in a run whose start prepareMode has let through |
| `JobOverlaps.SharingComesFromStarts` | internal/jobs/manager.go:312-362 | A step makes a mode be on beside an ad-hoc owner if and only if it is a start of that mode that succeeds while the request owns the target |
| `JobOverlaps.NeverShared` | internal/jobs/manager.go:682-715 | Over any run: no mode on beside an ad-hoc owner throughout if and only if no start on the way finds such an owner |
| `JobOverlaps.IdleStartsAreAlone` | internal/jobs/manager.go:919-971 | In a run whose starts all find the target idle neither happens |
| `JobOverlaps.PreparedIsIdle` | internal/jobs/manager.go:923-971 | prepareMode lets a caller through only where no worker of the mode is counted, and leaves a target that the start would find idle: it takes something in between |
| `JobStarts.StepIsSeen` | internal/jobs/manager.go:276-902 | All one step can do to a target: start a run of one mode, which adds one worker of that mode and leaves the other mode and the owner alone; take it for an ad-hoc request when it is idle; or start nothing |
| `JobHistory.EndedIsStale` | internal/jobs/manager.go:1374-1374 | A run has ended exactly if its goroutine no longer passes the run number and state check |
| `JobHistory.EndedForEver` | internal/jobs/manager.go:976-1013 | Once a run has succeeded or was stopped or cancelled it stays so; it makes no further call, gets no subscriber and hands nothing over, over any run |
| `JobHistory.EndedRunIsFenced` | internal/jobs/manager.go:1354-1470 | However late it comes, a step of an ended run changes no state, attempt count, timestamp, error or subscriber of any target |
| `JobHistory.StopEndsTheRun` | internal/jobs/manager.go:387-421 | A stop ends the current run of the target at once |
| `JobHistory.AttemptsAreNumbered` | internal/jobs/manager.go:1362-1367 | Within a run the runner gets 1, 2, 3, ... without a gap, and attempts (requests) equals the calls begun |
| `JobHistory.SubscribersAreConserved` | internal/jobs/manager.go:1390-1414 | A queue run that succeeded has handed over exactly the subscribers registered with it, once; one that was stopped or cancelled none; while it is current the job holds exactly them |
| `JobHistory.NoSubscribersUnlessRunning` | internal/jobs/manager.go:984-989 | A job that is not running has no subscribers |
| `JobHistory.SubscribingRegisters` | internal/jobs/manager.go:326-340 | Asking to start a target registers the subscriber with the run there is, or with the new one |
| `JobHistory.JoiningIsRegistered` | internal/jobs/manager.go:299-310 | A caller whom prepareMode refuses because the target is running is registered with the run there is |
| `JobHistory.ObserverAgrees` | internal/jobs/manager.go:547-572 | An observer has been sent the consecutive events since it subscribed, within its buffer; open and drained, it holds the current snapshot |
| `JobHistory.ObserversAreOnlyDroppedForMissing` | internal/jobs/manager.go:1158-1173 | A section publishes at most one event; it closes an observer only on request or if the event does not fit its buffer |
| `JobHistory.ClosedStaysClosed` | internal/jobs/manager.go:1169-1170 | A closed observer gets nothing more, over any run |
| `JobHistory.SnapshotIsExact` | internal/jobs/manager.go:1133-1156 | A snapshot lists the targets in order; one is busy if and only if a goroutine that has not returned works on it, and shows an ad-hoc request if and only if such a goroutine does; every other field is the target's, its job's or its keepalive's of that name |
| `JobOutcomes.QueueOutcome` | internal/jobs/manager.go:1193-1208 | What the runner returns decides: after a success the job has succeeded, its subscribers are handed over and the target is free; after a failure nothing is recorded yet and the failure is carried on, or the cancellation if the context is done |
| `JobOutcomes.FailureIsRetried` | internal/jobs/manager.go:1209-1219 | A failed attempt is recorded with its error and the run stays current: it lets go of the target and competes for it again |
| `JobOutcomes.DeliveredIsEarned` | internal/jobs/manager.go:1175-1220 | A run that was delivered got as many results as it made calls: failures, and at last a success |
| `JobOutcomes.LastFailureIsShown` | internal/jobs/manager.go:1370-1388 | A queue run that goes on has only failed so far, and the job shows the last error |
| `JobOutcomes.KeepaliveReturns` | internal/jobs/manager.go:1229-1235 | What a keepalive's call returns is carried to its record unchanged, unless its context is done |
| `JobOutcomes.KeepaliveIsFiled` | internal/jobs/manager.go:1416-1437 | A success is filed under lastSuccess, a failure under lastFailure with its error; the target is free and the next request is due after the sampled delay |
| `JobOutcomes.CancelIsRecorded` | internal/jobs/manager.go:1439-1470 | Only a run whose context is done records that it was stopped; the record says when, and nobody is notified |
| `JobOutcomes.ClaimGetsThrough` | internal/jobs/manager.go:1258-1269 | A free target is a queue run's at once; a keepalive shows that it wants to call |
| `JobOutcomes.ClaimIsBlocked` | internal/jobs/manager.go:1286-1301 | While somebody else has the target, both wait for this generation of its channel |
| `JobOutcomes.CallBegins` | internal/jobs/manager.go:1276-1368 | With target and slot free a current run gets into the runner in three sections: the call is counted and timed, and the runner is given the next number |
| `JobOutcomes.WaitersGoOn` | internal/jobs/manager.go:1699-1706 | Who is woken goes back to what it waited for, whose timer fires goes to its next call; only a done context makes anybody give up |
| `JobOutcomes.StartsExactlyWhen` | internal/jobs/manager.go:312-336 | A run starts exactly on a known target, outside shutdown, with both modes off and no goroutine of the other mode left |
| `JobOutcomes.StartBeginsAfresh` | internal/jobs/manager.go:338-361 | It has a new record with nothing left of earlier runs, one new goroutine, and as its only subscriber the one who asked |
| `JobOutcomes.ReservesExactlyWhen` | internal/jobs/manager.go:689-704 | An ad-hoc request is let in exactly if the target is known, nobody works on it and the manager goes on |
| `JobOutcomes.ReserveTakesTarget` | internal/jobs/manager.go:706-718 | Then it owns the target, with a goroutine of its own on the way to a slot |
| `JobOutcomes.AdhocGetsIn` | internal/jobs/manager.go:734-754 | With a slot to be had it is in the runner two sections later |
| `JobOutcomes.AdhocGetsOut` | internal/jobs/manager.go:1588-1606 | When the runner returns it gives back process, slot and target |
| `JobOutcomes.AdhocEndsForAReason` | internal/jobs/manager.go:734-748 | It goes without a call only if its context is done |
| `JobAnswers.StartAnswers` | internal/jobs/manager.go:312-336 | Whether a start answers missing, already on, or has to prepare again, by what is there |
| `JobAnswers.StartElseNothing` | internal/jobs/manager.go:299-336 | A start that neither starts nor joins a run changes nothing |
| `JobAnswers.JoinAddsSubscriber` | internal/jobs/manager.go:366-375 | Who joins a running queue is filed under his trimmed key, or his recipient if he names none, and nothing else happens |
| `JobAnswers.PrepareAnswers` | internal/jobs/manager.go:923-971 | prepareMode refuses exactly where the target is gone, the manager shuts down or the mode is on, and lets a caller through exactly where nobody works on the target |
| `JobAnswers.PrepareIsExact` | internal/jobs/manager.go:941-957 | It ends the other mode and an ad-hoc request, and leaves the mode asked for and every other target alone |
| `JobAnswers.ReserveAnswers` | internal/jobs/manager.go:691-704 | Why an ad-hoc request is turned away, the first reason first; it leaves no trace |
| `JobAnswers.CreateIsExact` | internal/jobs/manager.go:764-787 | Create succeeds exactly if no other target has the name; the new one is idle with an empty record, and nobody else is concerned |
| `JobAnswers.UpdateAnswers` | internal/jobs/manager.go:814-827 | Update is allowed exactly if the target is there, nobody works on it and no other target has its new name |
| `JobAnswers.UpdateKeepsRecords` | internal/jobs/manager.go:834-856 | The entry moves to the new name with job, keepalive and arbiter as they were; no other entry is touched |
| `JobAnswers.DeleteIsExact` | internal/jobs/manager.go:876-902 | Delete takes out that target alone, exactly if it is there and nobody works on it |
| `JobAnswers.SettingsAreTaken` | internal/jobs/manager.go:651-665 | New settings are in force at once, but for a limit that is not positive; a new limit wakes whoever waits for a slot |
| `JobAnswers.ShutdownIsExact` | internal/jobs/manager.go:582-604 | Shutdown cancels everybody who is not on the way out, once, and changes no record |
| `JobAnswers.SubscribeIsExact` | internal/jobs/manager.go:550-572 | A new observer has the room it asked for, or 32, and starts from the current snapshot; the others do not notice |
| `JobEndings.StopIsExact` | internal/jobs/manager.go:387-421 | A stop turns both modes off on every target it names, says when, and sets all their goroutines on the way out; targets and goroutines it does not name are untouched |
| `JobEndings.EndsForAReason` | internal/jobs/manager.go:1175-1251 | A run ends with a step only if that is its own success, its own record of a done context, or a stop of its target or mode |
| `JobEndings.EveryEndHasAReason` | internal/jobs/manager.go:1175-1251 | Over any run of the manager in which a run has ended there is the step that ended it, for one of these reasons |
| `JobEndings.ResultsAreReturns` | internal/jobs/manager.go:1193-1193 | The results kept as history are exactly what the runner calls returned, and nobody else adds to them |
| `JobSchedule.IntervalIsKept` | internal/jobs/manager.go:1416-1437 | After a keepalive request has ended, in any run without new settings, its next call begins no earlier than the sampled delay, and so no earlier than keepaliveMin |
| `JobSchedule.OnlyAStaleTimerFiresEarly` | internal/jobs/manager.go:1622-1649 | Before the request is due a waiting keepalive moves towards a call only by an older timer whose schedule channel is closed already |
| `JobSchedule.StaleTimerFires` | internal/jobs/manager.go:1636-1648 | That does happen: a timer that has fired when UpdateSettings resamples is not called back, and the keepalive goes on to its call |
| `JobSchedule.DueIsClaimed` | internal/jobs/manager.go:1622-1636 | A keepalive goes on to its call exactly if its request is due, and otherwise sets its timer for it |
| `JobSchedule.SettingsResample` | internal/jobs/manager.go:651-660 | New intervals resample every waiting keepalive from this instant and wake it; nobody else is touched |
| `JobShutdown.NobodyJoins` | internal/jobs/manager.go:580-588 | After BeginShutdown no goroutine is ever added |
| `JobShutdown.ShutdownLetsMove` | internal/jobs/manager.go:1699-1706 | In shutdown every goroutine that has not returned can take a step |
| `JobShutdown.StepsUseUpMeasure` | internal/jobs/manager.go:1175-1251 | Every goroutine step in shutdown lowers a measure: first the stages still ahead, then the goroutines about to try again; a caller raises it only by waking goroutines, and then by at most 2 for each |
| `JobShutdown.ShutdownDrains` | internal/jobs/manager.go:580-618 | After BeginShutdown the goroutines take a bounded number of steps and at most 2 more each for every stop, settings change or target change in between, in any interleaving and whatever the runner returns; where no more is possible the wait group is at zero and nothing is held |
| `JobDrain.StopByIDDrains` | internal/jobs/manager.go:793-805 | After the first section of update or delete every goroutine of the target is on its way out |
| `JobDrain.PrepareDrains` | internal/jobs/manager.go:923-967 | So it is after a round of prepareMode that does not refuse |
| `JobDrain.StepOnTarget` | internal/jobs/manager.go:1175-1360 | Such a goroutine's step uses up some of its target's measure, and everybody else's raises it only by a signal on a channel they wait on, and then by at most 2 each |
| `JobDrain.TargetDrains` | internal/jobs/manager.go:1040-1064 | What waitTargetIdle waits for comes about: while nothing is started on the target its goroutines take a bounded number of steps and 2 more each for every signal, in any interleaving; where none of them can take another the target is not busy |
| `JobKeeps.AcquireSlotLegal` | internal/jobs/manager.go:1557-1573 | acquire leaves its own goroutine and target in agreement, moves the counters with them, and disturbs no other goroutine of the target |
| `JobKeeps.ReleaseSlotLegal` | internal/jobs/manager.go:1608-1615 | releaseSlot leaves its own goroutine and target in agreement, moves the counters with them, and disturbs no other goroutine of the target |
| `JobKeeps.FinishProcessLegal` | internal/jobs/manager.go:1575-1586 | finishProcess leaves its own goroutine and target in agreement, moves the counters with them, and disturbs no other goroutine of the target |
| `JobKeeps.ClaimQueueLegal` | internal/jobs/manager.go:1253-1274 | acquireQueueTarget leaves its own goroutine and target in agreement, moves the counters with them, and disturbs no other goroutine of the target |
| `JobKeeps.BeginAttemptLegal` | internal/jobs/manager.go:1354-1368 | beginAttempt leaves its own goroutine and target in agreement, moves the counters with them, and disturbs no other goroutine of the target |
| `JobKeeps.AbandonTargetLegal` | internal/jobs/manager.go:1186-1191 | Giving the target back after a refused attempt leaves its own goroutine and target in agreement, moves the counters with them, and disturbs no other goroutine of the target |
| `JobKeeps.MarkSuccessLegal` | internal/jobs/manager.go:1390-1414 | markSuccess leaves its own goroutine and target in agreement, moves the counters with them, and disturbs no other goroutine of the target |
| `JobKeeps.MarkFailureLegal` | internal/jobs/manager.go:1370-1388 | markFailure leaves its own goroutine and target in agreement, moves the counters with them, and disturbs no other goroutine of the target |
| `JobKeeps.MarkQueueCancelledLegal` | internal/jobs/manager.go:1439-1454 | markQueueCancelled leaves its own goroutine and target in agreement, moves the counters with them, and disturbs no other goroutine of the target |
| `JobKeeps.ClaimKeepaliveLegal` | internal/jobs/manager.go:1276-1307 | beginKeepaliveRequest before acquire leaves its own goroutine and target in agreement, moves the counters with them, and disturbs no other goroutine of the target |
| `JobKeeps.BeginKeepaliveLegal` | internal/jobs/manager.go:1313-1350 | beginKeepaliveRequest after acquire leaves its own goroutine and target in agreement, moves the counters with them, and disturbs no other goroutine of the target |
| `JobKeeps.FinishKeepaliveLegal` | internal/jobs/manager.go:1416-1437 | finishKeepaliveRequest leaves its own goroutine and target in agreement, moves the counters with them, and disturbs no other goroutine of the target |
| `JobKeeps.MarkKeepaliveCancelledLegal` | internal/jobs/manager.go:1456-1470 | markKeepaliveCancelled leaves its own goroutine and target in agreement, moves the counters with them, and disturbs no other goroutine of the target |
| `JobKeeps.LookAtScheduleLegal` | internal/jobs/manager.go:1622-1636 | waitKeepaliveNext leaves its own goroutine and target in agreement, moves the counters with them, and disturbs no other goroutine of the target |
| `JobKeeps.BeginAdhocLegal` | internal/jobs/manager.go:739-752 | RunAdhoc between acquire and the prompt leaves its own goroutine and target in agreement, moves the counters with them, and disturbs no other goroutine of the target |
| `JobKeeps.FinishAdhocLegal` | internal/jobs/manager.go:1588-1606 | finishAdhocRequest leaves its own goroutine and target in agreement, moves the counters with them, and disturbs no other goroutine of the target |
| `JobKeeps.FinishQueueWorkerLegal` | internal/jobs/manager.go:1066-1073 | finishQueueWorker leaves its own goroutine and target in agreement, moves the counters with them, and disturbs no other goroutine of the target |
| `JobKeeps.FinishKeepaliveWorkerLegal` | internal/jobs/manager.go:1075-1082 | finishKeepaliveWorker leaves its own goroutine and target in agreement, moves the counters with them, and disturbs no other goroutine of the target |
| `JobApiKeeps.StopKeeps` | internal/jobs/manager.go:387-421 | stop, for any list of targets, keeps the whole invariant |
| `JobApiKeeps.PrepareModeKeeps` | internal/jobs/manager.go:923-971 | A round of prepareMode keeps the whole invariant |
| `JobApiKeeps.JoinQueueKeeps` | internal/jobs/manager.go:299-310 | A subscription to the run there is keeps the whole invariant |
| `JobApiKeeps.StartQueueKeeps` | internal/jobs/manager.go:312-362 | The start of a queue run keeps the whole invariant |
| `JobApiKeeps.StartKeepaliveKeeps` | internal/jobs/manager.go:454-504 | The start of a keepalive run keeps the whole invariant |
| `JobApiKeeps.ReserveAdhocKeeps` | internal/jobs/manager.go:689-715 | An ad-hoc reservation keeps the whole invariant |
| `JobApiKeeps.UpdateSettingsKeeps` | internal/jobs/manager.go:642-667 | UpdateSettings, with whatever samples are drawn, keeps the whole invariant |
| `JobApiKeeps.BeginShutdownKeeps` | internal/jobs/manager.go:582-604 | BeginShutdown, which reaches every goroutine that is not on its way out, keeps the whole invariant |
| `JobRegistry.SortTargets` | internal/jobs/manager.go:1084-1095 | Sorting permutes the listing |
| `JobRegistryKeeps.SortSorts` | internal/jobs/manager.go:1084-1095 | The listing ends up in the store's order, by sort order and id |
| `JobRegistryKeeps.SortIsForced` | internal/jobs/manager.go:1084-1095 | With distinct ids there is only one sorted listing: whatever way the library sorts, the result is this one |
| `JobRegistry.KeyOf` | internal/jobs/manager.go:904-911 | The lookup by id finds a target with that id, or none has it |
| `JobRegistryKeeps.CreateTargetKeeps` | internal/jobs/manager.go:760-787 | Create keeps equal key sets, one listing each, sorted, normalized keys and unique ids, and the whole invariant |
| `JobRegistryKeeps.UpdateTargetKeeps` | internal/jobs/manager.go:810-856 | Update, with or without a new key, keeps the same |
| `JobRegistryKeeps.DeleteTargetKeeps` | internal/jobs/manager.go:876-902 | Delete keeps the same |
| `JobTables.ResolveIsExact` | internal/jobs/manager.go:1533-1555 | A request for all resolves to all targets in order; any other to exactly the targets whose names are asked for, each once, and reports exactly the names the manager does not have |
| `JobTables.ReportIsExact` | internal/jobs/manager.go:387-421 | What stop reports: each target once, as stopped if a goroutine worked on it and as inactive if none did |
| `JobTables.AllMeansAll` | internal/jobs/manager.go:1533-1541 | No name at all, "all" in any case, an asterisk and the Chinese word all mean every target, whatever else is asked for |
| `JobTables.OneNameMeansOne` | internal/jobs/manager.go:1542-1554 | Any longer name means that target alone |
| `ManagerRuns.Perform` | internal/jobs/manager.go:276-1655 | Whatever step comes next, of a goroutine, a caller or the outside world, a method of the manager takes it, its preconditions hold, and the fields show the state the run of the protocol goes to |
| `ManagerRuns.PerformAll` | internal/jobs/manager.go:276-1655 | The same for any run: what is proved about runs of the protocol holds of the manager |
| `JobTables.SteppedIsApplied` | internal/jobs/manager.go:1175-1251 | What the manager's methods are proved against is the step a run of the protocol takes |
| `JobTables.StartQueueInSteps` | internal/jobs/manager.go:340-361 | Broadcasting before the goroutine is counted and started shows what broadcasting afterwards would |
| `JobTables.StartKeepaliveInSteps` | internal/jobs/manager.go:481-503 | The same for a keepalive |
| `JobTables.ResumingIsQuiet` | internal/jobs/manager.go:1699-1706 | Waking, giving up and a returning call change nothing but where the goroutine goes on, and the history of its results |
| `JobManager.Manager.constructor` | internal/jobs/manager.go:234-274 | Builds the fields of the protocol's initial state, for any list of targets |
| `JobManager.Manager.TargetBusy` | internal/jobs/manager.go:913-917 | Computes whether the target is busy |
| `JobManager.Manager.TargetView` | internal/jobs/manager.go:1097-1131 | Builds the target's view: which field is what, and that it is busy exactly if a mode is on, a worker is counted or the arbiter is owned |
| `JobManager.Manager.TakeSnapshot` | internal/jobs/manager.go:1133-1156 | Builds the snapshot, target by target in order |
| `JobManager.Manager.PublishEvent` | internal/jobs/manager.go:1164-1173 | Offers the event to every registered observer in any order: each gets it, or is closed for want of room |
| `JobManager.Manager.BroadcastState` | internal/jobs/manager.go:1158-1162 | Numbers and publishes the current snapshot |
| `JobManager.Manager.SignalTarget` | internal/jobs/manager.go:1489-1493 | Passes on to the next generation of the arbiter's channel |
| `JobManager.Manager.ReleaseTarget` | internal/jobs/manager.go:1478-1487 | Frees the arbiter if it is owned in this name, and signals; else does nothing |
| `JobManager.Manager.Acquire` | internal/jobs/manager.go:1557-1573 | A round of acquire takes the fields to the state the protocol prescribes |
| `JobManager.Manager.FreeSlot` | internal/jobs/manager.go:1608-1615 | releaseSlot takes the fields to the state the protocol prescribes |
| `JobManager.Manager.FinishProcess` | internal/jobs/manager.go:1575-1586 | finishProcess takes the fields to the state the protocol prescribes |
| `JobManager.Manager.AcquireQueueTarget` | internal/jobs/manager.go:1253-1274 | A round of acquireQueueTarget takes the fields to the state the protocol prescribes |
| `JobManager.Manager.BeginAttempt` | internal/jobs/manager.go:1354-1368 | beginAttempt takes the fields to the state the protocol prescribes |
| `JobManager.Manager.GiveTargetBack` | internal/jobs/manager.go:1472-1476 | releaseTarget takes the fields to the state the protocol prescribes |
| `JobManager.Manager.MarkFailure` | internal/jobs/manager.go:1370-1388 | markFailure takes the fields to the state the protocol prescribes |
| `JobManager.Manager.MarkQueueCancelled` | internal/jobs/manager.go:1439-1454 | markQueueCancelled takes the fields to the state the protocol prescribes |
| `JobManager.Manager.BeginKeepaliveRequest` | internal/jobs/manager.go:1276-1307 | The first half of beginKeepaliveRequest takes the fields to the state the protocol prescribes |
| `JobManager.Manager.ConfirmKeepaliveRequest` | internal/jobs/manager.go:1313-1350 | The second half of beginKeepaliveRequest takes the fields to the state the protocol prescribes |
| `JobManager.Manager.FinishKeepaliveRequest` | internal/jobs/manager.go:1416-1437 | finishKeepaliveRequest takes the fields to the state the protocol prescribes |
| `JobManager.Manager.MarkKeepaliveCancelled` | internal/jobs/manager.go:1456-1470 | markKeepaliveCancelled takes the fields to the state the protocol prescribes |
| `JobManager.Manager.WaitKeepaliveNext` | internal/jobs/manager.go:1622-1636 | A round of waitKeepaliveNext takes the fields to the state the protocol prescribes |
| `JobManager.Manager.BeginAdhocRequest` | internal/jobs/manager.go:739-752 | RunAdhoc's second section takes the fields to the state the protocol prescribes |
| `JobManager.Manager.FinishAdhocRequest` | internal/jobs/manager.go:1588-1606 | finishAdhocRequest takes the fields to the state the protocol prescribes |
| `JobManager.Manager.FinishQueueRun` | internal/jobs/manager.go:1066-1073 | finishQueueWorker takes the fields to the state the protocol prescribes |
| `JobManager.Manager.FinishKeepaliveRun` | internal/jobs/manager.go:1075-1082 | finishKeepaliveWorker takes the fields to the state the protocol prescribes |
| `JobManager.Manager.Resume` | internal/jobs/manager.go:1636-1648 | A goroutine that stops waiting takes the fields to the state the protocol prescribes |
| `JobManager.Manager.StopQueue` | internal/jobs/manager.go:976-994 | stopQueueLocked takes the fields to the state the protocol prescribes |
| `JobManager.Manager.StopKeepalive` | internal/jobs/manager.go:996-1013 | stopKeepaliveLocked takes the fields to the state the protocol prescribes |
| `JobManager.Manager.StopAdhoc` | internal/jobs/manager.go:1015-1025 | stopAdhocLocked takes the fields to the state the protocol prescribes |
| `JobManager.Manager.AddSubscriber` | internal/jobs/manager.go:366-375 | addSubscriberLocked takes the fields to the state the protocol prescribes |
| `JobManager.Manager.UpdateSettings` | internal/jobs/manager.go:642-667 | UpdateSettings takes the fields to the state the protocol prescribes |
| `JobManager.Manager.BeginShutdown` | internal/jobs/manager.go:582-604 | BeginShutdown takes the fields to the state the protocol prescribes |
| `JobManager.Manager.MarkSuccess` | internal/jobs/manager.go:1390-1414 | markSuccess takes the fields to the state the protocol prescribes, and returns the run's subscribers, each once and in any order, and how long it took, exactly if it was still current |
| `JobManager.Manager.Stop` | internal/jobs/manager.go:387-421 | stop takes the fields to the state the protocol prescribes, and reports as stopped, inactive and unknown exactly the right names |
| `JobManager.Manager.ResolveNames` | internal/jobs/manager.go:1533-1555 | Computes the keys and the unknown names of a request |
| `JobManager.Manager.TargetKeyByID` | internal/jobs/manager.go:904-911 | Finds the key of the target with the id |
| `JobManager.Manager.StopByID` | internal/jobs/manager.go:793-805 | The stop before an update or delete takes the fields to the state the protocol prescribes |
| `JobManager.Manager.JoinQueue` | internal/jobs/manager.go:299-310 | The subscription to the run there is takes the fields to the state the protocol prescribes |
| `JobManager.Manager.LaunchQueue` | internal/jobs/manager.go:312-362 | The start of a queue run takes the fields to the state the protocol prescribes, or says why there was none |
| `JobManager.Manager.LaunchKeepalive` | internal/jobs/manager.go:454-504 | The start of a keepalive run takes the fields to the state the protocol prescribes, or says why there was none |
| `JobManager.Manager.PrepareMode` | internal/jobs/manager.go:923-971 | A round of prepareMode takes the fields to the state the protocol prescribes, and says whether to refuse, to wait or to go on |
| `JobManager.Manager.ReserveAdhoc` | internal/jobs/manager.go:689-715 | The reservation takes the fields to the state the protocol prescribes, or says why there was none |
| `JobManager.Manager.CancelAll` | internal/jobs/manager.go:589-603 | Cancels exactly the contexts whose cancel functions are in the map, in any order |
| `JobManager.Manager.Subscribe` | internal/jobs/manager.go:550-572 | Registers an observer and returns the snapshot of that moment |
| `JobManager.Manager.CloseSubscription` | internal/jobs/manager.go:562-569 | Closes a registered observer, and leaves a closed one alone |
| `JobManager.Manager.TakeEvent` | internal/jobs/manager.go:142-145 | Takes the next buffered event |
| `JobManager.Manager.SortTargets` | internal/jobs/manager.go:1084-1095 | Sorts the listing by the targets' rows |
| `JobManager.Manager.CreateTarget` | internal/jobs/manager.go:760-787 | Checks, persists, checks again and files the target, or reports the conflict or the failure and changes nothing |
| `JobManager.Manager.UpdateTarget` | internal/jobs/manager.go:810-856 | Checks, persists, checks again and renames the entries, or reports why not and changes nothing |
| `JobManager.Manager.DeleteTarget` | internal/jobs/manager.go:876-902 | Checks, persists and removes the entries, or reports why not and changes nothing |
| `Streams.PublishIsGapFree` | internal/jobs/manager.go:1164-1173 | Publishing keeps every observer gap-free and within its buffer, and whoever stays open holds the new value |
| `Streams.ClosedOnlyByAMiss` | internal/jobs/manager.go:1166-1171 | An observer is closed exactly if its buffer is full |
| `StatusStores.StatusStore.Set` | internal/hub/client.go:111-127 | Stores the trimmed and cut status and offers it to every observer; open drained observers hold the current status, none has missed one |
| `StatusStores.StatusStore.Observe` | internal/hub/client.go:88-109 | Registers an observer from this status on, with a buffer of 8 if none is asked for |
| `StatusStores.StatusStore.Take` | internal/hub/client.go:88-109 | What an observer takes is the next status set since it subscribed |
| `StatusStores.StatusStore.Close` | internal/hub/client.go:100-107 | Closes a registered observer, and leaves a closed one alone |
| `StatusStores.CutIsIdempotent` | internal/hub/client.go:114-117 | A status forwarded from one store to another keeps its error text |
| `StatusStores.CutIs` | internal/hub/client.go:114-117 | An error text of up to 600 runes is stored as it is, trimmed; of a longer one the first 600 and an ellipsis |
| `RememberedEvents.Client.RememberEvent` | internal/hub/client.go:417-430 | Accepts an id if and only if it is not among the last 2048 accepted |
| `RememberedEvents.RepeatsAreFarApart` | internal/hub/client.go:417-430 | Between two acceptances of one id, just before the second, 2048 different other ids were accepted |
| `RememberedEvents.FreshIsExact` | internal/hub/client.go:417-430 | An id is new exactly if it is none of the last 2048 accepted |
| `TailBuffer.Buffer.Write` | internal/codex/runner.go:456-474 | The buffer holds the last max bytes of everything written, or all of it |
| `TailBuffer.Buffer.Contents` | internal/codex/runner.go:476-480 | Returns exactly that |
| `TailBuffer.KeptIsTail` | internal/codex/runner.go:456-474 | However the output is cut into writes, what is kept is the tail of the whole |
| `AdapterReload.NextKeeps` | cmd/codex-queue-bot/messages.go:54-201 | Every step of a reload, a forwarder or a client keeps the reload invariant |
| `AdapterReload.ReloadFencing` | cmd/codex-queue-bot/messages.go:131-170 | In every state of every run a shared status shows, since the generation was bumped, what the reload wrote and then an unbroken stretch of the installed client's statuses, forwarded by its own forwarder |
| `AdapterReload.StaleForwarderWritesNothing` | cmd/codex-queue-bot/messages.go:152-170 | A forwarder whose client is not the installed one writes nothing and ends |
| `AdapterReload.InstalledForwarderPasses` | cmd/codex-queue-bot/messages.go:131-170 | The installed client's forwarder passes on its client's next status, to its own adapter, and goes on |
| `AdapterReload.ReloadOutdatesForwarders` | cmd/codex-queue-bot/messages.go:57-69 | Once a reload has begun every forwarder there is belongs to an earlier one |
| `AdapterReload.ReloadIsExact` | cmd/codex-queue-bot/messages.go:54-117 | What a reload leaves, whatever was there before: one new client with proxy and forwarder for each enabled adapter, disabled and then connecting as its status, and none for the others |
| `AdapterReload.RouteIsByPriority` | cmd/codex-queue-bot/messages.go:87-115 | Between reloads the default proxy leads to OpenILink if enabled, else to Telegram if enabled, else nowhere |
| `AdapterReload.CloseLasts` | cmd/codex-queue-bot/messages.go:172-201 | After Close both adapters stay disabled and unreachable until the next reload, whatever old forwarders do |
| `MessageAdapters.MessageRuntime.Reload` | cmd/codex-queue-bot/messages.go:54-117 | Takes the old clients out, installs a new one for each enabled adapter and sets proxies and statuses, as the protocol prescribes and by field; afterwards exactly the clients no longer installed have been cancelled and closed |
| `MessageAdapters.MessageRuntime.Close` | cmd/codex-queue-bot/messages.go:172-201 | Leaves what a reload with nothing enabled leaves, with every client there ever was cancelled and closed |
| `MessageAdapters.MessageRuntime.SetStatusIfCurrent` | cmd/codex-queue-bot/messages.go:152-170 | Writes the status if and only if the forwarder's generation and client are the current ones |
| `MessageAdapters.Proxy.Set` | internal/messaging/proxy.go:27-34 | Replaces the client |
| `MessageAdapters.Proxy.Client` | internal/messaging/proxy.go:36-43 | Returns the client last set |
| `Configuration.Validate` | internal/config/config.go:333-429 | Accepts exactly the configurations whose sections and targets are valid and whose target names differ in more than letter case |
| `Configuration.ValidateTargets` | internal/config/config.go:393-427 | Names the first target that is invalid or has an earlier namesake |
| `Configuration.DefaultIsValid` | internal/config/config.go:431-472 | The default configuration is valid |
| `Configuration.TargetCheckedAlone` | internal/config/config.go:474-483 | Checking a target inside the default configuration accepts exactly the targets valid by themselves |
| `Configuration.AdapterLimits` | internal/config/config.go:333-363 | Which adapter sections pass, at the limits: timeouts at least a second, polling below the HTTP timeout, a token that is not blank; one that is off is not looked at |
| `Configuration.CodexLimits` | internal/config/config.go:364-390 | The same for the codex section: intervals of at least a second and not upside down, at least one call at a time, overrides that are assignments |
| `Configuration.ListenLimits` | internal/config/config.go:550-557 | The web section needs an address it can listen on, and an activity limit that is not negative |
| `Configuration.ProxyLimits` | internal/config/config.go:558-566 | A trusted proxy is an asterisk or an address or block, white space aside |
| `Configuration.NameLimits` | internal/config/config.go:396-409 | Which names are refused as empty or reserved, in any case |
| `Configuration.NamesHaveNoSeparators` | internal/config/config.go:404-409 | A name with white space, a comma or a semicolon, of either width, is refused |
| `Configuration.TargetLimits` | internal/config/config.go:393-427 | A target is refused without a valid name, a key, the one wire API or overrides that are assignments |
| `Configuration.NamesakesAreRefused` | internal/config/config.go:410-413 | Two targets named "a" and "A" are refused |
| `Configuration.EffortLimits` | internal/config/config.go:487-513 | A codex section is refused without one of the known reasoning efforts |
| `Configuration.PromptLimits` | internal/config/config.go:487-513 | ... or with a blank prompts file, success message or prompt, or no prompt at all once they are kept in the database |
| `Configuration.WireAPIDefaults` | internal/config/config.go:571-586 | No wire API means "responses"; that is read in any case, and any other is kept and refused |
| `Configuration.CleaningIsElementwise` | internal/web/server.go:559-567 | Cleaning a list goes element by element and keeps the order |
| `Configuration.CleaningOne` | internal/web/server.go:559-567 | An element is trimmed, and left out if nothing remains |
| `Configuration.SectionsCompose` | internal/config/config.go:485-569 | Sections accepted one at a time make a configuration accepted as a whole if and only if the target names differ in lower case |
| `Configuration.CheckTarget` | internal/config/config.go:476-483 | Accepts exactly the valid targets with a sort order that is not negative |
| `Configuration.CheckCodex` | internal/config/config.go:487-513 | Decides the section's check |
| `Configuration.CheckOpenILink` | internal/config/config.go:516-527 | Decides the section's check |
| `Configuration.CheckTelegram` | internal/config/config.go:530-547 | Decides the section's check |
| `Configuration.CheckWeb` | internal/config/config.go:550-569 | Decides the section's check |
| `Configuration.NormalizeTarget` | internal/config/config.go:571-586 | Trims every field and element, defaults the wire API, and changes nothing else |
| `Configuration.NormalizingKeepsTheKey` | internal/jobs/manager.go:1667-1669 | Normalizing a target does not change the key it is filed under |
| `Text.WhiteSpaceIs` | internal/config/config.go:404-409 | Which characters are white space |
| `Text.TrimIdempotent` | internal/jobs/manager.go:830-833 | Trimming twice is trimming once, so the key check after persist sees the key from before |
| `Text.TrimIsExact` | internal/config/config.go:571-586 | Trimming cuts off all white space at both ends and nothing else |
| `Text.TrimSlashesIsExact` | internal/config/config.go:573-573 | ... and all slashes at the end of a URL |
| `Text.NoCaseRefinesLower` | internal/storage/storage.go:134-134 | Names the NOCASE constraint takes for equal are equal in Unicode lower case |
| `ConfigStore.LoadableIsValid` | internal/storage/storage.go:562-564 | Load accepts the tables exactly if the configuration read from them is valid as a whole |
| `ConfigStore.Initialize` | internal/storage/storage.go:334-432 | A configuration becomes a database if and only if, trimmed and numbered, it is valid as a whole; its rows never run into the name constraint, and each section is what was configured |
| `ConfigStore.FirstRowSays` | internal/storage/storage.go:413-424 | Each first row says what was configured, each field cleaned, in the place it has in the configuration |
| `ConfigStore.InsertSucceeds` | internal/storage/storage.go:413-417 | No initial target conflicts with an earlier one |
| `ConfigStore.ConstraintIsWeaker` | internal/storage/storage.go:134-134 | Every conflict the constraint sees, the lower-case check sees |
| `ConfigStore.RowJoins` | internal/storage/storage.go:857-983 | The tables stay loadable after a valid row is written if and only if no other row has its name in lower case |
| `ConfigStore.NoCaseIsNotEnough` | internal/storage/storage.go:134-134 | Where the lower-case table has the umlaut: with a row named U+00C4, a valid new row named U+00E4 passes the constraint and leaves tables that cannot be loaded |
| `ConfigStore.NotLoadedHappens` | internal/storage/storage.go:857-894 | The same at a concrete database and request |
| `ConfigStore.TokenRulesDiffer` | internal/storage/storage.go:756-761 | The two adapters' token rules agree unless the new token is nothing but spaces and there is an old one |
| `ConfigStore.TokensAreTaken` | internal/storage/storage.go:756-761 | A token that is given is stored trimmed, none keeps the old one, an empty one clears it |
| `ConfigStore.Store.ListTargets` | internal/storage/storage.go:506-532 | Lists every row once, by sort order and id |
| `ConfigStore.Store.Load` | internal/storage/storage.go:450-566 | Succeeds exactly if the tables are valid, and returns what they say |
| `ConfigStore.Store.MaximumSortOrder` | internal/storage/storage.go:859-869 | Finds the largest sort order, if there is a row |
| `ConfigStore.Store.CreateTarget` | internal/storage/storage.go:857-894 | Writes the normalized row with the next id and takes one revision, or changes nothing; the row is committed but reported as failed exactly if another row has the name in a case the constraint does not see |
| `ConfigStore.Store.UpdateTarget` | internal/storage/storage.go:896-954 | The same for a row that is replaced as `Replaced` says; what that means by field is `TargetCatalog.Server.UpdateTarget` |
| `ConfigStore.Store.DeleteTarget` | internal/storage/storage.go:956-983 | Removes the row and takes one revision, or reports that it is not there |
| `ConfigStore.Store.UpdateCodex` | internal/storage/storage.go:686-710 | Writes the section and takes one revision exactly if it passes its own check, and the whole can then be loaded |
| `ConfigStore.Store.UpdateWeb` | internal/storage/storage.go:712-728 | The same |
| `ConfigStore.Store.UpdateOpenILink` | internal/storage/storage.go:730-793 | The same, with the token rule of this adapter |
| `ConfigStore.Store.UpdateTelegram` | internal/storage/storage.go:795-855 | The same, with the token rule of this adapter |
| `ConfigStore.Store.SetupAdmin` | internal/storage/storage.go:568-613 | Creates the only administrator and takes one revision, or changes nothing |
| `ConfigStore.Store.UpdateAccount` | internal/storage/storage.go:634-684 | Changes the administrator, keeping the password if none is given, and takes one revision, or changes nothing |
| `ConfigStore.ListingIsUnique` | internal/storage/storage.go:506-532 | There is only one listing of the rows by sort order and id |
| `TargetCatalog.AgreedOrder` | internal/jobs/manager.go:1084-1095 | Where the copies agree, the manager's listing is the store's |
| `TargetCatalog.FreeKeyIsFreeName` | internal/jobs/manager.go:766-769 | The manager's key check rules out every lower-case namesake in the table |
| `TargetCatalog.CreateIsSafe` | internal/web/config_api.go:487-495 | After the manager's first check the store cannot commit a row it cannot load, and the second check cannot fire |
| `TargetCatalog.UpdateIsSafe` | internal/web/config_api.go:540-548 | The same for an update |
| `TargetCatalog.LoadedIsBootable` | internal/storage/storage.go:506-532 | What Load reads from any loadable database is a target list New can start from, and the new manager agrees with the tables |
| `TargetCatalog.Boot` | cmd/codex-queue-bot/main.go:74-127 | Starts a server exactly if the database can be loaded and the Codex preflight passes where there are targets; manager and store are then in agreement, and the manager works by the stored settings |
| `TargetCatalog.Server.constructor` | internal/web/server.go:155-190 | A server given a manager and a store that agree is in step |
| `TargetCatalog.Server.PersistCreate` | internal/web/config_api.go:487-495 | The store accepts what the handler and the manager have checked: it is written, agrees with the manager's entry, and the manager's second check passes |
| `TargetCatalog.Server.CreateTarget` | internal/web/config_api.go:462-502 | Saved if and only if there is an API key, the target is valid and the manager has no such key; manager and store agree before and after; a refusal changes neither, and after a success both have, field by field, what the request asks for, in the last place if it names none |
| `TargetCatalog.Server.PrepareUpdate` | internal/web/config_api.go:504-538 | Accepts an update if and only if the target asked for is valid, and then the store's own check of the replaced row will pass; reports a missing target exactly |
| `TargetCatalog.Server.CommitUpdate` | internal/web/config_api.go:539-555 | Saved if and only if the manager still allows it and the row is valid; manager and store agree before and after, successful or not |
| `TargetCatalog.Server.UpdateTarget` | internal/web/config_api.go:504-555 | The handler from request to reply, with the stop, anything others do while it waits, and the commit: when it is saved, exactly; that row and manager then have, field by field, what the request asks for and the old key or place where it names none; and that manager and store agree in the end whatever happened |
| `TargetCatalog.Server.CommitDelete` | internal/web/config_api.go:557-579 | Saved if and only if the manager still allows it; manager and store agree before and after, successful or not |
| `TargetCatalog.Server.DeleteTarget` | internal/web/config_api.go:557-579 | The handler as a whole: when it is saved, exactly, and that manager and store agree in the end whatever happened |
| `TargetCatalog.Server.UpdateCodex` | internal/web/config_api.go:236-268 | Saved if and only if the cleaned section is valid; then it is stored field by field as asked for and the manager works by it, and otherwise nothing changes |
| `TargetCatalog.Server.UpdateWeb` | internal/web/config_api.go:377-405 | Saved if and only if the cleaned section is valid, field by field as asked for; the manager goes on working by the stored codex section |
| `TargetCatalog.CleanedIsValid` | internal/storage/storage.go:686-710 | What the handler's check of a codex request accepts the store's accepts |
| `TargetCatalog.OnlySettingsChange` | internal/jobs/manager.go:642-667 | No section but UpdateSettings changes the intervals, the limit or the success message |
| `TargetCatalog.JobsKeepTargets` | internal/jobs/manager.go:276-756 | No section but the three commits changes what the targets are |
| `TargetCatalog.AgreementLasts` | internal/jobs/manager.go:276-756 | The agreement lasts from one handler to the next, whatever the jobs do in between |

## Left out

- The loops of `run` and `runKeepalive` are not methods: their control flow is the program counter's, one method per section, because other goroutines run in between.
- The polling of `waitTargetIdle`, its ten-second limit and real timers: time is an integer that passes freely, and giving up is always possible.
- Jobs, keepalives and arbiters are records in the manager's maps; that they are heap objects shared by reference, and could be aliased, is not captured.
- The 64-bit wrap-around of run, event and observer numbers; durations and counters are unbounded integers.
- Log output, the text of the success message around the configured one, and the default messenger. How the host is read off a base URL is left open.
- The text of errors and their redaction (`sanitizeTargetError`): a runner's result carries the text as it is stored.
- Delivery of success notifications and its retries: the hand-over of the subscribers is where the model ends.
- The Codex subprocess, prompts, signals and environment: a runner call is a step that returns some result.
- HTTP, WebSocket and Telegram traffic, JSON, sessions, cookies and request routing.
- SQLite, encryption and password hashing: a transaction is a copy that is committed or dropped, a secret is its plain value, a hash is a parameter. Failing I/O is not modelled.
- Reading prompts from their file, the startup revision, migrations and the environment variables for secrets.
- Which strings are URLs, listen addresses or address blocks, and the lower case of letters outside ASCII: any answer is allowed for.
- The handlers of the adapter and account sections: the store's operations behind them are modelled, decoding and cleaning the request is not. What the codex handler passes to the runner.
- Command parsing, the tool endpoints, proxies for outgoing traffic and the web console.
- Fairness among goroutines waiting for a slot: the program does not promise it.
- JobManager.Manager.SortTargets: uses the sorting function the protocol is stated with, as the program uses its library's stable sort; with distinct ids every sort gives that (`JobRegistryKeeps.SortIsForced`).
- JobManager.Manager.FinishAdhocRequest: takes `cancel` and the section as one step; in between nothing depends on the order.
- JobManager.Manager.FinishQueueRun: takes the section and `runWG.Done` as one step.
- JobManager.Manager.CreateTarget: takes what persist returned as a parameter; `TargetCatalog.Server.CreateTarget` puts the two together.
- MessageAdapters.MessageRuntime.Reload: runs without interruption; the interleavings are those of `AdapterReload`.
- TargetCatalog.Server.CommitUpdate: starts where the target's runs have been stopped and waited for; `TargetCatalog.Server.UpdateTarget` is the whole. The same for `CommitDelete` and `DeleteTarget`.
- JobManager.Manager.UpdateTarget: takes what persist returned as a parameter, and so does `DeleteTarget`; the handlers put them together.
- ConfigStore.Initialize: takes the adapters' `enabled` flags as given; what a missing flag defaults to is not part of this model.
