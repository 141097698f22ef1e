# Abyss: models and proofs of its stateful cores

This project models the parts of the repository whose correctness depends on order, failure and
interleaving, and proves what they promise. Each core is a small set of modules: values and
specification functions, a transition system where several parties interleave, the theorems about
all runs of that system, and objects and loops written in the form of the source that are proved to
take only steps of it.

| files | core |
|---|---|
| `policy_document`, `policy_disk`, `policy_machine`, `policy_durability`, `policy_theorems`, `policy_witnesses`, `policy_temporaries`, `policy_transaction` | the durable runtime-policy transaction: one policy file, one committed snapshot, three live runtimes, cancellable callers, failing I/O, dying processes, power loss |
| `traffic_window`, `traffic_monitor`, `traffic_races` | the live traffic monitor: six-bucket rate window, flow totals, cloned handles racing with finish and with snapshots |
| `capped_counts`, `flow_diagnostics` | the diagnostics recorder: counter maps capped at 100 keys, bounded recent queues, the records that feed them |
| `proxy_machine`, `proxy_theorems`, `proxy_recording`, `proxy_service` | proxy service, worker loop and connection tasks, together with both recorders |
| `delivery_machine`, `delivery_theorems`, `delivery_launch` | the singleton delivery worker: start lock, inherited lifetime lock, readiness record |
| `text`, `ca_bundle`, `claude_settings` | the CA bundle merge and the settings entry that names the bundle |
| `publish_crates` | release validation and resumable publication |
| `fixture_paths`, `fixture_writing` | accepted fixture paths and their materialisation |
| `tail_read` | the bounded tail of a growing log |
| `common` | option, result, saturating 64-bit arithmetic |

## Conventions

* A `Run` predicate says that a list of events leads from one state to another; a theorem about a run
  is about every interleaving, because events of different parties may alternate freely.
* I/O results, clock readings, peers and schedules are event or method parameters (or `*`), so they
  are arbitrary. Identities that the source draws at random or from the operating system (flow
  identifiers, process identifiers, temporary names) are arbitrary numbers; process, task and worker
  identities are never used twice, while a temporary name may collide and then fails like the
  source's exclusive creation.
* 64-bit counters saturate as in the source. Conservation is stated for counts that fit 64 bits.
* `hide` lists in proofs name definitions the proof does not need; they have no effect on meaning.

## Findings

Where a promise does not hold of the code on all inputs, the exact condition is proved, with a run or
an input that shows the failure:

* Rate window: at a clock reading on a whole second, seven aligned seconds qualify but six buckets are
  kept. `WindowRefinesLog` gives the exact discrepancy: the one second that was pushed out, exactly
  when the six newer seconds all had traffic. `CrowdedWindowIsReached` is a seven-second run in which
  that happens.
* CA merge: merging again changes the bundle if and only if the previous text was blank and the root
  is not (`MergeReachesFixedPoint`); a third merge never does.
* In-flight total: flows dropped by the drain timeout or by a panic are never recorded as completed. An
  idle broker reports exactly the number of aborts and panics that hit an active flow during the run
  (`IdleAfterReturn`); without a drain timeout and a panic there are none (`NoTimeoutNoLoss`), and
  `AbortedFlowStaysInFlight` is a run that ends idle with one flow in flight.
* A `stop` call dropped while it waits leaves the old worker draining beside a new one
  (`AbandonedStopOverlaps`). Over a whole run at most one worker is alive at any time if and only if no
  start happens before the worker of every dropped stop has returned (`OneWorkerIffStartsWait`).
* A reused delivery worker was alive when the lifetime lock was tried (`ReliedWorkerWasAlive`). It is
  alive when its record is returned if and only if the lock is still taken then
  (`ReuseIsAliveIffTaken`), and `ReuseMayNameDeadWorker` is a run that returns a dead worker.
* A fixture below a directory called `input.png` is accepted by the scenario contract although the
  image cannot be written afterwards (`ImageNameCanBeTaken`, `Materialize`).
* A committed policy update can be undone by a power loss, since the directory sync after the rename
  may fail. It can be, at a moment of a run, if and only if the newest rename changed the file and no
  directory sync has succeeded since (`NewestCommitCanBeLost`); from a successful sync to the next rename
  it cannot (`SyncSettles`), and only the newest commit is ever in doubt (`PowerLossIsRecent`).
  `FirstCommitCanBeLost` and `LaterCommitCanBeLost` are runs that end with no file and with the older one.

## Model

| member | source | states |
|---|---|---|
| PolicyDocument.Load | crates/abyss-broker/src/runtime_config.rs:151-189 | with a valid built-in default, whatever start-up accepts passes all validators |
| PolicyDocument.LoadDecides | crates/abyss-broker/src/runtime_config.rs:151-189 | start-up case by case: which file is refused with which error, a foreign schema version and undecodable bytes included, what an absent file and each absent section mean, and that nothing else is refused |
| PolicyDocument.LoadEncoded | crates/abyss-broker/src/runtime_config.rs:393-401 | durable round trip: exactly the valid snapshots are read back, unchanged, keeping "no override" apart from "direct" |
| PolicyMachine.StepInv | crates/abyss-broker/src/runtime_config.rs:326-532 | every single file operation, publication, assignment, cancellation, crash, power loss and start keeps disk, history, memory and live runtimes consistent |
| PolicyTemporaries.TemporariesAreAccounted | crates/abyss-broker/src/runtime_config.rs:424-431 | over runs, a temporary file visible outside a transaction was there at the start, or its removal failed, or its process died before removing it, or a power loss brought it back; inside one there is besides only the task's own |
| PolicyTheorems.NewestCommitCanBeLost | crates/abyss-broker/src/runtime_config.rs:515-528 | a power loss now may bring back an older file if and only if the newest rename of the run changed the file and no directory sync has succeeded since; never while a later transaction is about to rename |
| PolicyTheorems.PowerLossIsRecent | crates/abyss-broker/src/runtime_config.rs:447-531 | power lost at any step leaves one complete snapshot, that of all commits or of all but the newest, and of all unless the run leaves the newest rename in doubt; absent only while at most the first commit is in doubt |
| PolicyTheorems.SyncSettles | crates/abyss-broker/src/runtime_config.rs:494-528 | after a successful directory sync no power loss can undo the newest installation in any later state up to the next rename, whatever transactions fail in between |
| PolicyDurability.InDoubtIsUnsettled | crates/abyss-broker/src/runtime_config.rs:494-528 | the condition read off the run is exactly that some surviving directory state shows another file |
| PolicyDurability.LostExactlyIfUnsettled | crates/abyss-broker/src/runtime_config.rs:494-528 | and that is exactly when some power loss finds another file |
| PolicyWitnesses.FirstCommitCanBeLost | crates/abyss-broker/src/runtime_config.rs:515-528 | a run from a blank machine after whose committed update a power loss leaves no policy file |
| PolicyWitnesses.LaterCommitCanBeLost | crates/abyss-broker/src/runtime_config.rs:515-528 | a run after whose second committed update a power loss leaves the complete file of the first |
| PolicyTheorems.AgreementWhenFree | crates/abyss-broker/src/runtime_config.rs:326-432 | whenever the lock is free, the decoded file, the committed snapshot and the three live runtimes are the sequential result of the committed updates |
| PolicyTheorems.FileLeadsByOne | crates/abyss-broker/src/runtime_config.rs:326-382 | inside a transaction the file is the old snapshot or the one candidate, and live state never leads the file |
| PolicyTheorems.CommitsGrow | crates/abyss-broker/src/runtime_config.rs:507-513 | commits are only ever appended, and the file changes only with a commit |
| PolicyTheorems.Linearizable | crates/abyss-broker/src/runtime_config.rs:229-382 | between any two moments with a free lock, over concurrent callers, failures, crashes and restarts, the state moves by exactly the updates committed in between, in lock order |
| PolicyTheorems.LogIsLockOrder | crates/abyss-broker/src/runtime_config.rs:229-298 | the transactions of the log are the lock acquisitions in order, less those given back by a cancellation or lost in a crash before the guard was moved |
| PolicyTheorems.SectionsIndependent | crates/abyss-broker/src/runtime_config.rs:326-382 | each section ends as its own newest update says; none is lost to updates of the others |
| PolicyTheorems.RouteResolution | crates/abyss-broker/src/network_config.rs:48-60 | over updates, crashes and restarts with changing startup files, new connections use the last committed override (direct included), else this process's startup upstream |
| PolicyTheorems.FlowsKeepTheirRoute | crates/abyss-broker/src/network_config.rs:85-88 | publication allocates a new snapshot and moves the shared cell, so what a connection sees through the snapshot it retains never changes while the process lives |
| PolicyTheorems.NewFlowsTakeTheLiveRoute | crates/abyss-broker/src/network_config.rs:62-64 | a connection made now retains the route that is live now |
| PolicyTheorems.RepliesTellTheLog | crates/abyss-broker/src/runtime_config.rs:234-236 | a caller is told success exactly if its own transaction is in the log as committed |
| PolicyTheorems.LockHasOneOwner | crates/abyss-broker/src/runtime_config.rs:233-234 | the lock is taken exactly while it has an owner, and it has only one: the request future that acquired it, or the task the guard was moved into |
| PolicyTheorems.CancellingReturnsTheGuard | crates/abyss-broker/src/runtime_config.rs:256-260 | the cancellation boundary: dropping a request gives the lock back if and only if it owns the guard and has not moved it into its task; nothing else changes |
| PolicyTheorems.CancelledBeforeTheMove | crates/abyss-broker/src/runtime_config.rs:233-236 | a client whose guard is never moved into a task, cancelled while queued or while it owns the guard, can be erased from the run without changing disk, memory or live state |
| PolicyTheorems.ErasedStep | crates/abyss-broker/src/runtime_config.rs:255-268 | no step of the task, of another client or of the process depends on whether a request future is still there |
| PolicyTheorems.CancelledAfterTheMove | crates/abyss-broker/src/runtime_config.rs:282-298 | cancelling after the move makes no difference: the same run without the cancellation ends with the same disk, memory, live state, lock and other callers |
| PolicyTransaction.NetworkRuntime.Validate | crates/abyss-broker/src/network_config.rs:75-83 | a new snapshot exists exactly for a route with a valid or no upstream, and carries that route |
| PolicyTransaction.NetworkRuntime.New | crates/abyss-broker/src/network_config.rs:48-60 | construction succeeds exactly if the resolved route is valid; the override stays apart from the effective route |
| PolicyTransaction.NetworkRuntime.Publish | crates/abyss-broker/src/network_config.rs:86-88 | publication moves the shared cell and writes no snapshot |
| PolicyTransaction.ConnectAroundUpdate | crates/abyss-broker/src/network_config.rs:62-88 | a connection made before a route update keeps its route, one made after a successful update has the new one |
| PolicyTransaction.RuntimePolicyTransaction.constructor | crates/abyss-broker/src/runtime_config.rs:302-324 | the snapshot read back from the three runtimes is the committed one of the run |
| PolicyTransaction.RuntimePolicyTransaction.Stage | crates/abyss-broker/src/runtime_config.rs:465-492 | staging succeeds exactly if creating, filling and syncing the temporary file succeed one after the other, which then is the only new name; otherwise the first of them that failed is the reason, no trace is left in memory, live state and history, and no temporary file unless its removal failed |
| PolicyTransaction.RuntimePolicyTransaction.Commit | crates/abyss-broker/src/runtime_config.rs:494-530 | installs exactly the encoded candidate, if and only if the directory sync and the rename succeed; the last sync does not matter; the temporary file is gone either way, unless its removal failed |
| PolicyTransaction.RuntimePolicyTransaction.Persist | crates/abyss-broker/src/runtime_config.rs:393-432 | success, exactly if none of the six operations up to the rename fails, appends one installed file and changes only the policy entry of the directory; failure changes neither history nor live state nor the snapshot, and leaves no temporary file unless the last operation was its failed removal; no other name is touched |
| PolicyTransaction.RuntimePolicyTransaction.CleanUp | crates/abyss-broker/src/runtime_config.rs:428-430 | the removal of the temporary file is tried; it is gone unless that failed, every other name stays, and the lock is free |
| PolicyTransaction.RuntimePolicyTransaction.Submit | crates/abyss-broker/src/runtime_config.rs:330-335 | a validated update up to its commit: exactly the candidate is installed, if and only if none of the six file operations up to the rename fails; the directory is left tidy as by Persist |
| PolicyTransaction.RuntimePolicyTransaction.UpdateNetwork | crates/abyss-broker/src/runtime_config.rs:326-341 | success replaces only the route in snapshot, file and runtime; a route whose upstream is invalid, and no other, touches no file; a valid one is refused exactly if one of the six file operations up to the rename fails, and then nothing in memory changes and no temporary file is left unless its removal failed |
| PolicyTransaction.RuntimePolicyTransaction.UpdateMitm | crates/abyss-broker/src/runtime_config.rs:343-363 | the same for the MITM section, refused exactly if its validator refuses it |
| PolicyTransaction.RuntimePolicyTransaction.UpdateHooks | crates/abyss-broker/src/runtime_config.rs:365-382 | the same for the hooks section, which has no validator |
| PolicyTransaction.StartBroker | crates/abyss-broker/src/runtime_config.rs:302-324 | start-up succeeds exactly if the file loads and the upstream of the resolved route is valid; the runtimes then hold the loaded sections and the override or else the startup route; it is the machine's start step |
| PolicyTheorems.TaskReleasesTheLock | crates/abyss-broker/src/runtime_config.rs:393-531 | whatever its file operations do, the task lets go of the lock after at most ten of its own steps |
| PolicyTheorems.TransactionsAreShort | crates/abyss-broker/src/runtime_config.rs:326-531 | in any run, whoever moves in between, a transaction takes at most ten steps |
| TrafficWindow.Ensured | crates/abyss-broker/src/traffic.rs:280-301 | the newest bucket is always the one of the current second |
| TrafficWindow.DivisorCovers | crates/abyss-broker/src/traffic.rs:327-333 | read off the log: a pruned queue divides by the time from the oldest second with traffic that is still in the window and was not pushed out to the end of the current one, at most five seconds, and by one second if there is none |
| TrafficWindow.BytesPerSecond | crates/abyss-broker/src/traffic.rs:336-341 | the rate is the whole number of bytes per second |
| TrafficWindow.PruneInv | crates/abyss-broker/src/traffic.rs:303-312 | pruning keeps the queue's account of the event log |
| TrafficWindow.CreditInv | crates/abyss-broker/src/traffic.rs:181-214 | recording keeps the queue's account of the event log, evictions included |
| TrafficWindow.MissingSecond | crates/abyss-broker/src/traffic.rs:295-297 | a second of the window is missing from the queue exactly if it is the seventh of a fully busy closed window |
| TrafficWindow.WindowRefinesLog | crates/abyss-broker/src/traffic.rs:314-325 | recent bytes are all bytes ever recorded in the window, exactly, for clock readings off the whole second, and less exactly the pushed-out second otherwise |
| TrafficMonitoring.TrafficMonitor.StartFlow | crates/abyss-broker/src/traffic.rs:122-140 | in place: exactly one zeroed flow is added |
| TrafficMonitoring.TrafficMonitor.EnsureBucket | crates/abyss-broker/src/traffic.rs:280-301 | the push-and-pop loop keeps the newest six buckets, ending with the current second |
| TrafficMonitoring.TrafficMonitor.RecordBytes | crates/abyss-broker/src/traffic.rs:181-214 | in place: flow, total and bucket of one direction grow together; bytes of inactive flows are dropped |
| TrafficMonitoring.TrafficMonitor.FinishFlow | crates/abyss-broker/src/traffic.rs:216-218 | in place: only the flow disappears |
| TrafficMonitoring.TrafficMonitor.PruneBuckets | crates/abyss-broker/src/traffic.rs:303-312 | the loop removes exactly the leading stale buckets |
| TrafficMonitoring.TrafficMonitor.SumRecent | crates/abyss-broker/src/traffic.rs:314-325 | the fold yields both directions' window sums |
| TrafficMonitoring.TrafficMonitor.Snapshot | crates/abyss-broker/src/traffic.rs:143-178 | a snapshot only prunes; it reports the totals, and as rates the whole bytes per second of the window over the time since its oldest bucket, clamped to one to five seconds |
| TrafficMonitoring.TrafficFlowHandle.Finish | crates/abyss-broker/src/traffic.rs:260-264 | of all clones only the first removes the flow |
| TrafficMonitoring.TrafficFlowHandle.RecordBytes | crates/abyss-broker/src/traffic.rs:267-272 | a finished handle records nothing |
| TrafficRaces.RunInv | crates/abyss-broker/src/traffic.rs:181-273 | flow membership and, within 64 bits, every counter are exact after any interleaving of flag tests, records, swaps, removals and snapshots |
| TrafficRaces.BytesConserved | crates/abyss-broker/src/traffic.rs:181-214 | for any clocks, each total is the sum over active and finished flows of their counts and the sum of the log; never more than six buckets |
| TrafficRaces.LogIsCounted | crates/abyss-broker/src/traffic.rs:181-214 | the log of all these statements is exactly the byte events of the run, in a known direction, that enter between the start and the removal of their flow |
| TrafficRaces.RemovedFlowsAreFinal | crates/abyss-broker/src/traffic.rs:260-273 | after removal no later step changes a flow's counts or revives it |
| TrafficRaces.LateBytesAreDropped | crates/abyss-broker/src/traffic.rs:187-189 | bytes entering after removal change no total, bucket or other flow |
| TrafficRaces.RemovedAtMostOnce | crates/abyss-broker/src/traffic.rs:260-264 | however many clones finish a flow, it is removed once if at all |
| TrafficRaces.SnapshotRefinesHistory | crates/abyss-broker/src/traffic.rs:143-178 | for clocks that never went back, the reported rate r satisfies r*elapsed <= 1000*bytes < (r+1)*elapsed for the bytes of the full history in the window, where elapsed covers the oldest second seen; the reported totals are all bytes ever counted |
| TrafficRaces.CrowdedWindowIsReached | crates/abyss-broker/src/traffic.rs:295-297 | a reachable state in which the window reports one byte less than it covers |
| CappedCounts.TallyExact | crates/abyss-broker/src/diagnostics.rs:814-822 | after any history: at most 101 keys, sum equal to the increments, every other key exact over the whole history and present exactly if it once fitted, "other" counts exactly the increments of itself and of never admitted keys |
| CappedCounts.RefusedForGood | crates/abyss-broker/src/diagnostics.rs:815-819 | a key that has come up without being admitted never is |
| CappedCounts.TallyAdmits | crates/abyss-broker/src/diagnostics.rs:815-819 | a key is kept exactly if it occurred while fewer than 100 other keys had been seen |
| CappedCounts.TallyUncapped | crates/abyss-broker/src/diagnostics.rs:814-822 | with at most 100 different keys every count is exact, "other" included |
| CappedCounts.TallySum | crates/abyss-broker/src/diagnostics.rs:820-821 | no increment is lost |
| CappedCounts.RecentIsSuffix | crates/abyss-broker/src/diagnostics.rs:824-829 | a bounded queue holds the newest records in order |
| FlowDiagnosing.RecordFields | crates/abyss-broker/src/diagnostics.rs:232-370 | field by field: host from the Host header, else the server name, else the trimmed platform name, else the printed address; decision and miss reason of every result; process label and bundle; the synthetic mark for exactly 198.18.0.0/15 |
| FlowDiagnosing.FlowDiagnostics.RecordAccepted | crates/abyss-broker/src/diagnostics.rs:506-511 | in place: accepted and in-flight totals grow together, nothing else changes |
| FlowDiagnosing.FlowDiagnostics.RecordAcceptError | crates/abyss-broker/src/diagnostics.rs:514-526 | in place: error total and bounded error queue only |
| FlowDiagnosing.FlowDiagnostics.RecordIngressError | crates/abyss-broker/src/diagnostics.rs:529-543 | two separate lock acquisitions, whatever others record in between: an accept error, then at most one observation |
| FlowDiagnosing.FlowDiagnostics.RecordResult | crates/abyss-broker/src/diagnostics.rs:546-598 | in place: exactly the record described by RecordFields is completed, once |
| FlowDiagnosing.FlowDiagnostics.RecordCompleted | crates/abyss-broker/src/diagnostics.rs:626-658 | in place: totals, all nine maps and both queues change as specified and nothing else |
| FlowDiagnosing.OneFlow | crates/abyss-broker/src/diagnostics.rs:626-658 | the nine maps, totals and queues after one flow, with the names under which decisions and destination classes are counted |
| FlowDiagnosing.FlowDiagnostics.PushBack | crates/abyss-broker/src/diagnostics.rs:824-829 | push then pop leaves the newest records |
| FlowDiagnosing.MapsAreTallies | crates/abyss-broker/src/diagnostics.rs:626-658 | after any run every counter map is the tally of its own key over all completed flows, whatever errors came in between |
| FlowDiagnosing.CrossMapConservation | crates/abyss-broker/src/diagnostics.rs:626-656 | completed total = sum by decision = sum by host = intercepted + sum of miss reasons; both fake-IP maps sum to the fake-IP class; recent flows are the last min(100, n) records |
| FlowDiagnosing.QueuesAreRecent | crates/abyss-broker/src/diagnostics.rs:514-543 | after any run the error total counts accept and preparation errors, the error queue holds the newest 25 in order, and the observation queue the newest 100 from flows and failed preparations together, each in its own order |
| ProxyMachine.StepInv | crates/abyss-broker/src/proxy.rs:429-601 | every step of services, workers and tasks keeps limits, ownership, traffic and totals consistent |
| ProxyMachine.TasksOfStep | crates/abyss-broker/src/proxy.rs:455-470 | a worker's tasks grow only by its own spawns and shrink only by joins |
| ProxyMachine.FlowsStep | crates/abyss-broker/src/proxy.rs:567-601 | the monitor's flows follow the tasks between start and finish on every exit path |
| ProxyMachine.CountsStep | crates/abyss-broker/src/diagnostics.rs:506-511 | each report moves the totals so that they keep accounting for the tasks |
| ProxyTheorems.FlowAccounting | crates/abyss-broker/src/proxy.rs:547-601 | in every reachable state accepted = completed + in flight, completed = number of records, in flight = running accepted tasks + aborts and panics that hit an active flow, and the monitor shows exactly the flows between start and finish |
| ProxyRecording.DiagnosticsTellTheRun | crates/abyss-broker/src/diagnostics.rs:506-598 | from the events of a run alone: error total and newest 25 messages of failed accepts and preparations, accepted as prepared connections, completed, all nine maps and the newest 100 flows from the reported results, the newest 100 observations in the order recorded |
| ProxyRecording.FailuresAreObserved | crates/abyss-broker/src/diagnostics.rs:529-543 | the observation of a failed preparation follows its error: it has been recorded unless its task is still between the two |
| ProxyRecording.ObservationsAddUp | crates/abyss-broker/src/diagnostics.rs:529-598 | observations recorded and still owed are as many as results and observed failures |
| ProxyRecording.TrafficTellsTheRun | crates/abyss-broker/src/proxy.rs:567-601 | from the events of a run alone: each total is the bytes that arrived while their flow was active, and each flow shown has the bytes since its start |
| ProxyTheorems.ReturnedWorkersAreClean | crates/abyss-broker/src/proxy.rs:480-506 | a returned worker has joined every task, has no flow in the monitor and has shut its ingress down once; before that, never |
| ProxyTheorems.IdleAfterReturn | crates/abyss-broker/src/proxy.rs:28-34 | after all returns nothing is active and in flight equals the aborts and panics of the run that hit an active flow |
| ProxyTheorems.NoTimeoutNoLoss | crates/abyss-broker/src/proxy.rs:493-505 | a run without drain timeout and panic loses no flow |
| ProxyTheorems.AbortedFlowStaysInFlight | crates/abyss-broker/src/proxy.rs:493-505 | a run that ends idle with one flow in flight |
| ProxyTheorems.ConnectionsBounded | crates/abyss-broker/src/proxy.rs:435 | unjoined connections of a worker never exceed 256 |
| ProxyTheorems.NoSpawnAfterShutdown | crates/abyss-broker/src/proxy.rs:429-453 | once shutdown was received a worker's tasks only disappear |
| ProxyTheorems.OneWorker | crates/abyss-broker/src/proxy.rs:206-262 | at most one worker is not told to stop; alive are only the owned one, the one being stopped and those of dropped stops not yet returned, so at most one as soon as those have |
| ProxyTheorems.StartKeepsOneAlive | crates/abyss-broker/src/proxy.rs:216-230 | a start leaves one worker alive exactly if the worker of every dropped stop has returned |
| ProxyTheorems.OneWorkerIffStartsWait | crates/abyss-broker/src/proxy.rs:206-262 | over a whole run at most one worker is alive at any time if and only if no start precedes the return of the worker of a dropped stop |
| ProxyTheorems.AbandonedStopOverlaps | crates/abyss-broker/src/proxy.rs:251-256 | a run with a dropped stop and two workers alive |
| ProxyTheorems.AbortingWorkerReturns | crates/abyss-broker/src/proxy.rs:493-505 | after the drain timeout a worker can always return in a bounded number of steps that wait for no peer |
| ProxyTheorems.DrainsAreBounded | crates/abyss-broker/src/proxy.rs:480-506 | in every run after a worker has received its shutdown, its tasks make at most five steps each, joins included |
| ProxyServing.ProxyWorker.Run | crates/abyss-broker/src/proxy.rs:429-453 | the loop under arbitrary arrivals makes exactly the possible events happen, as machine steps, and is done exactly when it has left accepting with everything joined, after shutting the ingress down |
| ProxyServing.ProxyWorker.Select | crates/abyss-broker/src/proxy.rs:431-450 | under the source's guards a branch is taken exactly if its event can happen; a failed accept reaches the recorder; only shutdown ends accepting |
| ProxyServing.ProxyWorker.RecordAcceptError | crates/abyss-broker/src/proxy.rs:437-441 | with room for a connection a failed accept is recorded with its message, and nothing otherwise |
| ProxyServing.ProxyWorker.SpawnConnection | crates/abyss-broker/src/proxy.rs:455-470 | a connection joins the set exactly if there are fewer than 256, the limit being compared with the size of the set itself |
| ProxyServing.ProxyWorker.DrainConnections | crates/abyss-broker/src/proxy.rs:480-506 | draining only shrinks the join set, lets exactly the possible events happen, and reports done exactly if the set is empty |
| ProxyServing.ProxyService.Start | crates/abyss-broker/src/proxy.rs:206-237 | the same plan is idempotent, another plan changes nothing, a failed bind leaves it stopped, success spawns exactly one worker |
| ProxyServing.ProxyService.Stop | crates/abyss-broker/src/proxy.rs:245-262 | ends stopped in every case; success means the worker returned with all tasks joined, failure that it had not returned after everything that happened meanwhile |
| DeliveryMachine.StepInv | crates/abyss-cli/src/delivery.rs:71-255 | every step of any command or worker, including death, keeps locks, processes and record consistent |
| DeliveryMachine.TakenMeansWorker | crates/abyss-cli/src/delivery/lock.rs:64-83 | a lifetime lock found taken is held by the live worker spawned last |
| DeliveryTheorems.SingletonWorker | crates/abyss-cli/src/delivery.rs:71-131 | at most one worker is alive, it holds the lifetime lock, and it is the one spawned last |
| DeliveryTheorems.LockFollowsLifetime | crates/abyss-cli/src/delivery/lock.rs:64-83 | the lifetime lock is free exactly if no worker lives and nobody is launching; it is never leaked |
| DeliveryTheorems.VisibleRecordIsCurrent | crates/abyss-cli/src/delivery.rs:79-80 | a record visible while a worker lives was written by it; none is visible before it publishes |
| DeliveryTheorems.SuccessesNameTheBroker | crates/abyss-cli/src/delivery.rs:82-87 | every success names the requested broker, in a record written by the worker it relies on |
| DeliveryTheorems.RemovalIsOwn | crates/abyss-delivery-plugin/src/startup_info.rs:209-222 | a leaving worker removes only its own record, however late |
| DeliveryTheorems.LeavingWorkerRemovesItsRecord | crates/abyss-delivery-plugin/src/startup_info.rs:209-222 | a published worker that leaves finds its own record, still finds it when it removes it, and leaves none behind |
| DeliveryTheorems.FailedStartLeavesNothing | crates/abyss-cli/src/delivery.rs:214-234 | after a cleaned-up failed start there is neither worker nor record |
| DeliveryTheorems.ReliedWorkerWasAlive | crates/abyss-cli/src/delivery.rs:78-82 | a command that finds the lock taken relies on a worker alive at that moment |
| DeliveryTheorems.AliveIffTaken | crates/abyss-cli/src/delivery.rs:82-87 | while a command looks for the record of the worker it found, that worker is alive exactly as long as the lifetime lock is taken |
| DeliveryTheorems.ReuseIsAliveIffTaken | crates/abyss-cli/src/delivery.rs:82-87 | a record is reused exactly if it names the broker, it then names the worker relied on, and that worker is alive at the return if and only if the lock is taken at the read |
| DeliveryTheorems.ReuseMayNameDeadWorker | crates/abyss-cli/src/delivery.rs:82-87 | a run from the start that returns a dead worker |
| DeliveryLaunch.DeliveryWorker.AcquireStart | crates/abyss-cli/src/delivery/lock.rs:28-56 | tries at once and after each wait; ends with the start lock or with nothing held, the error telling an unusable lock file from a timeout |
| DeliveryLaunch.DeliveryWorker.EnsureRunning | crates/abyss-cli/src/delivery.rs:71-97 | under arbitrary interference and failing operations: both locks are given back, success names the broker, free locks lead to a launch, a child's record seen at a poll makes a success, timeouts use up all polls, an exited worker was seen to have exited, and after any failed start no worker is left unless polling or killing the child failed |
| DeliveryLaunch.DeliveryWorker.Decide | crates/abyss-cli/src/delivery.rs:78-96 | a free lifetime lock leads to the removal of stale records and a spawn, a taken one to reuse or to waiting all polls |
| DeliveryLaunch.DeliveryWorker.Launch | crates/abyss-cli/src/delivery.rs:99-131 | stale records are removed and a child is spawned, unless just that fails |
| DeliveryLaunch.DeliveryWorker.WaitUntilReady | crates/abyss-cli/src/delivery.rs:172-212 | success names the very child and the broker; unready means that none of all the polls saw the child's record and that it was killed, exited that its exit was seen; a failing poll leaves the child as it is |
| DeliveryLaunch.DeliveryWorker.Poll | crates/abyss-cli/src/delivery.rs:180-186 | one read of the record; the child's own record, and nothing else, connects |
| DeliveryLaunch.DeliveryWorker.TerminateFailedStart | crates/abyss-cli/src/delivery.rs:214-234 | a kill leaves no worker, and a clean-up that succeeds no record either |
| CaBundle.CanonicalIsOnePass | crates/abyss-cli/src/claude_code.rs:254-256 | the two replacements together turn CR LF, CR and LF into one line end each |
| CaBundle.HasCertificateMeans | crates/abyss-cli/src/claude_code.rs:258-260 | the containment test depends only on the trimmed canonical texts |
| CaBundle.Search | crates/abyss-cli/src/claude_code.rs:258-260 | the scan finds the certificate exactly if it occurs |
| CaBundle.Merge | crates/abyss-cli/src/claude_code.rs:224-231 | the bundle written is the specified merge |
| CaBundle.MergedContainsBoth | crates/abyss-cli/src/claude_code.rs:224-231 | the output contains the trimmed canonical root and begins with everything the previous bundle had |
| CaBundle.CoreOfMerged | crates/abyss-cli/src/claude_code.rs:224-231 | what a merge amounts to, in all three cases |
| CaBundle.MergeReachesFixedPoint | crates/abyss-cli/src/claude_code.rs:194-260 | a second merge changes nothing if and only if the previous text is not blank or the root is; a third never changes anything |
| ClaudeSettings.ClaudeCodeConfigurator.MergedBundle | crates/abyss-cli/src/claude_code.rs:194-232 | path rules, missing files and the merge, with their errors; a result contains the root, and joins the whole previous bundle if the entry names a readable one |
| ClaudeSettings.ClaudeCodeConfigurator.Prepare | crates/abyss-cli/src/claude_code.rs:84-91 | nothing is written before everything has been read and checked |
| ClaudeSettings.ClaudeCodeConfigurator.Configure | crates/abyss-cli/src/claude_code.rs:83-122 | which of bundle, backup, settings and state have changed when a run stops at any step; errors found before writing change nothing; the bundle of a complete run contains the root and joins the bundle the settings named before |
| ClaudeSettings.PreviousBundleSurvives | crates/abyss-cli/src/claude_code.rs:205-231 | for every string entry: a readable absolute path has its whole text at the beginning of the bundle and the root in it, a relative path is refused, so is a missing file other than the managed one, and a blank entry leaves the root alone; the entry is kept |
| ClaudeSettings.NothingToMerge | crates/abyss-cli/src/claude_code.rs:200-204 | without a string entry, or without settings, the bundle is the normalised root |
| ClaudeSettings.RefusedSettings | crates/abyss-cli/src/claude_code.rs:84-105 | which settings are refused, with which error, and that a missing root comes first |
| ClaudeSettings.OtherSettingsArePreserved | crates/abyss-cli/src/claude_code.rs:102-105 | all other settings and environment entries stay, and the one entry names the managed bundle |
| ClaudeSettings.RerunIsIdempotent | crates/abyss-cli/src/claude_code.rs:83-122 | configuring again succeeds with the same settings, and the same bundle exactly under the merge condition |
| ClaudeSettings.StaysTrustworthy | crates/abyss-cli/src/claude_code.rs:92-109 | a failure or death at any step never leaves the settings naming a managed bundle without the root |
| ClaudeSettings.ResumeAfterInterruption | crates/abyss-cli/src/claude_code.rs:83-122 | a run after an interrupted one succeeds with the settings of an uninterrupted run |
| PublishCrates.ValidateRelease | scripts/ci/publish_crates.py:30-63 | accepts exactly the releases with matching tag, exact release set, described packages and ordered same-version dependencies |
| PublishCrates.ValidReleaseMeans | scripts/ci/publish_crates.py:30-63 | a valid release in plain terms: tag, release set, description, and every non-dev dependency by path an earlier one at exactly this version, none from git |
| PublishCrates.ByNameIsLast | scripts/ci/publish_crates.py:36-41 | of several workspace packages with one name the last one counts, and packages outside the workspace never do |
| PublishCrates.CheckDependencies | scripts/ci/publish_crates.py:51-61 | passes exactly if every non-dev dependency is ordered, pinned and not from git |
| PublishCrates.CratesIndex.PublishedVersion | scripts/ci/publish_crates.py:87-108 | missing, present, yanked and unreachable are told apart |
| PublishCrates.CratesIndex.LookUpAll | scripts/ci/publish_crates.py:117 | succeeds exactly if every lookup answers and nothing is yanked, and then tells exactly what is present |
| PublishCrates.CratesIndex.PublishRelease | scripts/ci/publish_crates.py:111-128 | uploads a first part of what is missing, in order, nothing if anything is yanked; succeeds exactly if ready, all lookups answer, nothing is yanked and every missing package uploads |
| PublishCrates.ResumablePublication | scripts/ci/publish_crates.py:111-128 | over any sequence of interrupted and repeated runs the published set is a prefix of the list, nothing is uploaded twice, a finished run has published all |
| PublishCrates.PublishedSetIsClosed | scripts/ci/publish_crates.py:44-62 | for a valid release every published prefix contains the release dependencies of its members |
| FixturePaths.JoinSplit | scripts/agent_e2e_ci/model.py:137 | splitting loses nothing, so different strings are different paths |
| FixturePaths.AcceptedPathIsSafe | scripts/agent_e2e_ci/model.py:332-349 | an accepted path has only plain printable parts and stays below the workspace |
| FixturePaths.PathRules | scripts/agent_e2e_ci/model.py:332-349 | exactly which paths are accepted: no backslash, no empty, dot, dot-dot or .git part, no control character, no reserved last part, at most 240 encoded bytes |
| FixturePaths.Utf8Concat | scripts/agent_e2e_ci/model.py:347-348 | the encoded length adds up, is one to four bytes a character, and one exactly for ASCII |
| FixturePaths.TotalIsOfContents | scripts/agent_e2e_ci/model.py:128-148 | the total is the encoded length of all contents together; the limits in numbers |
| FixturePaths.CountingFindsDuplicates | scripts/agent_e2e_ci/model.py:134-136 | comparing set and list size detects every duplicate |
| FixturePaths.CheckPrefixes | scripts/agent_e2e_ci/model.py:137-144 | the double loop finds every file/directory conflict |
| FixturePaths.ValidateFixtures | scripts/agent_e2e_ci/model.py:128-148 | accepts exactly the bounded, unique, prefix-free sets of safe paths |
| FixtureWriting.Workspace.MakeParents | scripts/agent_e2e_ci/assets.py:35-36 | succeeds exactly if no directory needed is a file, and then adds exactly those |
| FixtureWriting.Workspace.WriteFixtures | scripts/agent_e2e_ci/assets.py:31-45 | for an accepted scenario no write fails, the final tree holds exactly each path with its own content, and the manifest lists each path with its encoded length in order |
| FixtureWriting.Workspace.Materialize | scripts/agent_e2e_ci/assets.py:31-60 | the image is written exactly if no fixture uses its name as first directory; the fixtures are intact either way |
| FixtureWriting.ImageNameCanBeTaken | scripts/agent_e2e_ci/model.py:345-346 | an accepted scenario whose image cannot be written |
| TailRead.MaxBytesPerFile | crates/abyss-broker/src/support_logs.rs:29-44 | accepted exactly if absent or within 1 byte and 64 MiB, and then the request itself or 10 MiB; zero and too much are told apart |
| TailRead.LogFile.ReadToEnd | crates/abyss-broker/src/support_logs.rs:174-175 | reading while the file grows returns everything from the position to the end finally met |
| TailRead.LogFile.ReadTail | crates/abyss-broker/src/support_logs.rs:165-187 | for any growth the bytes are exactly the last min(limit, n) of the n bytes finally read, and truncated holds exactly if n exceeds the limit |
| TailRead.TailIsLongestSuffix | crates/abyss-broker/src/support_logs.rs:176-181 | no allowed suffix is longer than the returned one |

## Left out

* Sockets, TLS, HTTP and MITM internals: a flow's outcome, its bytes and its failures are arbitrary.
* TOML and JSON syntax: documents are values; a torn or unsynced policy file may decode to anything.
* Durability of creating the policy file's parent directory, and file permissions everywhere.
* Windows paths and lock semantics: the policy steps are those of Unix, with the directory syncs.
* A directory sync that succeeds is taken to make durable everything done to the directory before, also after an earlier sync of it failed; PowerLossIsRecent and SyncSettles rest on that.
* Observation persistence in SQLite, tracing and log messages.
* Fields of flow records, snapshots and status documents that feed no counter.
* The order and the limit of 24 of the active flows shown in a live snapshot, and the flow metadata besides the host.
* Between granting the lock and the first poll of the request that gets it, the source's lock library holds the permit on the request's behalf and returns it if the request is dropped; the model counts that as the request owning the guard.
* A connection and its flow share one identity in the proxy machine; the source draws a second random identifier for the flow.
* A worker task that itself panics: the service then reports an error and is stopped, like after an abandoned stop.
* ProxyServing.ProxyService.Start: does not model a start dropped while it binds, which leaves the service stopped like a failed bind.
* ProxyServing.ProxyWorker.Run: the order in which the asynchronous runtime offers events is a parameter, and the drain timeout is one of them; that it fires is not proved.
* DeliveryLaunch.DeliveryWorker.EnsureRunning: timeouts are numbers of polls, wall-clock time is not modelled; a kind of operation that fails does so throughout one call.
* The guard that a recorded worker identity is not zero: every record of the model names a spawned worker.
* Reuse of process identifiers, and records written by anything but a delivery worker, which the launcher rejects as invalid.
* The control connection opened from a readiness record, and `discover`, which reads the record without any lock.
* The content of the Claude Code state file beyond the previous environment, backup file names, and paths equal only after normalisation.
* Reading the fixtures' hashes, the PNG encoding of the image, and the other fields of a scenario.
* Case-insensitive or otherwise aliasing file systems below the fixture workspace.
* Concurrent publishers, and an index that does not reflect uploads.
* The collection loop over several log files, and logs that are rotated or truncated while they are read.
