# Verification of the benchmark plugin

A Dafny model of the logic that carries this repository, with proofs about all inputs, all runs and all
interleavings. `dafny verify dfyconfig.toml` checks the whole project.

## What is modelled

1. **Runner output** (`Lines`, `PhaseObservations`, `CountPattern`, `PhaseOutput`, `SummaryLines`, `PgbenchMetrics`,
   `SysbenchMetrics`, `GoYcsbMetrics`, `GoYcsbRun`, `Redaction`). Bytes arrive in any pieces on two streams. The
   classes buffer bounded lines byte by byte as the runners do; they are proved equal to reading the complete
   streams at once, and the verdicts and metrics have declarative descriptions.
2. **Run lifecycle** (`RunLifecycle`). Admission, slots, executors, completion with retries, shutdown, crash and
   recovery are one step relation; its histories are all interleavings.
3. **Kubernetes resources** (`Cluster`, `Scheduling`, `Coordinator`, `OrphanCleanup`, `RunExecution`). The cluster
   is a map from kind and name to an object with UID and labels. Before and after every call other actors may
   change it; calls fail at will, also after they took effect. The coordinator is imperative code over that map.
4. **Run stores** (`RunStore`, `PostgresStore`, `StorableText`). The store in memory expires lazily and is compared
   with one that expires at once; the PostgreSQL store is compared with it, up to the repair of text.
5. **Configuration** (`Environment`, `PgbenchConfig`, `SysbenchConnection`, `SysbenchConfig`, `DatabaseForm`,
   `GoYcsbConfig`). Accepted options and connections are followed through the Job's environment into the runner,
   and for sysbench into its configuration file.
6. **Two small concurrent machines** (`Discovery`, `Polling`).

`GoText` and `Sorting` hold the library functions that the sources call, `Driver` and `RunnerResult` shared types.

Texts are sequences of bytes, one byte for each Dafny `char`; the statements hold for all chars, hence for all
byte strings. Only `DatabaseForm` also reads texts as Unicode code points. Times are nanoseconds in the backend
and milliseconds in `Polling`.

Redacted output is not claimed to be free of secrets, and need not be: a secret may lie inside the placeholder or
span its edge. What holds is stated about the parts of the text that are kept.

One message is wrong for some runs: a run that failed for scheduling within its time is reported as timed out when
its cleanup timed out (`RunExecution.TimeoutWordingExactly` gives the exact condition). The code is modelled as it is.

## Assumptions

- UIDs are not reused and labels of an object do not change.
- At most one backend process of an installation lives at a time, its process identifier is fresh, and nobody else
  creates objects with its installation's labels. No request of a dead process lands after its successor's listing.
- An acknowledged delete without foreground propagation removes the object; Secrets carry no finalizers.
- Calls return by the deadline of their context. Waiting is time that passes, not sleeping.
- The run store is used by one process; while it serves, only a run's own executor completes its record.
- PostgreSQL statements are atomic, and the database orders run IDs (lower-case hexadecimal) bytewise.

## Model

| member | source | states |
|---|---|---|
| `Lines.SplitIsExact` | runners/go-ycsb/output.go:67-119 | Splitting a stream at newlines loses nothing, adds nothing and leaves no newline in a piece |
| `Lines.SplitIsUnique` | runners/go-ycsb/output.go:67-119 | No other list of newline-free pieces joins back to the same stream |
| `PhaseOutput.RunPhase` | runners/go-ycsb/output.go:45-181 | For any fragments of stdout and stderr in any interleaving: if and only if a destination refused a write, the verdict is that forwarding failed; otherwise the verdict and the text forwarded on each stream are functions of the two complete streams and the set of secrets alone |
| `PhaseOutput.ForwardedDependsOnlyOnSecrets` | runners/go-ycsb/output.go:45-64 | Equally long secrets may come in any order without changing the forwarded text |
| `PhaseOutput.StreamingIsBatch` | runners/go-ycsb/output.go:67-119 | Reading byte by byte through the bounded buffer leaves each stream in the state that reading its whole text at once describes |
| `PhaseOutput.DrainedIsAllLines` | runners/go-ycsb/output.go:160-181 | After the final flush a stream shows exactly its lines outside banners, counts exactly what they say, and is poisoned exactly when some line was oversized |
| `PhaseOutput.DecisionIsVerdict` | runners/go-ycsb/output.go:160-181 | The decision made from the shared counters is the verdict on the two complete streams |
| `PhaseOutput.ObserveOwnLane` | runners/go-ycsb/output.go:121-157 | A line of one stream does not disturb what the other stream has contributed to the shared flags |
| `PhaseOutput.Phase.Observe` | runners/go-ycsb/output.go:121-157 | One shown line changes the shared flags by what the specification says that line contributes, and no more |
| `PhaseOutput.Phase.Finish` | runners/go-ycsb/output.go:160-181 | The verdict combines the two drained streams: forwarding failure first, then oversized lines, then the load confirmation |
| `PhaseOutput.Log.Write` | runners/go-ycsb/output.go:67-88 | A write of any size is consumed whole and advances its stream as the concatenated text would |
| `PhaseOutput.Log.FlushLine` | runners/go-ycsb/output.go:90-119 | Ending a line shows, hides or drops it by the banner and size rules and clears the buffer |
| `PhaseObservations.LoadAcceptedExactly` | runners/go-ycsb/output.go:90-181 | A load passes if and only if stdout has one finish line followed by one readable INSERT summary with the requested count, every error line on both streams has a readable zero count, and no line of either stream is oversized |
| `PhaseObservations.CleanErrorsExactly` | runners/go-ycsb/output.go:121-157 | The two error flags stay clear if and only if every error line has a readable zero count |
| `PhaseObservations.TallyMeaning` | runners/go-ycsb/output.go:121-157 | The flags mean what they claim about the lines seen: a finish, a summary after it, a second of either, an unreadable or failed one |
| `PhaseObservations.FinishLineIsNoSummary` | runners/go-ycsb/output.go:121-157 | No line is both a finish marker and an INSERT summary, so the order of the checks does not matter |
| `PhaseObservations.CountIsRead` | runners/go-ycsb/output.go:147-156 | The count that is kept is one that an INSERT summary after the finish line stated |
| `CountPattern.CountIsLeftmostMatch` | runners/go-ycsb/output.go:21 | The count of a summary or error line is the decimal value of the digits that the leftmost match of the pattern captures, if it fits in 64 bits; a line without a match has none |
| `PhaseObservations.StderrSaysNoMore` | runners/go-ycsb/output.go:121-157 | On stderr only error lines matter: finish and summary lines there confirm nothing |
| `Redaction.ScanIsLeftmostLongest` | backend/internal/api/preparation.go:144-157 | The text is kept gaps and replaced secrets; at each position outside a replaced secret the longest secret that begins there is the one replaced |
| `Redaction.LeftmostLongestIsUnique` | backend/internal/api/preparation.go:144-157 | There is only one such division of a text |
| `Redaction.ReplaceDependsOnlyOnSecrets` | backend/internal/api/preparation.go:99-122 | The output depends on the set of secrets, not on the order of equally long ones |
| `Redaction.OccurrenceStartsHidden` | backend/internal/api/preparation.go:144-157 | Every occurrence of a secret in the text overlaps a replaced region |
| `Redaction.NoKeptGapContainsASecret` | backend/internal/api/preparation.go:144-157 | No contiguous kept part of the text contains a secret |
| `Redaction.RedactionValues` | backend/internal/api/preparation.go:99-122 | Exactly the non-empty secrets, without repetition, longest first |
| `Redaction.RedactionValuesAreDetermined` | backend/internal/api/preparation.go:99-122 | The list is the same for every iteration order of the two collections |
| `Redaction.SanitizeRunnerOutput` | backend/internal/api/preparation.go:144-157 | The output is the leftmost-longest replacement, also when some values are empty or there are none |
| `PhaseOutput.NonEmptyKeepsOrder` | runners/go-ycsb/output.go:45-64 | Dropping empty candidates keeps the longest-first order that the replacement needs |
| `RunExecution.SanitizeRunnerMetrics` | backend/internal/api/preparation.go:127-142 | The published metrics are those that reveal no secret, in their order |
| `RunExecution.PublishedMetrics` | backend/internal/api/preparation.go:127-142 | A metric is published if and only if neither its name nor its unit contains a secret |
| `SummaryLines.StreamingIsBatch` | runners/sysbench/metrics.go:43-67 | The bounded buffer reads the same lines as the whole stream, with a line over 4096 bytes counted as too long |
| `SummaryLines.DrainedIsWholeStream` | runners/sysbench/metrics.go:126-138 | After the last fragment every line has been read once |
| `SummaryLines.SlotMeaning` | runners/sysbench/metrics.go:69-118 | A value is held if and only if exactly one line stated it and that line was well formed |
| `SysbenchMetrics.Collect` | runners/sysbench/metrics.go:43-138 | For every chunking, the metrics are those that the lines of the whole stream state |
| `SysbenchMetrics.AllFourExactly` | runners/sysbench/metrics.go:69-138 | Metrics are returned if and only if both headers and both metric lines occur exactly once, each metric in its own section and well formed |
| `SysbenchMetrics.Collector.Write` | runners/sysbench/metrics.go:43-67 | A write of any size advances the collector as the concatenated text would, and the buffer never exceeds 4096 bytes |
| `SysbenchMetrics.Collector.Result` | runners/sysbench/metrics.go:126-138 | The result is what the lines up to now and the unfinished last line state |
| `GoYcsbMetrics.Collect` | runners/go-ycsb/metrics.go:41-134 | For every chunking, the metrics are those that the lines of the whole stream state |
| `GoYcsbMetrics.AllExactly` | runners/go-ycsb/metrics.go:71-134 | Metrics are returned if and only if the finish marker and, after it, the TOTAL line occur exactly once, the latter well formed, and no oversized line follows the marker |
| `GoYcsbMetrics.TotalFieldsMeaning` | runners/go-ycsb/metrics.go:71-114 | The TOTAL line is well formed if and only if every field has a key and each of the two wanted keys occurs exactly once with a number |
| `GoYcsbMetrics.Collector.Write` | runners/go-ycsb/metrics.go:41-69 | A write of any size advances the collector as the concatenated text would |
| `GoYcsbMetrics.Collector.Result` | runners/go-ycsb/metrics.go:122-134 | The result is what the lines up to now and the unfinished last line state |
| `PgbenchMetrics.Collect` | runners/pgbench/metrics.go:41-109 | For every chunking, metrics are returned if and only if each of the two keyed lines occurs exactly once and is well formed |
| `PgbenchMetrics.Collector.Write` | runners/pgbench/metrics.go:41-65 | A write of any size advances the collector as the concatenated text would |
| `GoYcsbRun.Run` | runners/go-ycsb/main.go:141-191 | Phases run in order, each only after the ones before it succeeded; each verdict is that of the complete streams, or that of a failed forwarding exactly when a destination refused output of that phase; the collector saw exactly the measured stdout |
| `GoYcsbRun.RunWithMetrics` | runners/go-ycsb/main.go:195-220 | Metrics are published only after every phase succeeded, and they are what the measured stdout states |
| `GoYcsbRun.MeasuredAfterConfirmedLoad` | runners/go-ycsb/main.go:141-191 | The measured phase starts only after a load whose stdout confirms the requested number of records, without an error line to object to or an oversized line on either stream |
| `RunLifecycle.CountersAreExact` | backend/internal/api/routes.go:72-104 | In every reachable interleaving the WaitGroup counts the handlers past registration and the live executors, and at most two slots are held, never more than are counted |
| `RunLifecycle.CleanShutdownIsFinal` | backend/internal/api/routes.go:85-104 | Once Shutdown has returned without error nothing runs, all slots are free and no record is ever added while the process lives |
| `RunLifecycle.EveryStateIsGood` | backend/internal/api/runs.go:169-203 | Every state of every history keeps the counter, shutdown and ownership invariants |
| `RunLifecycle.StepKeepsInv` | backend/internal/api/runs.go:169-260 | No step of a handler, an executor, a shutdown caller, a crash or recovery breaks them |
| `RunLifecycle.RecordsEndOnce` | backend/internal/pgstore/store.go:157-191 | A record never disappears and never changes after it ended, through retries, crashes and restarts |
| `RunLifecycle.StoredResultIsTheExecutors` | backend/internal/api/runs.go:245-260 | An ended record of a finished run holds the single result of its executor or the interruption notice, nothing else |
| `RunLifecycle.EffectiveCompletionIsStored` | backend/internal/api/runs.go:245-260 | After an attempt that was acknowledged, that took effect although it was reported as failed, or that was refused, the record holds the result of the executor for good |
| `RunLifecycle.InterruptionNeedsCrash` | backend/internal/api/runs.go:245-260 | A run whose executor has finished is recorded as interrupted only if the process crashed after that |
| `RunLifecycle.RunningIsOfThisProcess` | backend/storage.go:60-73 | Whenever a process serves, each running record was created by that process, after its recovery |
| `RunLifecycle.RecoverySettles` | backend/storage.go:60-73 | After a recovery every record made before it is ended for good: those that still ran are interrupted, the others keep what they say |
| `RunLifecycle.StrandedExactly` | backend/internal/api/runs.go:169-260 | Which running records no handler and no executor of the process will ever end: exactly those whose insertion was reported as failed although it took effect, and those whose last attempt at completion failed without effect while the record ran |
| `Coordinator.Run` | backend/internal/coordinator/runs.go:87-158 | However the calls turn out: every write concerns the Secret and the Job of this run under the UIDs reported at creation; deletion of the Secret is requested, at most half of the cleanup time after that of the Job; without a cleanup error both are gone for good; every error rests on what happened: an invalid input, a context that ended, a call that was refused, or what a look at the Job or its Pods showed; output and metrics were read from the one Pod of the Job; and no error at all implies the whole evidence of success |
| `Coordinator.ExecuteCreated` | backend/internal/coordinator/runs.go:109-158 | The deferred cleanup runs after every outcome of the observation, and its errors are added to those of the run |
| `Coordinator.CreateBenchmarkResources` | backend/internal/coordinator/jobs.go:257-303 | The Secret is created before the Job; without a Job the Secret is removed again or the failure to do so is reported; every error has its cause |
| `Coordinator.CreateJobFor` | backend/internal/coordinator/jobs.go:285-303 | A failed Job creation sends the deletion of the Secret |
| `Coordinator.RollBack` | backend/internal/coordinator/jobs.go:290-302 | Either the Secret of a run without a Job is gone, or the failure to remove it is reported beside the first one |
| `Coordinator.CreateNamed` | backend/internal/coordinator/jobs.go:403-449 | A reported creation yields the name and the UID under which the object is known; otherwise the context had ended, the randomness failed or the request was refused |
| `Coordinator.CleanupBenchmarkResources` | backend/internal/coordinator/jobs.go:364-398 | The Secret is deleted even after the Job could not be, with at least half of the cleanup time left; no error implies that both are gone, and an error that a deletion was refused, could not be confirmed or took too long |
| `Coordinator.DeleteBenchmarkJob` | backend/internal/coordinator/jobs.go:308-361 | Success means that no object with the recorded UID exists or ever will; a same-named replacement is not touched |
| `Coordinator.AwaitJobAbsence` | backend/internal/coordinator/jobs.go:343-360 | Waiting succeeds only on an observed absence, writes nothing and stays within the deadline |
| `Coordinator.DeleteCredentialSecret` | backend/internal/coordinator/secrets.go:68-101 | One request with the recorded UID; success means acknowledged and gone |
| `Coordinator.WritesCompose` | backend/internal/coordinator/runs.go:87-158 | Confinement to the two resources of a run carries over from two periods to the longer one, and what is known or gone stays so |
| `Coordinator.WaitForJob` | backend/internal/coordinator/jobs.go:46-118 | The wait succeeds only when the Job with the recorded UID was seen complete; it expires only when its context has ended, and blames the Job only when the Job was seen failed, under another UID or could not be read; it fails for scheduling exactly at the first overdue observation, each observation is what a Pod lookup of its own showed, in order and at its time, and every look that left the Job unfinished is followed by one |
| `Coordinator.WaitRound` | backend/internal/coordinator/jobs.go:67-110 | A round that goes on has looked at the Job once and added one observation, taken from a listing of this round; none so far is overdue |
| `Coordinator.CheckScheduling` | backend/internal/coordinator/jobs.go:97-110 | An observation shows the Pod that a listing of this round showed, or that the lookup failed; it ends the wait if and only if it makes the Pod overdue, which the failure names |
| `Coordinator.SoleOwnedPod` | backend/internal/coordinator/jobs.go:160-181 | The one Pod that this Job controls, none, or an error when it controls several |
| `Coordinator.LookupJobPod` | backend/internal/coordinator/jobs.go:138-181 | A Pod is returned only from a listing in which it is the only one the Job controls |
| `Coordinator.CollectRunnerLogs` | backend/internal/coordinator/jobs.go:210-252 | The output is the log stream up to 1 MiB, marked as truncated exactly when it was longer |
| `Coordinator.ObserveRun` | backend/internal/coordinator/runs.go:121-158 | Between creation and cleanup nothing is written; every error has its cause; output and metrics are those of the one Pod of the Job; no error implies a complete Job, its only Pod and its logs |
| `Coordinator.EvidenceWithin` | backend/internal/coordinator/runs.go:121-158 | What was seen during the observation was seen during the run |
| `Cluster.API.DeleteObject` | backend/internal/coordinator/jobs.go:333-345 | A delete with a UID precondition removes at most the object with that UID |
| `Cluster.API.CreateObject` | backend/internal/coordinator/jobs.go:430-441 | A create never replaces an object; it may fail after it took effect |
| `RunExecution.ExecuteRun` | backend/internal/api/runs.go:213-241 | The record still runs because no attempt took effect, or holds exactly what the execution came to with the secrets taken out; it says succeeded only if the recorded Job was seen complete, its one Pod found, its logs read, the Job confirmed absent and the deletion of the Secret acknowledged; its message is determined by the errors, each of which has its cause |
| `RunExecution.CompleteRun` | backend/internal/api/runs.go:245-260 | Up to three attempts store at most one result, also when an attempt fails after it took effect |
| `RunExecution.TimeoutWordingExactly` | backend/internal/api/runs.go:222-231 | The message says that the execution timed out before the runner could be scheduled, wrongly, if and only if scheduling is to blame, the execution did not time out and another request did; an execution that timed out is past its deadline |
| `RunExecution.CleanupTimeoutIsNamed` | backend/internal/api/runs.go:222-231 | An input for which the wording is wrong: scheduling failed within the grace period and the deletion of the Job timed out |
| `RunExecution.FailureMessageIsValid` | backend/internal/api/runs.go:220-231 | Every failure has a message that the stores accept |
| `OrphanCleanup.CleanupOrphanedResources` | backend/internal/coordinator/recovery.go:52-97 | Only objects of earlier processes of this installation are removed, each listed one is counted or reported, a report rests on a refused request or an ended context, and no error implies that none is left |
| `OrphanCleanup.CleanupKind` | backend/internal/coordinator/recovery.go:60-95 | The same for one kind: a complete list whose members are gone leaves no orphan of that kind |
| `OrphanCleanup.DeleteTargets` | backend/internal/coordinator/recovery.go:70-80 | A failed deletion does not stop the others; a missing object counts as removed |
| `OrphanCleanup.AllGone` | backend/internal/coordinator/recovery.go:45-51 | As orphans are never added, removing all that was listed is enough |
| `OrphanCleanup.RetryOrphanCleanup` | backend/storage.go:80-97 | It ends with a clean namespace or with the context; the waits double from the first up to the cap |
| `OrphanCleanup.CleanedForGood` | backend/internal/coordinator/recovery.go:45-51 | After a cleanup without error, through any number of crashes and restarts, every object of the installation was made by that process or a later one |
| `RunExecution.RecoverInterruptedRuns` | backend/storage.go:60-73 | Without an error no record runs; ended records are never touched; nothing is left of earlier processes unless it says that cleanup is pending |
| `Scheduling.SchedulingTracker.Observe` | backend/internal/coordinator/scheduling.go:35-48 | The failure fires if and only if some earlier observation began an unbroken window of the same unschedulable Pod at least the grace period ago |
| `Scheduling.SchedulingTracker.Reset` | backend/internal/coordinator/jobs.go:104-105 | A failed lookup breaks the window |
| `Scheduling.OverdueFromStart` | backend/internal/coordinator/scheduling.go:35-48 | With a clock that does not run backwards the oldest window decides |
| `Scheduling.WindowGrows` | backend/internal/coordinator/scheduling.go:35-48 | The tracked start is that of the longest unbroken window |
| `Scheduling.WatchScheduling` | backend/internal/coordinator/jobs.go:97-110 | Over a whole sequence of observations the failure comes at the first overdue one |
| `RunStore.LazyExpiryIsInvisible` | backend/internal/api/store.go:100-188 | No sequence of calls with a nondecreasing clock tells this store from one that drops each record exactly one hour after its completion, except that completing an expired record may be refused for the other reason |
| `RunStore.LazyRefinesEager` | backend/internal/api/store.go:100-188 | One call gives indistinguishable replies and leaves the same visible records |
| `RunStore.StepContinues` | backend/internal/api/store.go:133-148 | A call leaves a record what it was, and unchanged once it has ended, if and only if the call does not create a record after its expiry |
| `RunStore.RecordsEndOnce` | backend/internal/api/store.go:133-148 | Over any sequence of calls a record stays what it was and does not change once it has ended, unless it had expired, which a running record never does, when another was created |
| `RunStore.PageIsUnique` | backend/internal/api/store.go:150-170 | A history page is determined by the records: the map order does not show |
| `RunStore.SortedPrefixIsPage` | backend/internal/api/store.go:76-83 | Sorting newest first and cutting gives exactly the first records in strict order, each before every one left out |
| `RunStore.MemoryRunStore.ListByTarget` | backend/internal/api/store.go:150-170 | The page of the visible records of the target, without output; a limit outside 1 to 100 is refused |
| `RunStore.MemoryRunStore.Create` | backend/internal/api/store.go:100-121 | Blank and existing IDs are refused; expired records are removed and free their ID |
| `RunStore.MemoryRunStore.Get` | backend/internal/api/store.go:123-131 | An expired record is not found although it is still there |
| `RunStore.MemoryRunStore.Complete` | backend/internal/api/store.go:133-148 | Exactly one completion of a running record succeeds, with the terminal status contract |
| `RunStore.MemoryRunStore.FailRunning` | backend/internal/api/store.go:172-188 | All running records fail with the message and no result, and their IDs come sorted; others stay |
| `RunStore.MemoryRunStore.PruneExpired` | backend/internal/api/store.go:221-227 | Exactly the expired records are removed |
| `RunStore.InterruptedListIsUnique` | backend/internal/api/store.go:172-188 | The list of IDs does not depend on the map order |
| `PostgresStore.StoresAgree` | backend/internal/pgstore/store.go:84-299 | While nothing has expired, both stores answer a call alike and hold the same records up to the repair of text, with the clock of the one in memory truncated to microseconds |
| `PostgresStore.HistoriesAgree` | backend/internal/pgstore/store.go:84-299 | The same for every sequence of calls at any times |
| `PostgresStore.PrecisionShowsExactly` | backend/internal/pgstore/store.go:80-82 | With the full clock in memory a history page is the same if and only if none of the first records of the target, as many as the page holds, is followed by a record of the same microsecond with a smaller ID |
| `PostgresStore.OrderLostExactly` | backend/internal/pgstore/store.go:80-82 | Truncation loses the order of two records exactly when they fall into one microsecond and their IDs are ordered against their times |
| `PostgresStore.PrecisionShows` | backend/internal/pgstore/store.go:80-82 | Two runs of one microsecond that the stores list in different orders |
| `PostgresStore.Store.Complete` | backend/internal/pgstore/store.go:157-191 | Only a running row is completed; otherwise the answer says whether it is missing or already ended |
| `PostgresStore.Store.FailRunning` | backend/internal/pgstore/store.go:277-299 | Every running row fails, keeping its result columns; the IDs come sorted |
| `PostgresStore.Store.Create` | backend/internal/pgstore/store.go:84-122 | An existing ID is refused and nothing changes |
| `PostgresStore.CleanRecordIsUnchanged` | backend/internal/pgstore/store.go:346-348 | A record of valid text reads back as it was written |
| `StorableText.StorableIsClean` | backend/internal/pgstore/store.go:346-348 | Whatever the bytes, the result is valid UTF-8 without NUL |
| `StorableText.StorableIsIdempotent` | backend/internal/pgstore/store.go:346-348 | Repairing twice changes nothing more, and exactly the clean texts are left alone |
| `StorableText.RepairOfPieces` | backend/internal/pgstore/store.go:346-348 | Whole characters are copied in order and each maximal run of other bytes becomes one U+FFFD |
| `StorableText.EveryTextDivides` | backend/internal/pgstore/store.go:346-348 | Every byte string is made of whole characters and such runs |
| `StorableText.StoredLog` | backend/internal/coordinator/jobs.go:235-251 | A clean log of any length, cut at 1 MiB and stored, is its whole characters within the cut and one U+FFFD exactly when the cut split one |
| `StorableText.WholeCharactersIsLongest` | backend/internal/coordinator/jobs.go:246-251 | Those whole characters are the longest valid prefix within the cut, at most three bytes shorter than it |
| `Environment.ExpandUndoesEscape` | backend/internal/coordinator/jobs.go:526-528 | Doubling dollar signs makes every value literal under Kubernetes expansion, in every environment |
| `Environment.BenchmarkEnvironment` | backend/internal/coordinator/jobs.go:515-537 | Exactly one variable for each setting and each secret when their names differ, in the order of the names |
| `Environment.EnvironmentArrives` | backend/internal/coordinator/jobs.go:515-537 | The runner sees every setting as the driver gave it and every secret as the Secret holds it |
| `Environment.NumberRoundTrip` | runners/pgbench/main.go:60-69 | A number from 1 up to its maximum is read back from its decimal form |
| `Environment.ReadNumbers` | runners/pgbench/main.go:47-70 | All numbers are acceptable and read in order, or the configuration is refused |
| `PgbenchConfig.SettingsSurvive` | backend/internal/driver/pgbench/driver.go:40-69 | Every accepted connection and option set reaches an accepting runner unchanged |
| `PgbenchConfig.ResolvedIsUsable` | backend/internal/driver/pgbench/connection.go:18-60 | A resolved connection has no blank part, no NUL and a port from 1 to 65535 |
| `PgbenchConfig.LoadConfig` | runners/pgbench/main.go:22-82 | The runner accepts exactly the environments with the required settings and returns their values |
| `SysbenchConfig.UsableSurvives` | runners/sysbench/main.go:25-80 | A usable connection and accepted options reach an accepting runner unchanged, whatever the image sets |
| `SysbenchConfig.SettingsSurvive` | backend/internal/driver/sysbench/driver.go:40-68 | Every accepted connection and option set reaches an accepting runner unchanged, and that runner can write its configuration file |
| `SysbenchConfig.LoadConfig` | runners/sysbench/main.go:25-80 | The runner accepts exactly the environments with the required settings and returns their values |
| `SysbenchConfig.UsableIsWritable` | backend/internal/driver/sysbench/connection.go:20-75 | Every resolved connection can be written |
| `SysbenchConfig.ConnectionReadsBack` | runners/sysbench/credentials.go:15-47 | The file has five lines, and reading them gives the five values unchanged |
| `SysbenchConnection.CheckMatchesWriter` | backend/internal/driver/sysbench/connection.go:98-117 | The backend accepts a value for an option if and only if the runner can write that line |
| `SysbenchConnection.ConnectionConfig` | runners/sysbench/credentials.go:15-47 | A file is written if and only if every line can be, and it consists of those lines |
| `SysbenchConnection.FileReadsBack` | runners/sysbench/credentials.go:13-47 | The file splits into one line for each setting, and a reader without escapes recovers each setting |
| `DatabaseForm.FormIsSafeAndTight` | src/drivers/sysbench.ts:30-50 | The form accepts only names that the backend does not reject, and of names without line breaks it rejects none that the backend would accept |
| `DatabaseForm.FormMatchesBackend` | src/drivers/sysbench.ts:30-50 | On a name without line breaks the form decides as the backend does on the trimmed UTF-8 bytes |
| `DatabaseForm.TrimOfEncoded` | src/drivers/sysbench.ts:34-35 | Trimming code points and trimming their UTF-8 bytes is the same |
| `GoYcsbConfig.SettingsSurvive` | backend/internal/driver/goycsb/driver.go:44-60 | Accepted workload options reach the runner unchanged |
| `GoYcsbConfig.LoadConfig` | runners/go-ycsb/main.go:61-105 | The runner accepts exactly the environments that meet the collection and number rules and returns their values |
| `Discovery.OutcomeIsRight` | backend/internal/everest/instances.go:122-174 | In every interleaving, success means that every namespace was fetched and result i is that of namespace i; a reported failure is the first one recorded; a context error means that the caller cancelled |
| `Discovery.FourInFlight` | backend/internal/everest/instances.go:126-149 | At most four requests are in flight |
| `Discovery.EveryStateIsGood` | backend/internal/everest/instances.go:122-174 | Slots are taken exactly by unfinished tasks and the loop, and each finished task has stored its own answer |
| `Discovery.UniqueNamespaces` | backend/internal/everest/instances.go:103-117 | The first occurrences of the non-blank names, in order |
| `Discovery.MergeInstances` | backend/internal/everest/instances.go:64-100 | Exactly one entry for each usable instance name of each namespace, with the provider of the first, sorted |
| `Polling.EverySessionIsGood` | src/benchmarkRunPolling.ts:26-78 | While active, a session waits for exactly one request or timer; a terminal snapshot and a pause come last; retries come after 2, 4 and 8 seconds, at most three in a row |
| `Polling.NothingAfterStop` | src/benchmarkRunPolling.ts:33-39 | After a stop, from outside or from a callback, nothing is requested or reported |
| `Polling.FourthFailurePauses` | src/benchmarkRunPolling.ts:59-66 | A fourth retryable failure in a row ends the session |
| `Polling.PollingSession.OnFailure` | src/benchmarkRunPolling.ts:49-69 | An aborted request ends the session silently; a failure is reported with its retry or as the pause, and a callback may stop the retry |
| `Polling.PollingSession.OnSuccess` | src/benchmarkRunPolling.ts:70-75 | A snapshot resets the failures; a terminal one stops the session before it is delivered |
| `Polling.PollingSession.OnTimer` | src/benchmarkRunPolling.ts:41-47 | A timer that fires is used up and sends one request if the session is active |

## Left out

- HTTP handlers, headers, tokens, status codes and JSON: plumbing around libraries. The lifecycle starts at admission.
- Processes, signals, files and the tools themselves: a phase writes arbitrary fragments and may fail.
- Regular expressions and the number parser of the runners: the patterns are hand-written recognizers, and
  converting a decimal text to a floating-point number is an abstract partial function.
- Secrets and the URI pattern of the go-ycsb output filter: the URI is masked as its pattern says, in that order.
- Parsing of database URIs and of MongoDB connection strings, x509: parameters of the statements.
- Contents of the Job and Secret manifests, labels, quantities, tolerations, node affinity: flat checks.
- Decoding of the metrics record in a termination message: a container carries what its message decodes to.
- Objects of a create that failed after it took effect: they are outside what a run promises to remove, and are
  left to the cleanup of the next process.
- Garbage collection of Pods after their Job, and finalizers left on a Job by an interrupted foreground deletion.
- Coordinator.Run: the error is a list of kinds, each with whether it wraps an exceeded deadline; messages are not
  modelled. Whether the error of a failed request does is arbitrary.
- The lifecycle model keeps records over a crash, as PostgreSQL does; with the store in memory a crash loses them.
- PostgresStore.Store.Complete: the update and the look at what it found are one step.
- PostgresStore.Store: Get and ListByTarget are described by the same relation as in memory and have no method.
- Discovery.OutcomeIsRight: recording the first failure and cancelling is one step, and so are the loop's check and
  the start of its task.
- Polling.PollingSession: a callback that throws is not modelled.
- DatabaseForm.FormIsSafeAndTight: texts with lone surrogates are not modelled, as they are not code points.
- Environment.Expand: what Kubernetes does with a lone dollar sign before a byte beyond ASCII is a parameter.
- The reader that sysbench itself uses is not part of this model; files are read back by the quoting rules that the
  writer relies on.
- Interfaces, other form checks, charts, migrations, image builds: they would only add easy members.
