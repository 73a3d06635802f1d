# A verified model of gotst

gotst runs the tests of Go packages: it links each package's test binary once, runs every test as a
task of its own, retries failures, replays cached passes, and spreads the tasks over helpers that
join a leader. This project models the parts of it where many things happen at once or where a
result is taken on trust, and proves what they promise.

| module | models |
|---|---|
| `Fleet`, `FleetSafety`, `FleetEffects` | the leader of a distributed run as a transition system (one transition per critical section of its lock), what every run of it keeps, and what each section does |
| `SlowestFirstQueue`, `Leaders` | the same leader as the program keeps it: a class whose fields are updated in place, with the status fields the web page reads |
| `Helpers`, `HelperSafety`, `HelperEffects`, `WorkerLoops` | the helper's event loop and its jobs: as functions, their invariants, their effects, and as a class |
| `Systems`, `SystemSafety`, `Provenance`, `Progress`, `StatusSafety` | leader and helpers together: every interleaving of exchanges, completions, cancellations and disconnections |
| `Texts`, `ResultCache`, `Replay`, `Watching` | the log a test leaves, the dependencies parsed from it, the replay theorem, and exactly which reads an entry watches |
| `Eta` | the estimated time to completion, and Graham's bound for it |
| `History`, `HistoryStore` | the bounded history directory with concurrent, unlocked writers and pruners |
| `Profiles`, `Resolvers` | profile includes: their meaning, and the memoised search |
| `Retry` | repetitions, retries and what is reported, cached and recorded |
| `CacheProg`, `Quoting` | GOCACHEPROG: request multiplexing, and the quoting of its command line |
| `LivePage` | the stream of page patches between server and browser |

`dafny verify dfyconfig.toml` verifies everything.

Where the source changes fields step by step, a class or a loop does so here and is proved equal to
a function on values; the laws are proved of that function. A run is a sequence of steps, each legal
where it is taken, so a lemma about all runs is about all interleavings.

Assumptions. Durations are natural numbers of nanoseconds and instants are integers. Lease numbers
and sequence numbers do not wrap around. Hashes are injective: a digest is kept as what it digests,
and a binary's hash is a string that belongs to its package for the whole run. Workers, tasks and
packages are identified by position, leases by number, and the helper's execution objects by handle,
so that comparing handles is comparing identities. A connection delivers in order or breaks. A
local slot runs the very task it leased; a helper's jobs are modelled step by step. A test
process reads a world that does not change while it runs, file names are resolved lexically, and
whether a directory can be entered depends on its metadata. Equal observation IDs name equal
observations.

Three things the code does that its users might not expect are stated exactly. A log line is read
with a scanner that drops a trailing carriage return, so what a test asks of any variable, file or
directory whose name ends in one is not watched by its cache entry (`Watching.CarriageReturnIsLost`).
An open, a stat or a failed chdir outside the package's root is not rechecked, as the source intends
(`Watching.OutsideIsNotRechecked`). Among names without line breaks and NUL
characters, these are the only reads an entry misses:
`Watching.WatchedIffTracked` says that the entry of a single query watches it if and only if the
query is in neither family, and `Replay.ReplayTheorem` that a whole run of such queries is replayed.
The third is the other way round: quoting is documented as unable to express a word with both kinds
of quote, but such a word survives if it has no white space and does not begin with a quote;
`Quoting.RoundTripIff` gives the exact condition.

## Model

| member | source | states |
|---|---|---|
| FleetSafety.EveryRunIsSound | distributed.go:152-393 | in every state of every run: fleet, worker and task lease maps describe one set; a task has at most two leases, on different workers, issued more than max(10s, 3·estimate) apart; done tasks and failed workers hold none; done count = commits = workers' completed, failures, cache hits and durations agree between workers, packages and commits; no task commits twice |
| FleetSafety.RunKeepsInv | distributed.go:286-459 | the invariant behind it is kept by every legal sequence of events from any state that has it |
| FleetSafety.StepKeepsLeases | distributed.go:168-213 | every event keeps the lease structure |
| FleetSafety.AddKeepsPaired | distributed.go:239-273 | leasing an unleased task or a second copy of an overdue one leaves at most two leases, far apart, on distinct workers |
| FleetSafety.EditThenRemove | distributed.go:298-342 | a bookkeeping edit followed by revoking the leases of what became done or failed keeps the structure |
| FleetSafety.HeartbeatReports | distributed.go:364-384 | a heartbeat sets the state of exactly the reported live leases and dates only the first running report |
| FleetSafety.BookConserves | distributed.go:305-339 | booking a result keeps every conservation law between workers, packages and commits |
| FleetSafety.BookOnce | distributed.go:305-339 | a task is done exactly when one commit names it, and no other does |
| FleetSafety.AcceptKeepsBooks | distributed.go:286-354 | accepting any result, late, failed or infrastructure, keeps the books |
| FleetSafety.LoadIsBounded | distributed.go:254-281 | in every run a helper holds at most slots+10 leases, and at most slots leases or less than 3s·slots plus the largest estimate of work |
| FleetSafety.LighterKeepsLoad | distributed.go:168-176 | the load bound survives arbitrary removals |
| FleetSafety.BatchKeepsLoad | distributed.go:263-280 | a whole batch keeps the load bound |
| FleetSafety.RevokedForever | distributed.go:271-273 | a lease number that was revoked never becomes live again in the rest of the run |
| FleetSafety.LateResultChangesNothing | distributed.go:286-292 | a result for a revoked lease changes nothing, whichever worker sends it and however much later |
| FleetSafety.AcceptEndsLease | distributed.go:288-342 | accepting a result ends its lease, so a duplicate of it is late |
| FleetSafety.CommitsAreFinal | distributed.go:305-339 | later events only append commits |
| FleetSafety.VerdictIsSound | distributed.go:427-458 | the run returns nil if and only if every task was committed once, passed and without infrastructure error, and the run was not interrupted |
| FleetSafety.FailFastRecordsOneFailure | distributed.go:343-346 | with fail-fast the packages' failures sum to at most one in every run |
| FleetSafety.NoLostWakeup | distributed.go:145-150 | when the loop sleeps after the last commit or a cancellation, a token is there, the context wakes it, or a pending notify brings the token |
| FleetSafety.ChoiceIsNearGreedy | distributed.go:218-238 | while any task is unleased the choice is unleased, among the first five, and within a fifth of the largest unleased estimate |
| FleetSafety.NextIsEligible | distributed.go:239-252 | a copy is chosen only of an overdue task leased once by another worker, and only when nothing is unleased |
| FleetSafety.AllDone | distributed.go:429-431 | the done count reaches the number of tasks exactly when every task is done |
| FleetEffects.AcceptCommits | distributed.go:305-346 | a real result of a live lease in a run that goes on is committed at once, as it is, for the leased task and by that worker: that worker, that package and no other are credited, exactly that task's leases go, no worker's standing changes, and the run is cancelled exactly on a failure under fail-fast |
| FleetEffects.AcceptGivesUp | distributed.go:293-304 | a helper's infrastructure error commits nothing, records the error (or its default text) with that helper alone, and revokes exactly its leases |
| FleetEffects.AcceptIgnores | distributed.go:288-292 | a result without a live lease, or after stop or cancellation, changes nothing |
| FleetEffects.DisconnectReleases | distributed.go:201-213 | exactly the helper's leases go, it is no longer connected, and an earlier error stays unless there is a new one |
| FleetEffects.StopRevokesAll | distributed.go:439-444 | no worker has a lease left, and nothing is committed |
| FleetEffects.LocalStarts | distributed.go:480-483 | a local lease runs from the moment it begins, and no other lease changes |
| FleetEffects.HeartbeatLearns | distributed.go:364-366 | the leader learns exactly the reported binaries of that helper |
| FleetEffects.TailAnswers | distributed.go:368-386 | the response cancels exactly the reported leases that are not live, and says done and error exactly when the run is over or the helper failed |
| FleetEffects.ExchangeRefills | distributed.go:387-391 | while the run goes on, an exchange gives a sound helper ten leases, or leaves it with at least as many leases as slots, or leaves no task unleased |
| FleetEffects.ExchangeHoldsBack | distributed.go:255-257 | before the queue is open, after the end of the run, or for a failed helper nothing is handed out |
| FleetEffects.AffinityIsHonoured | distributed.go:221-235 | if one of the first five unleased tasks is within a fifth of every unleased estimate and the worker has its binary, the choice is a task whose binary it has, no further down |
| FleetEffects.OverdueIsCopied | distributed.go:239-251 | when nothing is unleased, a task leased once to another worker for more than ten seconds and three estimates makes the choice succeed, no further down |
| FleetEffects.CopiesAreFarApart | distributed.go:243-248 | in every run two live leases of a task are of different workers and were issued more than ten seconds and three estimates apart |
| FleetEffects.NewWorkerIsFresh | distributed.go:152-166 | a new worker comes last, connected, with its slots and nothing else |
| FleetEffects.LeaderHasEveryBinary | distributed.go:399-405 | once the queue is open the leader's worker is known to have every task's binary |
| FleetEffects.VerdictSays | distributed.go:448-458 | the verdict of every run: an infrastructure error if a commit is one, else the number of failed commits, else the interruption |
| FleetEffects.OwesNotify | distributed.go:302-353 | a commit, a give-up and a disconnection each owe one notify; an ignored result owes none |
| FleetEffects.NotifyPays | distributed.go:145-150 | a notify pays what is owed once and leaves the token |
| FleetEffects.WakingTakes | distributed.go:434-437 | waking by the token takes it, waking by the context leaves it |
| FleetEffects.LoopEnds | distributed.go:428-433 | the loop ends exactly when every task is done or the context is |
| FleetEffects.BeginsEmpty | distributed.go:141-143 | a run begins with nothing open, leased, committed or signalled |
| SlowestFirstQueue.SlowestFirst | distributed.go:406-416 | the queue is sorted by descending estimate and, for each estimate, the subsequence of tasks is unchanged: a stable permutation |
| SlowestFirstQueue.InsertIsStable | distributed.go:406-416 | inserting a task behind its equals appends it to them for every estimate |
| Leaders.Leader.EarliestRunning | distributed.go:184-193 | finds whether a lease runs and the least start among the running ones |
| Leaders.Leader.UpdateRunning | distributed.go:178-199 | makes the status of a test agree with its leases again |
| Leaders.Leader.RevokeAll | distributed.go:168-176 | revoking leases one by one revokes the set in all three maps and keeps every derived status right |
| Leaders.Leader.Disconnect | distributed.go:201-213 | is the model's disconnect, and derived status agrees afterwards |
| Leaders.Leader.CommitResult | distributed.go:305-342 | books a result, finishes its package exactly when it was the last test, revokes all copies |
| Leaders.Leader.FinishPackage | gotst.go:1676-1687 | the package becomes done if and only if all its runnable tests are |
| Leaders.Leader.GiveUp | distributed.go:293-304 | is the model's give-up: error recorded, every lease of the helper released |
| Leaders.Leader.Accept | distributed.go:286-354 | is the model's accept in all four branches, with derived status in agreement |
| Leaders.Leader.NextFresh | distributed.go:219-238 | returns the first warm task of the window, else the head, and none only if nothing is unleased |
| Leaders.Leader.NextSpeculative | distributed.go:239-251 | returns the first overdue task leased once by another worker, or none exists |
| Leaders.Leader.Next | distributed.go:218-252 | meets the declarative choice: fresh work first, then the first overdue copy |
| Leaders.Leader.HeldEstimates | distributed.go:259-262 | the loop's sum is the held work of the worker |
| Leaders.Leader.Assign | distributed.go:254-281 | the leases and work items are a maximal legal batch: each pick was the choice when made, and it stopped for one of the three reasons |
| Leaders.Leader.TakeReports | distributed.go:364-384 | is the model's heartbeat, cancels exactly the reported leases that are not live, and never takes a finished package back |
| Leaders.Leader.FinishExchange | distributed.go:360-392 | is the model's exchange tail, state and response |
| Leaders.Leader.Exchange | distributed.go:356-393 | uninterrupted, an exchange is the run of its accept events in order followed by its exchange event |
| Leaders.Leader.Outcome | distributed.go:448-458 | the verdict that `FleetSafety.VerdictIsSound` is about |
| Leaders.Leader.LocalAssign | distributed.go:465-485 | leases one task to the local worker and starts it at once, which is the local-assign event; it changes nothing only if the run is over, assigning is not allowed, or no task is left for the worker |
| Leaders.Leader.Stop | distributed.go:439-444 | revokes every lease and keeps derived status in agreement |
| Leaders.Leader.Notify | distributed.go:145-150 | is the notify event: one token, however many were pending |
| Leaders.Leader.CheckLoop | distributed.go:427-433 | is the loop-check event, and the loop is over exactly if all tasks are done or the context is |
| Leaders.Leader.WakeLoop | distributed.go:434-437 | is the wake event, by token or by the context |
| Leaders.Leader.Start | distributed.go:395-422 | opens a sorted, stable queue with the leader knowing every binary |
| Leaders.Leader.AddWorker | distributed.go:152-166 | adds a worker without leases at the next position |
| HelperSafety.StartKeeps | worker.go:281-314 | after filling slots all are busy or the queue is empty, running counts the unreaped jobs, every active lease is queued or has a job, and nothing else changed |
| HelperSafety.ReceiveKeeps | worker.go:362-387 | a response keeps the slot discipline and the faithfulness of binaries |
| HelperSafety.PrepareKeepsFaithful | worker.go:222-258 | although a package's binary is reused without comparing hashes, every binary used has the leader's hash |
| HelperSafety.ExecuteKeeps | worker.go:304-306 | running a test keeps the discipline; the result names the lease's own test (what it says of the test is `Provenance.CommitIsWhatRan`) |
| HelperSafety.OnReadyKeeps | worker.go:388-393 | a ready message keeps the discipline |
| HelperSafety.ReapPlaces | worker.go:394-401 | only the active execution of a lease ends it; every other active lease stays queued or running |
| HelperSafety.ReapKeeps | worker.go:394-401 | reaping frees one slot, refills, and keeps the discipline |
| HelperSafety.ReapReports | worker.go:394-401 | a cancelled job's result is never reported; a reported one ran its lease's own test on the leader's binary or is an infrastructure error |
| HelperEffects.StartIsFifo | worker.go:281-314 | jobs start in the order their leases came, exactly those not cancelled while queued, until slots or queue run out |
| HelperEffects.BeginsByAsking | worker.go:348-350 | a helper begins idle, with a request due and none in flight |
| HelperEffects.SendSays | worker.go:351-360 | a request reports the state of every active lease and hands over every result and binary |
| HelperEffects.CancelIsExact | worker.go:374-381 | exactly the named leases cease to be active, and exactly their executions are cancelled |
| HelperEffects.EnqueueIsLast | worker.go:382-386 | a new work item is queued behind all others as the execution of its lease |
| HelperEffects.ReceiveEnds | worker.go:362-373 | the loop ends on an error or the end of the run and on no other response |
| HelperEffects.ReadyMeans | worker.go:388-393 | the execution the lease stands for, and no other, is running; its binary is announced |
| HelperEffects.PrepareOutcome | worker.go:292-311 | a job goes on to its test exactly if it has a binary and was not cancelled; without a binary it ends in an infrastructure error; cancelled, with nothing to report; binaries are kept |
| HelperEffects.ReapHandsOver | worker.go:394-401 | a result waits to be reported exactly if its lease is still active, which it then is no more |
| WorkerLoops.WorkerLoop.StartJobs | worker.go:281-314 | the loop is the model's start |
| WorkerLoops.WorkerLoop.Send | worker.go:351-360 | hands over every pending result and binary once and reports each active lease's state |
| WorkerLoops.WorkerLoop.CancelLeases | worker.go:374-381 | cancelling one by one cancels exactly the listed active leases |
| WorkerLoops.WorkerLoop.OnResponse | worker.go:362-387 | is the model's receive, including the responses that end the loop |
| WorkerLoops.WorkerLoop.OnReadyMessage | worker.go:388-393 | is the model's ready turn |
| WorkerLoops.WorkerLoop.OnResult | worker.go:394-401 | is the model's reap, with slots refilled |
| WorkerLoops.WorkerLoop.BinaryFor | worker.go:222-258 | returns the kept binary or a build with the leader's hash, and keeps only those |
| WorkerLoops.WorkerLoop.PrepareJob | worker.go:292-306 | ends a job on mismatch or cancellation, else announces its binary |
| WorkerLoops.CancelNext | worker.go:374-381 | cancelling a set and then one more lease is cancelling both |
| SystemSafety.NoLeaseLeaks | distributed.go:356-393 | in every interleaving, until the run stops or is cancelled, a lease the leader holds for a connected helper is active there, pending there, in the unaccepted results of its request, or in the response |
| SystemSafety.EveryCommitIsGenuine | distributed.go:305-339 | every commit of every run is an infrastructure error or an execution of that task's own package and test on the binary with the leader's hash |
| Provenance.CommitIsWhatRan | worker.go:305-311 | in every run, a helper's committed result that is no infrastructure error has an execution step of that very lease in the run, and its verdict, cached flag, duration, cache checks and error are those of that execution |
| Provenance.RunTraces | worker.go:394-400 | every result in a job, waiting, in a request or committed by a helper is backed by an execution, in every run |
| SystemSafety.HelperDiscipline | worker.go:351-407 | in every run each helper's running jobs never exceed its slots, slots are busy or the queue empty, each active lease is queued or has one job but not both, and every kept binary has the leader's hash |
| SystemSafety.CancelledIsNeverReported | worker.go:374-401 | at every point of every run, reaping a job whose lease was cancelled reports nothing, and what waits to be reported is genuine |
| Progress.NextExchangeIsPossible | worker.go:351-360 | in every run a connected helper has exactly one exchange on its way while it believes so, and otherwise can start the next one after a tick |
| Progress.QuitIsForGood | worker.go:404-405 | a helper that has left takes no further part |
| SystemSafety.RunKeepsSystem | worker.go:351-407 | the invariant of the composed system is kept by every run |
| SystemSafety.AcceptTurn | distributed.go:357-359 | accepting the next result of a request leaves every other lease accounted for |
| SystemSafety.TailTurn | distributed.go:360-392 | the response carries every lease it created and cancels none that is live |
| SystemSafety.DeliverTurn | worker.go:362-387 | taking a response moves its leases into the helper without losing one |
| SystemSafety.SendTurn | worker.go:352-360 | results move from the helper to the request without losing one |
| SystemSafety.HangupTurn | distributed.go:201-213 | a broken connection leaves no lease behind |
| SystemSafety.ReportedIsGenuine | worker.go:292-311 | a result a helper reports for a live lease ran the leased task on the leader's binary |
| SystemSafety.ConnFrame | distributed.go:356-393 | what the leader does for one helper leaves every other connection sound |
| SystemSafety.DoneIsForever | gotst.go:1676-1687 | a finished test stays finished in its package for the rest of the run |
| StatusSafety.FinishedForGood | gotst.go:1676-1687 | a package that is shown done, where shown states agree with the leases, is shown done for the rest of every run |
| Replay.ReplayTheorem | testcache.go:182-236 | for every deterministic test, run and later world: if the entry parsed and deduplicated from the run's log validates there, the test makes the same queries and reaches the same verdict, and has no other run |
| Replay.EntryValidIff | testcache.go:330-362 | an entry validates in a world if and only if every input of the recorded run, GODEBUG included, is unchanged there |
| Replay.CacheIsTransparent | gotst.go:1405-1419 | over any sequence of tests and worlds, what is reported with the cache is the verdict the test itself reaches at that moment |
| Replay.StoredIsServed | gotst.go:1481-1486 | a passing run that may be stored is served from then on wherever its inputs are unchanged, and no other key is touched |
| Replay.OnlyPassesAreStored | gotst.go:1481-1486 | what failed, or may not be stored, is not stored |
| Replay.UnchangedWorldHits | testcache.go:330-346 | the world that recorded an entry validates it |
| Replay.LinesParse | testcache.go:193-229 | after the lines of any run the parser's working directory is the process's, and its dependencies are the run's inputs in order |
| Replay.DedupHolds | testcache.go:424-436 | keep-last deduplication changes no validation, in any world |
| Replay.HoldingAnswers | testcache.go:348-362 | an unchanged dependency answers its query as before and leads to the same directory |
| Watching.CarriageReturnIsLost | testcache.go:189-203 | for every world, setup and query whose logged name ends in a carriage return and can be recorded: its entry still validates in a world where the test reaches another verdict (a chdir that can only end one way excepted) |
| Watching.WatchedIffTracked | testcache.go:182-236 | for every world, setup and single query with an entry: for all tests and all later worlds a validating entry implies the same verdict, if and only if the query is tracked (logged name without trailing carriage return, and inside the root unless getenv or a chdir that succeeded) or a chdir that no metadata could make end otherwise |
| Watching.SingleEntry | testcache.go:189-236 | the entry of a single query exists exactly if a name is left and what was opened can be read, and holds GODEBUG and what was recorded |
| Watching.OutsideIsNotRechecked | testcache.go:212-218 | for every world and every open, stat or failed chdir that resolves outside the root: its entry still validates in a world where the test reaches another verdict (a chdir that can only end one way excepted) |
| ResultCache.ChangedDependencies | testcache.go:330-346 | lists the changed dependencies, or the first read error; empty without error if and only if all still hold |
| ResultCache.ValidIff | testcache.go:330-346 | validation succeeds exactly when every dependency can be read and equals its record |
| ResultCache.ChangedLists | testcache.go:335-346 | what is listed as changed is exactly what no longer holds |
| ResultCache.EqualIffSame | testcache.go:411-422 | the field-by-field comparison is equality |
| ResultCache.DeduplicateDependencies | testcache.go:424-436 | the backward loop keeps the last dependency of each key, in order |
| ResultCache.KeepLastCovers | testcache.go:424-436 | every key is kept and nothing is invented |
| ResultCache.KeepLastIsDistinct | testcache.go:424-436 | no key is kept twice |
| ResultCache.KeepsTheLast | testcache.go:424-436 | what is kept for a key is its last occurrence |
| ResultCache.KeyDetermines | testcache.go:428-428 | equal keys mean equal operation, name and path |
| ResultCache.ParseTestLog | testcache.go:182-236 | the loop is the recursive parser, with all its errors |
| ResultCache.RefusedIffMalformed | testcache.go:189-227 | a log is accepted only with its header and one of the four operations, a blank and a name on every line; if every file can be read, exactly then |
| Texts.ScanUnlines | testcache.go:189-203 | a scanned log gives back its lines if and only if none holds a line break or ends in a carriage return |
| Texts.WithinIffPrefix | testcache.go:238-244 | a path is within the root if and only if the root's components are a prefix of its own |
| Texts.ResolveIsAbsolute | testcache.go:206-211 | a resolved path means the same in every working directory |
| Texts.ResolveStep | testcache.go:206-211 | in a clean directory a plain name is its entry, "." itself and ".." its parent |
| Texts.ResolveSteps | testcache.go:206-211 | a longer relative name is followed step by step, an absolute one starts anew |
| Eta.EtaBounds | progress.go:126-183 | m·ETA ≤ total + (m-1)·longest, total ≤ m·ETA, and every remaining time ≤ ETA |
| Eta.EtaIsNearOptimal | progress.go:126-183 | m·ETA ≤ (2m-1)·makespan of every assignment of the same remaining times to m slots |
| Eta.LoadsBounds | progress.go:173-182 | slot loads sum exactly to the remaining work and meet Graham's bound slot by slot |
| Eta.GrahamStep | progress.go:173-181 | giving a test to the least loaded slot keeps the bound and adds exactly its time |
| Eta.PlaceAllGains | progress.go:143-172 | placing running tests and queueing the rest loses and invents no time |
| Eta.Capacity | progress.go:130-137 | the number of slots is max(1, -j) and those of every connected, error-free helper |
| Eta.PlaceTests | progress.go:138-172 | the loop places running tests first and counts the unknown estimates |
| Eta.FillSlots | progress.go:173-181 | the loop is list scheduling in queue order |
| Eta.TestEta | progress.go:126-183 | the program's answer is the ETA the bounds are about; for one test on time it is the estimate less the time run |
| Eta.RunningNeedsLess | progress.go:155-157 | a running test needs its estimate when it starts, and exactly the time that passes less while it is within it |
| Eta.OverdueKeepsTail | progress.go:158-162 | past its estimate a test keeps the same tail, a second or half its estimate, whichever is more |
| Eta.WaitingNeedsAll | progress.go:155-171 | a waiting test needs its whole estimate |
| Eta.EtaOfOne | progress.go:126-183 | for one unfinished test the ETA is its remaining time: with the time it has run it makes the estimate |
| Eta.UnfinishedCount | progress.go:142-154 | done and unknown tests do not count, every other counts once in its place, and unknown estimates are counted |
| Eta.RunningComeFirst | progress.go:156-171 | while there are slots every running test has one of its own and exactly the waiting tests are queued, in order |
| Eta.WorkerAddsSlots | progress.go:130-137 | a connected helper without error adds its slots, nobody else any |
| HistoryStore.RecentIsNeverLost | history.go:167-193 | however writers and pruners with stale listings interleave, the store contains the newest 32 observations ever written |
| HistoryStore.PrunesOnlyOld | history.go:280-321 | in any run a pruner removes an observation only while at least 32 others in the log are as late or later |
| HistoryStore.LookupIsUnbounded | history.go:142-165 | a lookup of k ≤ 32 answers as the unbounded log would |
| HistoryStore.RacingReaderFindsRecent | history.go:195-235 | a reader whose files vanish under it finds all it listed that is still recent; if nothing was written meanwhile its answer is the unbounded log's |
| HistoryStore.RerecordIsIdempotent | history.go:237-278 | recording an observation again, pruned or not, changes no answer |
| HistoryStore.SurplusIsOld | history.go:280-321 | whatever part of the directory a pruner saw, what it removes is not among the newest 32 |
| History.CoverAgrees | history.go:323-328 | a log and any subset that has its newest k give the same first k |
| History.RankIsPosition | history.go:323-328 | in a sorted history the position of an observation is the number of newer ones |
| History.StrLessIff | history.go:323-328 | IDs are ordered as in a dictionary |
| History.CutIsOldest | history.go:316-320 | cutting by rank cuts nothing later than what is kept |
| HistoryStore.HistoryDir.Read | history.go:195-235 | all observations, by descending time and ascending ID among equals, or none if there are none |
| HistoryStore.HistoryDir.Lookup | history.go:142-165 | as many as asked for, 32 by default, by descending time and ascending ID; nothing left out is later than anything returned |
| HistoryStore.HistoryDir.Prune | history.go:280-321 | exactly the limit remains if there were as many, and nothing removed is later than anything kept |
| HistoryStore.HistoryDir.Record | history.go:167-193 | left alone, the directory holds the newest 32 of what it had and what was recorded; nothing removed is later than anything kept |
| Profiles.ResolvesIff | profile.go:157-202 | resolution succeeds if and only if every reachable name is defined with a valid timeout and no chain of includes returns to itself |
| Profiles.CycleIsGenuine | profile.go:176-180 | a reported cycle is a path of include edges back to its start |
| Profiles.ErrIsExplained | profile.go:167-194 | every error names a fault at the end of a real chain of includes |
| Profiles.OkElsewhere | profile.go:164-166 | a resolved profile means the same from every path that meets none of its includes, which is why the memo is right |
| Profiles.ResolvedIs | profile.go:184-194 | each list is the deduplication of the whole depth-first concatenation of the definitions' own lists, repeats included, and each other setting the last one made in it |
| Profiles.OwnComesLast | profile.go:185-194 | a profile's own settings win over its includes', and its own values come behind theirs, list by list |
| Profiles.PlainProfile | profile.go:222-246 | a profile without includes resolves to the first occurrences of its own lists and to its own settings |
| Profiles.IncludesInOrder | profile.go:185-191 | includes are visited in order, each after its own includes |
| Profiles.UniqueIsFirst | profile.go:248-255 | the deduplication keeps exactly the first occurrences of the nonempty values, in order |
| Profiles.MergeAssociates | profile.go:204-220 | merging is associative |
| Resolvers.Resolver.Visit | profile.go:162-200 | the memoised visit equals the unmemoised meaning, errors included, and terminates on every include graph |
| Resolvers.ResolveProfile | profile.go:157-202 | the program's answer is the profile's meaning, an error exactly on ill-formed definitions, and field by field its own values for a profile without includes |
| Resolvers.AppendValues | profile.go:248-255 | the loop is the recursive append |
| Resolvers.MergeRunProfile | profile.go:204-220 | the field by field update is the merge |
| Retry.RunAccounts | gotst.go:1440-1511 | for every oracle: success exactly if the last attempt passed, and then attempts = count + failures; flaky exactly when a success had a failure; failed exactly if the last attempt failed, and then the last maxRetries+1 did |
| Retry.RunRecords | gotst.go:1481-1518 | inputs are stored exactly for the one passing attempt of a single repetition that captured them; the record has the reported verdict, total and attempts, and all captured inputs, or none exactly if a capture failed |
| Retry.TriesAreTheOracles | gotst.go:1447-1448 | the attempts of a repetition are those numbered 0, 1, 2 and so on |
| Retry.TotalNext | gotst.go:1449-1449 | each attempt adds its duration |
| Retry.DepsNext | gotst.go:1451-1455 | each capture adds its inputs behind the others |
| Retry.EachPasses | gotst.go:1446-1479 | on success every repetition passes after at most maxRetries failures |
| Retry.FailureExhausts | gotst.go:1469-1474 | a failed run ends in exactly the exhausted retries of one repetition |
| Retry.SuccessCounts | gotst.go:1446-1479 | one pass per repetition |
| Retry.Repeat | gotst.go:1447-1478 | the inner loop sums up exactly the attempts of its repetition |
| Retry.RunTest | gotst.go:1405-1511 | the nested loops report the sums, failures, cache entry and history record of the attempts made; a hit reports the cached pass and makes none |
| CacheProg.NoCrossTalk | cacheprog.go:165-227 | a response that ended a request, replied to or not, carries the number that request, and no other, was sent under |
| CacheProg.ReaderNeverBlocks | cacheprog.go:141-163 | the reader can always hand over; no channel is sent to twice, closed twice, or both |
| CacheProg.NobodyWaitsForever | cacheprog.go:146-155 | after a read error nobody is registered and every waiter can return |
| CacheProg.OneReplyEach | cacheprog.go:446-456 | each request of cmd/go is answered at most once, under its own original ID |
| CacheProg.ReplyIsOwn | cacheprog.go:446-455 | what cmd/go receives is the result of its own request's send, under its original ID, and a response from the helper carries the number that request alone was sent under |
| CacheProg.ResultIsWhatWasRead | cacheprog.go:200-216 | a send whose channel was given a response returns that very response, which the helper sent in this run; one whose channel was closed returns an error |
| CacheProg.CloseComesLast | cacheprog.go:440-445 | the reply to close is last, after a reply to every request |
| CacheProg.RunKeeps | cacheprog.go:141-227 | the invariant of client and shim is kept by every run, whatever the helper answers |
| CacheProg.CacheProgClient.Enlist | cacheprog.go:169-179 | a fresh number and channel, or the read error and no registration |
| CacheProg.CacheProgClient.OnResponse | cacheprog.go:156-161 | the response goes to its waiter, an unknown or repeated number to nobody |
| CacheProg.CacheProgClient.OnReadError | cacheprog.go:147-155 | closes every registered channel once and no other |
| Quoting.RoundTripIff | cacheprog.go:865-908 | quoting, joining and splitting gives back a list of words if and only if each is nonempty and lacks one kind of quote, or has neither white space nor a quote in front |
| Quoting.WordsAreQuotable | cacheprog.go:865-891 | every word that splitting yields is empty or can be quoted |
| Quoting.SplitJoined | cacheprog.go:893-908 | with empty words in between, exactly they vanish |
| Quoting.SplitQuoted | cacheprog.go:865-891 | the loop is the recursive splitter and terminates on every input |
| Quoting.SpaceSeparates | cacheprog.go:868-886 | a blank, a tab, a return or a line break ends a word of ordinary characters, and leading ones are skipped |
| Quoting.OrdinaryIsOneWord | cacheprog.go:882-885 | ordinary characters make one word |
| Quoting.QuotesDelimit | cacheprog.go:872-881 | either quote keeps everything up to the next of its kind together, and unterminated is an error |
| LivePage.MakeHTMLPatch | web.go:307-323 | the patch turns the old document into the new one, and no non-overlapping patch that does so inserts less |
| LivePage.DocumentsAgree | web.go:220-263 | after any pushes, deliveries and reconnections, once nothing is on its way browser and server have the same document, and what is on its way can be applied |
| LivePage.FinalIsSeen | web.go:253-262 | a final push succeeds only when the browser shows exactly the final document |
| LivePage.FinalIsConfirmed | web.go:288-305 | the acknowledgement of a final push is never dropped |
| LivePage.AckIsKeptOnce | web.go:296-303 | one acknowledgement waits at a time; zero, or one that finds another, is dropped |
| LivePage.LiveClient.Push | web.go:220-263 | sends a shortest patch under the next number, or nothing if nothing changed and it is not final |
| LivePage.Page.ApplyPatch | live.js:58-72 | rebuilds the document and acknowledges the final patch by its number |
| LivePage.Page.Connect | live.js:126-132 | a new connection starts from the empty document |

## Left out

- The network: registration messages, JSON framing, deadlines and WebSockets. A connection carries one request or one response at a time and may break at any step.
- Package discovery, linking, `go test -exec` and tool execution: foreign commands. A test attempt is an arbitrary outcome.
- `executeIsolated`: an execution may return any result; the result names what was run.
- `fingerprintPath`: a fingerprint is the metadata and, for an open, the content of the path, or a read error.
- Symbolic links and `..` through them in file names: names are resolved lexically.
- Output, attributes, attempts and history payloads that a commit copies, last-seen times and change times.
- `shutdown`: only that it sets the stop flag, not its wait for helpers to leave.
- Several keys in one history call: keys are separate directories, so one is modelled.
- A line of the test log too long for the scanner: it is an error and nothing is cached.
- Pacing of page pushes and of heartbeats: a push or a tick may come at any time.
- Estimates and the order of tasks before the distributed queue sorts them: any input order and any estimates are allowed.
- The local file cache, the executable broker, the SQL history server, the summary, the status page's templates and its DOM update: plumbing or presentation.
- Truncation of failure output and of captured output: true but easy, or off by one in the source.
- Leaders.Leader.Assign: the order in which a batch's work items are listed is the order of the picks; the arguments sent with a work item are not modelled.
- HistoryStore.HistoryDir.Record: if one call holds different observations under one ID, the first is written; the contract then bounds the number of files only.
