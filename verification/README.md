# Sundial's dispatch protocol in Dafny

Sundial is a durable cron scheduler: N dispatchers, each a single-threaded loop, share one job table and a
leader lock. No single function enforces its guarantees. They follow from a strict `<` in the claim, a
pull-back in the retry, an attempt counter kept in memory, schedules derived again from the clock, and the
fact that ticks and leader renewals share one select loop. This project models those parts and proves the
guarantees over every run, or states exactly when they fail.

## Layers

* `Schedules`, `RowLedger`, `Jobs`: schedules as `Next` functions (a *grid* has fixed fire instants), the
  life of one row under claims and retries, the decision a tick takes and the judgement of one attempt.
* `Storage`, `MemoryStorage`, `Sorting`, `AdvisoryKey`, `PostgresClaim`: the job table as a value, the
  in-memory storage as a class that updates it, the insertion sort in place, the 64-bit FNV-1a key, and the
  Postgres claim as interleaved transaction steps.
* `Leaders`: the leader locks as classes. `Persistence`: schedules stored as text. `Backoff`: the delays.
* `Execution`, `Dispatcher`, `LoopRuns`, `Ignored`, `Effects`, `Overlap`, `StreakRuns`, `TickProgress`, `EmptyWindows`,
  `Starvation`, `TickCalls`, `Scheduler`: one node. The classes do what the Go methods do; their postconditions equate the new state
  with a function of the old one, and the lemmas are about that function and about traces of the loop, in which
  handlers begin and end in any order and overlap.
* `Cluster`, `AttemptBudget`, `RestingNode`, `ExecutionBound`, `Conservation`, `LeaderElection`, `Replays`,
  `ReplayBound`: N nodes around one row as a step machine. A run is any sequence of enabled steps; clock readings,
  handler results, retry instants, storage errors, lost answers, lost connections and crashes are labels chosen
  freely. A stopped node comes back only through a crash step, so C counts graceful restarts of a process too.
* `Scripts`, `Sharpness`, `ReplayWitnesses`, `OverlapWitness`, `Coverage`: runs that attain the bounds, runs that show
  each condition to be needed, and which missed fires a capped replay reaches.
* `Simulation`, `NodeRuns`, `FleetRuns`: any interleaving of the loops of N dispatchers over one table is, for each job,
  a run of the machine from a fresh state, so that the execution bound holds for the records the dispatchers leave.

## What the code does, where its text says otherwise

* The claim target is the next fire after the tick's own clock, not the value read by the fetch
  (dispatcher.go:166, against storage.go:184). Claims exclude each other per target: for a grid that is per
  inter-fire gap (`RowLedger.OneWinPerGap`), for `every` it holds exactly when the two clocks agree
  (`RowLedger.IntervalExclusion`).
* A crash forgets the whole attempt counter, so up to budget - 1 extra attempts follow, not one
  (dispatcher.go:28-34). `Sharpness.CrashForgetsStreak` is a run with a budget of three and five attempts in one
  gap; one extra attempt for each crash is enough exactly for budgets of at most two (`Sharpness.OneExtraIff`).
* The RunAll cap drops the remainder of the window for good; the documentation promises the next 256 instants
  on the next tick (docs/recipes.md:117-124). All missed fires are replayed exactly if at most 256 were missed
  (`Coverage.AllMissedReplayed`); `ReplayWitnesses.HourIsNotMadeUpFor` is the documented case, an hour of seconds.
* A RunAll row whose missed window holds no instant is executed but not advanced, against "applied at most once"
  (job.go:20). Every tick executes it again for the same fire exactly until the next fire is in the past
  (`EmptyWindows.ExecutedAgainIff`); an hourly job ten seconds late is executed once a second for an hour
  (`EmptyWindows.HourlyRepeats`).
* The attempt counter is per job, not per execution (dispatcher.go:39-44 promises a stable counter while a job fails).
  Attempts form streaks whatever the handlers return exactly if no execution of the job begins on the node while
  another one runs (`Overlap.StreaksIffNoOverlap`). When a handler outlasts its period, a first failure may be
  dead-lettered (`OverlapWitness.OverlapBreaksStreaks`).
* The row that registration creates for a one-shot job is never executed, because its next fire after a due
  instant is zero (dispatcher.go:171-174); schedule.go:62-64 promises that the missed-fire policy decides.
  See `Persistence.OneShotDispatch`.
* A one-shot instant loses its fraction of a second in storage (schedule.go:76). See `Persistence.RoundTrip`.
* A `MemoryLeader` shared by two schedulers does not simulate two competing nodes (leader.go:150-151): while
  one holds it, the other sees itself as the leader. See `Leaders.SharedLeaderIsNotExclusive`.
* No instant is replayed twice under the conditions of `Replays.Condition`: a leader lock is configured, no leader
  connection is lost, no tick reads a clock that is ahead, no retry is written late, no process dies inside a
  replay, and the claim that ends a replay takes effect. That claim may also be refused for a busy advisory lock,
  which is no error (storage.go:201-203) and which runAllMissed does not look at (dispatcher.go:386-390). Without
  any one of these conditions there is a run that meets all the others and replays an instant again
  (`ReplayWitnesses`).
* A leader whose pinned connection is dropped does not notice; a second leader may then exist
  (`LeaderElection.TwoLeadersAfterLoss`), and never otherwise.

## Model

| member | source | states |
|---|---|---|
| Schedules.PeriodicIsGrid | schedule.go:18-21 | "Every p at offset o" is a grid: its fires are exactly the instants with the right remainder, and between two of them the same fire comes next |
| Schedules.AtIsGrid | schedule.go:69-74 | a one-shot schedule is a grid with exactly one fire |
| Schedules.EveryIsNotGrid | schedule.go:50-52 | an interval schedule always moves on but has no fixed fires |
| Schedules.NextIsLeast | schedule.go:19-21 | for a grid, Next finds the least fire after its argument |
| Schedules.PeriodicGaps | schedule.go:18-21 | the number of inter-fire gaps that a time window touches, in closed form |
| Schedules.IterateSchedule | schedule.go:91-105 | the loop returns the orbit of Next cut at the window end and the limit; nothing for a nil schedule, an empty window or a limit below 1 |
| Schedules.FiresConsecutive | schedule.go:82-105 | each entry is the fire after the one before, and the list is short of the limit only because no further fire lies before the end |
| Schedules.FiresAscend | schedule.go:82-90 | entries lie strictly inside the window and strictly increase |
| Schedules.FiresAreAllFires | schedule.go:82-90 | for a grid, the list is the set of fires of the window, except those the cap cuts off behind its last entry |
| Schedules.FiresCompose | schedule.go:91-105 | limit a+b gives what limit a gives, continued from its last entry with limit b when the first part is full |
| Schedules.EveryFires | schedule.go:50-52 | for an interval d the list is from+d, from+2d, ... with min(limit, ceil(window/d)-1) entries |
| RowLedger.CrossingsTelescope | storage.go:380-415 | over any run of claims and retries, up-crossings minus down-crossings of every instant equal where the row ended minus where it began |
| RowLedger.ClaimLedger | storage.go:203-210 | claims won on one target number at most one more than the retries that pulled the row back across it |
| RowLedger.RepeatNeedsPullBack | storage.go:229-236 | between two wins on one target lies a retry that pulled the row from the target or above to below it |
| RowLedger.TargetsAscend | storage.go:389-397 | without effective retries the won targets strictly increase |
| RowLedger.StaysAbove | storage.go:403-411 | a row stays above an instant that all later retries respect, whatever is claimed |
| RowLedger.OneWinPerGap | dispatcher.go:215-224 | of all claims whose clocks read one inter-fire gap of a grid, at most one wins in a retry-free run, under any skew and staleness |
| RowLedger.IntervalExclusion | schedule.go:50-52 | two nodes with one stale snapshot of an interval job both win, in the order earlier clock first, exactly when their clocks differ |
| RowLedger.WinsBounded | storage.go:380-415 | claims won are at most the distinct targets at or below the row, plus effective retries, plus the excess levels those crossed |
| RowLedger.LateRetryWitness | storage.go:403-411 | a run with a late retry that attains the bound, so the excess term is needed |
| LoopRuns.PoliciesHold | dispatcher.go:148-239 | the effects of the policies on table, records and goroutines: followers leave leader-only and late RunAll rows alone; a late Skip row is raised to exactly the next fire and executed by nobody; a late RunAll row is executed for exactly the missed instants in order and raised, or for its own fire and not raised if none was missed; any other row is raised to exactly the next fire and executed once, for its own fire and under its registered options, by the node whose claim finds it below the target |
| Ignored.TickIgnores | dispatcher.go:148-211 | a whole tick keeps the row and the attempt counter of a job, records nothing and creates no goroutine for it, if the row is not due, is not registered on the node, does not load, has no next fire, or is left to the leader |
| Ignored.RunIgnores | dispatcher.go:149-163 | over a whole run of the loop the same holds for a job that is not registered, or leader-only on a follower |
| Ignored.FollowerIgnores | dispatcher.go:161-163 | while another session owns the lock the node stays a follower, and its whole run leaves the leader-only jobs alone |
| LoopRuns.LeadsIff | dispatcher.go:103-116 | a node that found the lock free leads after k events exactly if the first renewal that reached the server was also heard; a node locked out, leading already or without a name stays what it was |
| AttemptBudget.StepKeepsBudget | dispatcher.go:45-59 | every step of every node keeps the attempt potential: started, retried and ended attempts are paid for by claims, replays, crashes and counters |
| AttemptBudget.RunKeepsBudget | dispatcher.go:264-310 | the potential holds in every reachable state |
| ExecutionBound.RetryBudget | dispatcher.go:283-310 | in every interleaving, retries requested are at most (M-1) * (nodes + ended streaks + crashes) |
| RestingNode.RunKeepsRest | dispatcher.go:45-59 | in every reachable state, if as many streaks have ended as levels were claimed, some node's attempt counter is zero |
| ExecutionBound.ExecutionBoundAnyClock | dispatcher.go:166-238 | for any schedule and any clocks, executions are at most M*(targets + excess) + (M-1)*(N-1+C) under RunOnce and Skip, and none without a target |
| ExecutionBound.ExecutionBoundAnyPolicy | dispatcher.go:148-239 | for every policy, RunAll included, the same with the replay executions added to the targets |
| ReplayBound.ReplaysSplit | dispatcher.go:366-383 | in every run the replay executions are the replayed instants and one for each missed window without an instant |
| ReplayBound.ReplayedBounded | dispatcher.go:360-391 | with one clock and the conditions against repeats, replayed instants number at most the fires between the row's first fire and the clock |
| ReplayBound.ExecutionBoundRunAll | dispatcher.go:148-391 | so for every policy starts are at most M*(G + F + E) + (M-1)*(N-1+C) for G gaps, F fires and E missed windows without an instant |
| ExecutionBound.OnTimeRetryCrossesOne | dispatcher.go:283-287 | with one clock and a grid, a retry not before the clock pulls the row back across at most one claimed target |
| ExecutionBound.ExecutionBound | dispatcher.go:148-239 | with one clock and a grid, executions over G inter-fire gaps are at most M*G + (M-1)*(N-1+C), for every interleaving, stale snapshot and overlap |
| Sharpness.BoundAttained | dispatcher.go:148-310 | for every budget, number of nodes, crashes and gaps, and every backoff for whose retries the gaps have room, there is a run that attains that bound with each retry waiting that long |
| Sharpness.OneExtraIff | dispatcher.go:28-34 | in all runs a crash costs at most one extra execution exactly if the budget is at most two |
| Sharpness.CrashForgetsStreak | dispatcher.go:28-34 | one node, one crash, one gap of a minute, budget three, retries after 1.2 seconds: a run with five attempts |
| Sharpness.DefaultDelay | dispatcher.go:454-465 | the default policy may choose that delay after a first and after a second failure |
| ExecutionBound.PeriodicExecutionBound | dispatcher.go:148-239 | the same bound in numbers for a periodic job |
| ExecutionBound.OncePerTargetWithoutRetries | storage.go:76-80 | without retries a job is executed at most once for each distinct target, under any clocks and crashes |
| Conservation.ExecutionsConserved | dispatcher.go:312-328 | in every run: records + records lost + executions killed + executions in flight = won claims that execute + replay executions |
| Cluster.CallOutcomes | dispatcher.go:215-234 | a claim call without effect changes nothing, one with effect raises the row to the target; an execution is created exactly if the claim was won, launches and was answered |
| Conservation.RecordsMatchExecutions | dispatcher.go:429-444 | without faults, records equal executions once nothing is in flight |
| Conservation.LedgerCountsSteps | dispatcher.go:215-328 | every counter used in the bounds and balances is a count of steps of the run: starts, judgements, crashes, records written and lost, won launches, replayed executions, killed executions |
| Conservation.RecordsNeedStarts | dispatcher.go:264-328 | no more runs are recorded than attempts were started |
| LeaderElection.LeaderExclusive | leader.go:78-139 | any node that believes to lead owns the lock exactly if its connection was not dropped; of two such nodes one was dropped |
| LeaderElection.LockSteps | leader.go:78-139 | a renewal is granted exactly if the lock is free; a release ends the belief and frees the lock exactly if the node owns it and the call arrives; a crash, a failed release and a lost answer leave the lock taken, the last by nobody |
| LeaderElection.OneLeader | leader.go:74-77 | with no connection lost any node leads exactly if its session owns the lock, and two leaders are the same node |
| LeaderElection.TickKeepsLeadership | dispatcher.go:85-95 | no step of any node changes a node's leadership between the start and the end of its tick, except its own crash |
| LeaderElection.TwoLeadersAfterLoss | leader.go:86-89 | a run in which a dropped connection leads to two leaders |
| Replays.RunKeepsReplay | dispatcher.go:202-213 | the replay invariant holds in every run that meets the six conditions, the last being that the final claim neither fails nor is refused |
| Replays.NoInstantReplayedTwice | dispatcher.go:360-391 | in those runs the instants replayed by all nodes together strictly increase |
| Replays.SweptWindowIsFinal | dispatcher.go:384-390 | whatever is replayed after a finished replay lies beyond that replay's clock reading |
| Replays.MissedStaysMissed | docs/recipes.md:117-124 | an instant of a finished window that was not replayed by then never will be |
| Replays.WindowSplits | dispatcher.go:360-391 | the fires from the row's fire up to the next claim target split exactly into that fire, the replayed ones, those beyond the cap, and now |
| ReplayWitnesses.NoCrashNeeded | dispatcher.go:379-390 | a run that breaks only this condition: a crash inside a replay makes the next leader replay an instant again |
| ReplayWitnesses.FinalClaimNeeded | storage.go:201-203 | the same for a final claim that fails or is refused: the next tick of the leader replays again |
| ReplayWitnesses.RetryOnTimeNeeded | dispatcher.go:283-287 | the same for a retry written after the instant it asks for |
| ReplayWitnesses.ClockNeeded | dispatcher.go:121-123 | the same for a tick that reads a clock ahead of the others |
| ReplayWitnesses.ConnectionNeeded | leader.go:86-89 | the same for a leader connection that the server drops |
| ReplayWitnesses.LeaderNeeded | dispatcher.go:208-211 | the same without a configured leader: both nodes replay |
| ReplayWitnesses.HourIsNotMadeUpFor | docs/recipes.md:117-124 | an hour of missed seconds: a run that replays up to second 256, after which no continuation ever replays second 257 |
| Coverage.ReachedIff | schedule.go:91-105 | an instant is reached exactly if it is a fire of the window and at most limit fires of the window are not later |
| Coverage.AllMissedReplayed | dispatcher.go:355-366 | every fire strictly between the row's fire and now is replayed exactly if there are at most 256 of them |
| Coverage.PeriodicReplayed | dispatcher.go:355-366 | for a periodic job the condition as a comparison of two quotients |
| Coverage.HourOfSeconds | docs/recipes.md:117-124 | for a job every second and an outage of an hour, second 256 is replayed and second 257 is not |
| Sorting.InsertionSort | storage.go:364-373 | the swaps leave a sorted permutation, for any total preorder |
| Sorting.Insert | storage.go:365-372 | the inner loop with the early break sorts one more element in and keeps the contents |
| Storage.TableFollowsLedger | storage.go:380-415 | the row of an unlocked job lives exactly the life of the ledger for the calls on its id |
| Storage.ListingUnique | storage.go:363-373 | the due rows in (fire time, name) order form exactly one list |
| Storage.FetchCanonical | storage.go:344-378 | what a fetch returns depends only on the table, the clock and the limit, not on the order of the map |
| Storage.FetchIsOldest | storage.go:344-378 | read off the table: each entry carries id, name, fire time, schedule and kind of its own due row, an earlier fire or at the same instant a smaller name comes first, and due rows are missing only behind a full list, of 32 without a positive limit |
| Basics.LessIff | storage.go:367 | names are compared by their first difference, a proper prefix being smaller |
| Storage.SortedIsListing | storage.go:351-373 | any sorted arrangement of the due rows is that list |
| MemoryStorageModule.MemIdInjective | storage.go:332-333 | generated ids never repeat |
| MemoryStorageModule.FirstIds | storage.go:332-333 | the ids are mem-job- and the number in decimal |
| MemoryStorageModule.MemoryStorage.EnsureJob | storage.go:321-342 | a new job gets an unused id and the given first fire; an existing one keeps id and fire time and gets the new schedule |
| MemoryStorageModule.MemoryStorage.FetchDue | storage.go:344-378 | the least limit rows by (fire time, name), 32 for a limit below 1 |
| MemoryStorageModule.MemoryStorage.ClaimJob | storage.go:380-401 | exactly one row may change; true exactly if it was unlocked and strictly below the target; an unknown id is an error |
| MemoryStorageModule.MemoryStorage.ScheduleRetry | storage.go:403-415 | exactly one row may change, to the earlier of the two times |
| MemoryStorageModule.MemoryStorage.RecordRun | storage.go:417-431 | one record is appended, field by field the given one, except that a missing finish is the clock, a missing start the finish, and an attempt below 1 is 1 |
| AdvisoryKey.ComputeKey | storage.go:279-290 | the loop computes the fold of the mixing step |
| AdvisoryKey.MixBijective | storage.go:286-287 | each mixing step is a bijection of 64-bit words, with its inverse |
| AdvisoryKey.HashInjective | storage.go:285-288 | different words stay different under any common suffix |
| AdvisoryKey.SuffixKeepsKeysApart | storage.go:276-278 | under any common suffix two keys are equal exactly if those of the prefixes are |
| AdvisoryKey.OneByteSeparates | storage.go:276-278 | two ids of one length that differ in one byte never share a key |
| AdvisoryKey.KnownKey | storage.go:281-282 | the constants give the published FNV-1a value for "a" |
| Backoff.BaseGrowsToCap | dispatcher.go:446-461 | the base delay is positive, never decreases with the attempt and never exceeds MaxBackoff |
| Backoff.BaseRecurrence | dispatcher.go:446-448 | each base delay is the multiplier times the one before, up to the cap |
| Backoff.CapReached | dispatcher.go:458-461 | with a multiplier above 1 the cap is reached from an explicit attempt on |
| Backoff.DelayInBand | dispatcher.go:462-464 | the delay lies in [0.5, 1.5) of the base before truncation, and truncation loses less than one unit |
| Backoff.StreakDelayCapped | dispatcher.go:283-287 | the waits of a streak of k retries sum to at most 1.5 * k * MaxBackoff |
| Backoff.StreakDelayGeometric | dispatcher.go:454-465 | they also sum to at most 1.5 times the sum of the unclamped delays |
| Backoff.UnclampedIsGeometric | dispatcher.go:446-448 | that sum is InitialBackoff times 1 + m + ... + m^(k-1), with the closed form of the geometric sum |
| Effects.StreakWaits | dispatcher.go:278-287 | over a streak of failures, each after a claim of the row for a later fire, the waits from the retry clocks to the instants then in the row sum to the total delay of attempts 1, 2, ... for the drawn jitters |
| PostgresClaim.ClaimsAreAtomic | storage.go:185-225 | every interleaving of transaction steps has the rows and results of an atomic history, each entry between the begin and the end of its call; a claim refused for a busy lock is a no-op that returns false (when that happens: BusyIff) |
| PostgresClaim.BusyIff | storage.go:192-203 | in every reachable state an attempt at the lock is refused as busy exactly if another open transaction holds the key; otherwise the call goes on with the lock |
| PostgresClaim.BusyNeedsRival | storage.go:201-203 | over every run each busy refusal in the history was given at such an attempt, with a rival present |
| PostgresClaim.UndisturbedClaim | storage.go:185-225 | from every reachable state without open transactions a claim that runs to its end wins and leaves the row at the target exactly if the row was below it, and else is refused and changes nothing |
| PostgresClaim.CommitTells | storage.go:218-225 | a commit puts the row at the target, and the caller has won exactly if it hears of it |
| PostgresClaim.RetryLands | storage.go:227-240 | a retry takes effect at once: its row is the earlier of the two times, every other row stays |
| PostgresClaim.ClaimsNeverWait | storage.go:192-225 | in every reachable state each open claim can take its next step, because the key of a job excludes other claims of its row; a retry waits exactly while an open claim has changed a row that it would change |
| PostgresClaim.LogIsLedger | storage.go:206-236 | that history restricted to one row is a ledger of the in-memory claims and retries |
| PostgresClaim.TrueRepliesBounded | storage.go:192-201 | for any key function, colliding keys included, one target is claimed with true at most once more than it was pulled back across |
| Leaders.PostgresLeader.TryAcquire | leader.go:78-110 | true for the holder without asking, otherwise exactly if the lock is free and the answer arrives; a lost answer leaves a free lock with a session nobody has pinned; every other refusal changes nothing |
| Leaders.PostgresLeader.Release | leader.go:115-139 | leadership is given up in every case; the lock is freed exactly if this session owns it and the unlock reaches the server, answered or not |
| Leaders.MemoryLeader.TryAcquire | leader.go:161-178 | granted if free or held under the same name |
| Leaders.MemoryLeader.Release | leader.go:180-188 | frees the lock only for the last asker that was granted it |
| Leaders.CallsKeepConsistent | leader.go:161-194 | after any sequence of calls holder and last granted asker agree, and the leader flag is set exactly if somebody holds the lock |
| Leaders.SharedLeaderIsNotExclusive | leader.go:148-151 | a refused sharer sees itself as the leader, and its release frees the other's lock |
| Persistence.RoundTrip | dispatcher.go:402-425 | a stored schedule loads back as itself exactly if it is not a one-shot instant with a fraction of a second |
| Persistence.LoadsIff | dispatcher.go:402-425 | which kind and text load as which schedule, for each schedule an equivalence; intervals below a second and unknown kinds do not load |
| Persistence.OneShotDispatch | dispatcher.go:166-174 | a one-shot job has a next fire exactly before its stored instant, so a due registered row is ignored by every tick |
| Execution.ReplayRecordsStreaks | dispatcher.go:379-399 | a replay records one run for each instant, in order, with the attempt numbers and outcomes of the streak language |
| Execution.StreakLanguage | dispatcher.go:39-59 | numbers count up inside a streak and restart after it, stay within the budget, and outcome and number determine each other as documented |
| Execution.LastCounter | dispatcher.go:278-310 | the counter remembers the last attempt exactly if it failed below the budget |
| Overlap.StreaksIffNoOverlap | dispatcher.go:264-310 | for a schedule of beginnings and ends of a job's executions on one node: the recorded attempts are streaks for all handler results exactly if no execution begins while another one runs |
| StreakRuns.LoopPlays | dispatcher.go:243-328 | every trace of the loop, overlapping or not, records for a job what such a schedule plays, and the schedule does not overlap if the trace does not |
| StreakRuns.LoopRecordsStreaks | dispatcher.go:264-328 | over every trace in which no execution of the job begins on the node while another one of it runs, the attempts recorded are the streaks of their own results, numbered on from the counter at the start |
| StreakRuns.LoopStreaks | dispatcher.go:39-59 | under the same condition and from a fresh start they are numbered 1, 2, ... inside each streak, stay within the budget, and end with a success or the dead letter of the last attempt |
| OverlapWitness.OverlapBreaksStreaks | dispatcher.go:235-310 | a trace of a job every second with a slow handler: a success as attempt 1, then a first failure dead-lettered as attempt 2 of 2 |
| Execution.DeadLettersWhileFailing | dispatcher.go:300-310 | when every instant fails from counter c on, dead letters fall exactly where (c + i + 1) is a multiple of the budget |
| Dispatching.Dispatcher.BumpAttempt | dispatcher.go:45-53 | the counter of this job alone grows by one and is returned |
| Dispatching.Dispatcher.ForgetAttempt | dispatcher.go:55-59 | the counter of this job alone is gone |
| Dispatching.Dispatcher.Settle | dispatcher.go:269-310 | a failure below the budget pulls the row back to the retry clock plus jitter * min(MaxBackoff, InitialBackoff * Multiplier^(attempt-1)), truncated, and keeps the counter; every other result forgets it and leaves the row alone |
| Dispatching.Dispatcher.HandlerStarts | dispatcher.go:264-264 | a goroutine begins: its attempt is counted and kept |
| Dispatching.Dispatcher.HandlerReturns | dispatcher.go:266-328 | a goroutine ends: it is judged by the attempt counted when it began, whatever others have done to the counter since |
| Dispatching.Dispatcher.Conclude | dispatcher.go:269-328 | the second half of an attempt: counter, row and one appended record with the job, fire, node, attempt, start and finish of this call, and the failure text or none |
| Execution.ConcludedEffect | dispatcher.go:269-328 | the same about the state: one record that tells of this attempt field by field; the row pulled back by the delay of this attempt exactly after a failure below the budget |
| Effects.RecordsReport | dispatcher.go:312-322 | over every trace each record added carries this node's id and the clock readings, result and error text of a handler call of one event: of a replay in that tick, or of the reply that ended its goroutine |
| Dispatching.Dispatcher.Execute | dispatcher.go:397-400 | an attempt on the loop's own goroutine: both halves at once |
| Dispatching.Dispatcher.RunAllMissed | dispatcher.go:360-391 | the whole replay of a missed window, or the one execution of an empty window |
| Dispatching.Dispatcher.MaybeDispatch | dispatcher.go:148-239 | the table, records, counters and new goroutines after one due row, on every path; nothing changes for a job that is not registered, does not load, has no next fire or is left to the leader |
| Dispatching.Dispatcher.Tick | dispatcher.go:121-131 | fetches at most 64 rows and handles each |
| Dispatching.Dispatcher.MaybeRenewLeader | dispatcher.go:103-116 | leadership and lock afterwards: gained by a named node if the lock is free and the database answers, taken from everybody if the answer is lost, else as before; nothing else of the loop changes |
| Dispatching.Dispatcher.Drain | dispatcher.go:429-444 | with no grace period every handler returns, in any order, and is recorded in the in-memory storage; otherwise those in time |
| Dispatching.Dispatcher.Run | dispatcher.go:64-96 | the loop is a trace of its events: a first renewal whose result the first tick already knows, that tick, whatever happens, then the drain of the goroutines then in flight; leadership in every state is what the renewals so far have made of the lock |
| LoopRuns.LoopConserves | dispatcher.go:64-96 | over every trace each execution created is recorded or in flight, records are only appended, and leadership once gained lasts until the loop ends |
| Simulation.ExecutionIsRun | dispatcher.go:397-400 | a synchronous execution of the class is start, finish, retry, record of the cluster machine |
| Simulation.ReturnIsRun | dispatcher.go:266-328 | a returning handler of the class is finish, retry, record of an execution that has started |
| Simulation.DispatchIsRun | dispatcher.go:148-239 | handling one due row is a run of the machine, replays included |
| Simulation.TickIsRun | dispatcher.go:121-131 | a whole tick over all fetched rows is, for each job, a run of the machine with the same row, counter, goroutines and records |
| NodeRuns.EventRuns | dispatcher.go:64-96 | one event of a dispatcher's loop is, for each job, a run of its node in the machine, and the other nodes are as they were |
| FleetRuns.FleetIsMachineRun | dispatcher.go:64-96 | any interleaving of the loops of N dispatchers over one table, with processes that die between events, is for each job a run of the N-node machine from an initial state, with the same row, counters, goroutines and records |
| FleetRuns.FleetExecutionBound | dispatcher.go:148-310 | with one clock the runs recorded for a grid job number at most M*G + (M-1)*(N-1+C) over G gaps and C deaths |
| FleetRuns.LoopIsMachineRun | dispatcher.go:64-96 | the same for every trace of one dispatcher, with renewals, registrations and overlapping handlers |
| FleetRuns.LoopExecutionBound | dispatcher.go:64-96 | over every punctual trace of one dispatcher the runs recorded for a grid job number at most M for each inter-fire gap the clock touches |
| TickProgress.HandledRaises | dispatcher.go:148-239 | handling a row touches only its fire time and leaves it at its target, or higher only if it was higher; without a target it is not raised |
| TickProgress.ReplayAdvancesIff | dispatcher.go:366-390 | a due RunAll row is above now after its replay exactly if its window holds an instant |
| EmptyWindows.TickFires | dispatcher.go:121-131 | a tick that fetches a row executes it in place for exactly its replay instants |
| EmptyWindows.ExecutedByEveryTick | dispatcher.go:366-372 | k ticks that find a row late with no instant missed execute it k times for its own fire, and leave it due where it was |
| EmptyWindows.ExecutedAgainIff | dispatcher.go:366-390 | after such ticks the next tick that replays the row executes the same fire again exactly if the window still holds no instant, that is, until the next fire is in the past |
| EmptyWindows.HourlyRepeats | dispatcher.go:366-372 | an hourly job ten seconds late, a tick a second: up to 3590 ticks execute the one fire 3590 times |
| TickProgress.TickLeavesNothingDue | dispatcher.go:121-131 | after a tick every row it raises is above now, so no fetch at the same clock returns it |
| Starvation.NothingGetsAhead | storage.go:363-373 | no claim, retry or registration puts a row ahead of a waiting one |
| Starvation.ClaimedStaysAbove | storage.go:403-411 | a row claimed in a tick is above the tick's clock at its end, whatever other nodes do around it |
| Starvation.RoundTakes64 | dispatcher.go:123-130 | a fair round that neither fetches a due row nor sees another node claim it takes 64 rows out of its way |
| Starvation.ServedInTime | dispatcher.go:121-131 | a due row with R rows ahead is fetched within ceil((R+1)/64) fair rounds, unless another node claims it first; a round is fair if the node raises the rows ahead, whatever it does with the waiting row |
| Starvation.FetchedInTime | dispatcher.go:121-131 | if no other node moves the row, one of these rounds fetches it |
| TickCalls.TickWrites | dispatcher.go:128-130 | what a tick does to the table is a list of claims and retries that claims each row the tick raises and writes no retry before its clock |
| TickCalls.TickIsFairRound | dispatcher.go:121-131 | so a tick of the dispatcher is such a round, and leaves the same table |
| TickCalls.TicksReachRow | dispatcher.go:121-131 | the next ceil((R+1)/64) ticks of a dispatcher that raises the rows ahead fetch the row |
| TickCalls.PositiveBackoff | dispatcher.go:284-285 | with a clock that does not go back and backoffs of two nanoseconds or more, retries lie after the tick's clock |
| TickCalls.FairInstance | dispatcher.go:121-131 | the conditions are met by a row that the node itself raises |
| Scheduling.SortedNames | sundial.go:257-273 | sorting the names gives their one increasing list |
| Scheduling.Scheduler.Schedule | sundial.go:222-255 | each of the five errors in the order of precedence of the source; only success changes the registry, by one job with the options given and the documented defaults for those left at zero |
| Scheduling.DefaultRetries | job.go:103-118 | a job without retry options gets three attempts, the second after 0.5 to 1.5 seconds, the third after 1 to 3 |
| Scheduling.Scheduler.Jobs | sundial.go:260-279 | all registered jobs in increasing order of name |
| Scheduling.Scheduler.Begin | sundial.go:297-320 | every registered job with a future fire has a row with its schedule, existing rows keep their fire time, rows of jobs without a future fire and all other rows stay |
| Scheduling.RegisteredLoads | sundial.go:310-320 | from the due row of a registered job the dispatcher loads the schedule that was registered, a one-shot instant without its fraction of a second |
| Scheduling.Scheduler.Run | sundial.go:297-336 | a second call is refused without effect; otherwise registration, one trace of the loop that begins with fresh counters, the live registry and the configured leader's belief and is led by its renewals, then the release; the lock is free afterwards exactly if this node led and its unlock arrived or no request of it ever took the lock; while another session owns the lock leader-only jobs keep their fire times and get no record |

## Left out

* Telemetry, logging, `AutoNodeID`, the example program, option validation in `New` and the simple setters: no
  state the guarantees rest on.
* The cron parser and its `Next`, `time.ParseDuration` and RFC 3339 text: abstract functions with the
  contract their documentation gives; a cron schedule enters as its `Next`. Not part of this model.
* SQL text, wire I/O and errors of `FetchDue` and `EnsureJob`. Failed and refused claims, failed retries, records and
  lock calls, lost answers and dropped connections are modelled.
* The Postgres `FetchDue` orders by fire time only and leaves ties to the server (storage.go:152-158); only the
  in-memory fetch is proved canonical. Starvation bounds are for the (fire time, name) order.
* Tickers, contexts, handler timeouts and panics: a handler is its result; a panic is a failure. The overflow of
  `time.Duration` and the rounding of float64 are not modelled; delays are real numbers until truncation.
* Pool connections are new sessions each time; a session that failed to unlock and returns to the pool keeps
  its lock, as in Postgres, but is never handed out again here.
* `memJob` records are values in a map field, not shared references; no code outside the storage sees them.
* Methods that only read or set one field (`IsLeader`, `Runs`, `Lookup`, `Stop`) have contracts but no row.
* The cluster machine follows one job row. Other jobs appear in it only as time that passes inside a tick; the
  64-row limit and the order of rows are treated in `Starvation` and `Simulation`.
- ExecutionBound.ExecutionBound: is for the RunOnce and Skip policies; for RunAll the replay executions enter as a term of their own (ExecutionBoundAnyPolicy), bounded in ReplayBound.
- Replays.NoInstantReplayedTwice: is about the instants of the missed window; the execution of an empty window is not claimed and may repeat (TickProgress.ReplayAdvancesIff).
- MemoryStorageModule.MemoryStorage.RecordRun: does not claim idempotence on (job, fire, attempt) as storage.go:83-84 promises, because the in-memory storage appends and the migration declares no such constraint.
- Dispatching.Dispatcher.Execute: a tick of the class is one event, its synchronous executions included; goroutines that begin or end inside a tick, and other dispatchers that claim between its fetch and its claims, are runs of the cluster machine instead.
- Dispatching.Dispatcher.Drain: after a grace period the handlers not yet returned are only left in flight. The class works on the in-memory storage, which ignores contexts; on Postgres the retry and the record of a handler that returns after the context has ended fail (dispatcher.go:286, 322), which the machine has as calls without effect.
- FleetRuns.FleetIsMachineRun: every tick is one event of the interleaving, as in the line on Execute; processes die between events, and start again with the same registrations.
- Dispatching.Dispatcher.Run: while the loop runs no other node asks for the lock or gives it up; competing renewals are in the cluster machine.
- Effects.StreakWaits: is for a next fire that lies beyond the longest possible delay; a nearer one keeps the row, as `Execution.PulledBack` says.
- Leaders.PostgresLeader.TryAcquire: the mutex around each method makes calls atomic and is not modelled.
