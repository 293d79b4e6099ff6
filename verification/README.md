# The job daemon's task engine, verified

This project models the task engine of the job daemon: the queue loop, the
spawned task futures and re-enqueue timers, the cron scan, the retry scan, the
watchdog and the request handlers, all acting on one task store, together with
the components they use. It proves what holds of every task in every run.

`dafny verify dfyconfig.toml` checks all of it.

## How it is laid out

- **Components.** `Store`, `PriorityQueue`, `RateLimiting`, `Overlap`, `Retry`,
  `Cron`, `Watchdogs`, `Recovery`, `Chain`, `Chord`, `Queue`, `Handlers`,
  `Frames` and `Crypto` follow the program file by file. Objects the program
  updates in place are classes; each of their methods is proved equal to a
  function on the object's abstract value, and the properties are proved about
  those functions.
- **Interleavings at store calls.** `Overlap`, `Chain` and `Chord` also contain a
  transition system each, with one step per store or counter access, any number
  of callers and the per-record lock as part of the state.
- **The whole engine.** `Engine` is a transition system over the queue's whole
  state. A dispatch prologue and a completion are one step each; the cron scan,
  the retry scan and the watchdog each list the active tasks once and then take
  one step per listed task, so their copies go stale while others act. What an
  executor returns, what building a task yields, when a timer fires, and every
  clock reading are arguments of the step and arbitrary.
- **The proof.** `Lives` says what the system holds about one id (a `Life`), the
  ways a step may change it, and that each of these ways keeps one invariant.
  `Steps` shows that every step of the engine is, for every id, one of these
  ways. `Guarantees` draws the conclusions, `ChainRuns` and `ChainEnds` do the same
  for a chain and its steps, `ChordRuns` for a chord, `OutcomeRuns` for the results
  executions bring back, `Priorities` for the queue and the order of service,
  `RateRuns` for the rate limit, and `Clocks` for what a clock that never goes back
  adds.
- **The decisions.** `Admissions`, `Outcomes`, `Scans`, `Requests` and `Base64Text`
  say what the components decide in the task's own fields, codes, dates and
  counters, without the functions that decide it. `Histories` does so for what a
  state remembers of its run.
- **The boundaries.** `LostTasks`, `Cancels` and `StaleWatch` give the exact
  conditions of the three guarantees the code keeps only partly: which
  configurations can lose a task, which cancels are final, and for which
  configurations the watchdog can interrupt an execution that is not hung. `Scenarios` holds the
  steps their runs are built from, for a single task of any configuration.

Words used below. *Unaltered*: inserted once, never removed, replaced or
modified by request. *Quiet*: unaltered and never requeued. *Limit 1*:
`max_instances <= 1` and no `allow_overlap`. *Parked*: given the fire time
`u64::MAX` by a saturated sum or by its creator, not by a run-at scan.
*Refused*: an enqueue of the id that nobody repeats met a full queue.

Runs that show a guarantee broken are runs the program can have: the tasks in them
are created with the fire time their configuration builds at that time
(`Cron.IsBuilt`), and no clock reading goes back or is past the signed 64-bit range.

Which tasks can be lost follows from the configuration alone. Lost means Pending,
held nowhere, not in flight, and with a fire time no scan will ever meet. For every
configuration, `CanBeLostIff` says that some such run has lost a task of it, one
never removed, replaced or modified, refused or saturated, if and only if it is (1) a
run-at task that is not over at its first success, with a window between start and
end date that is not empty and not wholly before 1970; (2) a run-at task that is over
at its first success, and whose filters skip some moment of its window; or (3) without
run-at, an interval task with an `or_cron` but no `cron` that is not over at its first
success, and that builds and can start. The date -1, which is the sentinel, is
excepted. The runs for the "if" cancel and requeue the task. Without any request but
its dispatch, a task can be lost before it ever ran if and only if it is a one-shot
run-at task whose filters skip some moment of its window from its date on
(`CanNeverRunIff`); and a periodic run-at task that is never retried, has no rate
limit and may run more than twice can be lost if and only if some moment of its window
is not before its date (`RecurringIsLostQuietlyIff`).

## What the code does where its comments say otherwise

- A full queue: the comment on `enqueue` (src/scheduler/queue.rs:128-131) says the
  retry scan will enqueue the task again. It does so only for tasks with a
  fire time; a refused immediate dispatch is lost (`DispatchLosesIff`).
- A run-at task whose date is skipped is meant to be dropped; its row stays
  Pending at the sentinel, and the startup re-arm would bring it back
  (`SkippedIsLost`).
- The builder warns that a run-at task ignores its interval or cron expression
  (src/task/mod.rs:849-858), but a success still treats the task as periodic:
  it goes back to Pending at the sentinel and is lost (`FiredPeriodicIsLost`).
- An interval task that also has an `or_cron` is a cron task to the cron scan but
  not to the retry scan, which clears its fire time; it is then never due again
  (`ClearedIntervalIsLost`).
- Cancelled is not always final: a cron scan that listed the task before the
  cancel can write Expired or Success over it. `CancelIsFinalIff` tells from the
  scan's remaining listing whether it will; `CancelCanBeUndoneIff` which
  configurations allow it: those whose expiry or end date still passes within the
  signed range for some task that builds.
- A cron scan is meant to roll the fire time forward whether or not it fires
  (src/scheduler/cron.rs:552-555). Once an expression has no further occurrence it
  cannot, and the task fires in every scan (`CronConsumesIncreasing`,
  `LastOccurrenceFiresAgain`).
- Expressions without a future occurrence are said to be skipped
  (src/scheduler/cron.rs:209-214), but they are reported as errors: one is enough to
  leave the whole set without a next occurrence (`MinNextFireIsSoonest`).
- `mark_failed` does not end a chain for good while an `advance` is between its
  read and its last write: the late write revives it
  (`FailureIsFinalIffNobodyIsBumping`).
- The watchdog's reload compares only the state, so a stale listing can interrupt
  a fresh execution of the same task (`CanInterruptFreshIff`), and a
  result that arrives after the interrupt still decides the state
  (`StaysInterruptedIff`).
- "Retry indefinitely" without `acks_on_failure` ends after `u32::MAX` attempts.
- `attempts` is not reset when a periodic task succeeds, so the retry budget is
  one for the whole life of the task (`RetriesTerminate` holds for periodic
  tasks, too).
- The comment in `handle_dispatch` (src/daemon_main.rs:710-713) speaks of a
  `next_fire` check in `process_one`; there is none, and a dispatched periodic
  task runs at once.
- The comment on the notifications (src/scheduler/queue.rs:925-932) says that a
  Failed or Cancelled step fails its chain. An execution that brings no result, or
  with a cancel requested, tells the chain nothing, although it can leave its task
  Failed or Cancelled (`OnlyResultsAreTold`).
- The jitter is documented as at most the configured seconds
  (src/task/mod.rs:225-228); the draw is always less (`IntervalFiresIff`).
- The frame writer accepts bodies up to 4 GiB, the reader refuses more than 8 MiB
  (`FrameIsReadIffItFits`).
- At clock 0 the rate limiter's saturated cutoff forgets the triggers of second 0;
  `WindowsKeptIff` says when that breaks the limit.

## Model

| member | source | states |
|---|---|---|
| Guarantees.NoTaskIsLost | src/scheduler/queue.rs:202-285 | in every reachable state an unaltered, unrefused, unparked task that is over at its first success or has not succeeded yet, no date of which was skipped, and that is Pending or Running is queued, in a timer, in a cron batch or callback, in flight, or has a fire time that will come; a pure interval task never holds the sentinel; a cron task created with a fire time always has one; a run-at task holds the sentinel only once a scan used up its trigger |
| Guarantees.ReachableIsKeyed | src/store/in_memory.rs:40-49 | in every reachable state each row is stored under its own id, which the listing methods require |
| Guarantees.ExecutionsWithinLimit | src/scheduler/overlap.rs:45-130 | in every reachable state the counter of any id is the number of its executions in flight, no row is Running without one, and an unaltered task has at most max_instances of them if that is above 1, and at most one if not and overlap is not allowed |
| Guarantees.PendingMeansIdle | src/scheduler/queue.rs:277-315 | a quiet limit-1 task has at most one execution, and none while it is Pending |
| Guarantees.AtMostOneSuccess | src/scheduler/queue.rs:600-636 | however often its id is queued, a quiet limit-1 one-shot succeeds at most once and is then terminal with nothing in flight |
| OutcomeRuns.UnsafeRequestIsAnsweredOnce | src/retry/mod.rs:70-122 | of the results a quiet limit-1 one-shot HTTP task brought back over its life, not idempotent and with a method that in no case spells GET, HEAD or OPTIONS, at most one has a status code, and with it the task is over |
| OutcomeRuns.ResultsAreAccountedFor | src/scheduler/queue.rs:516-719 | in every reachable state the Succeeded events of an unaltered task are as many as the results its executions brought back with a good code (200 to 299, exit 0, or none) and no cancel request, its FailedEvent events as many as the others without a cancel request, and its stored result is the last one |
| OutcomeRuns.FailuresAreBounded | src/scheduler/queue.rs:466-514 | a quiet limit-1 task has at most retry_max + 1 FailedEvent events, or without acks_on_failure one more than the largest 32-bit number |
| Guarantees.MaxExecutionsIsKept | src/scheduler/queue.rs:532-599 | with max_executions m > 0 the count never exceeds m, and is below m while the task is not terminal or still in flight, also with stale cron listings |
| Guarantees.RetriesTerminate | src/scheduler/queue.rs:469-514 | at most retry_max + 1 executions fail over a whole run, without acks_on_failure one more than the largest 32-bit number; while the task lives, its stored attempts are exactly its failures |
| Guarantees.FailureUsesUpAnAttempt | src/retry/mod.rs:194-229 | every failing completion in a reachable state fails the task for good or strictly decreases retry_max + 1 - attempts |
| Guarantees.CancelIsHonoured | src/store/in_memory.rs:260-298 | after an accepted cancel of a quiet limit-1 task, over every continuation no execution starts, none fails or is retried, it is never Pending, and with nothing in flight it is terminal, and Cancelled if no clock reading is past its expiry or end date |
| Cancels.CancelIsFinalIff | src/scheduler/cron.rs:319-395 | an accepted cancel of a quiet limit-1 task in any reachable state is final over every continuation if and only if the cron scan under way will not reach, before its batch is full, a copy of the task listed before the cancel whose state it decides |
| Cancels.CancelCanBeUndoneIff | src/scheduler/cron.rs:319-395 | for every limit-1 configuration an accepted cancel of a task created as it builds can be undone in some reachable state, with a clock that never goes back or leaves the signed range, if and only if the expiry or the end date of some task of it that builds passes within that range |
| Cancels.RunStaysUndisputed | src/store/in_memory.rs:260-298 | once cancelled with no such copy listed, no continuation lists one |
| LostTasks.CanBeLostIff | src/scheduler/queue.rs:532-599 | for every configuration a task of it, created as it builds, can be lost in some reachable state whose clock never went back or left the signed range, never removed, replaced, modified, refused, saturated or wrapped, if and only if it is a run-at task that goes on after a success and has a window, a run-at task that does not and whose filters skip a moment of its window, or an interval task with only an or_cron that goes on after a success and that builds and can start |
| LostTasks.OthersAreNeverLost | src/scheduler/queue.rs:202-285 | no reachable state has lost a task of any other configuration |
| LostTasks.FiredPeriodicIsLost | src/scheduler/cron.rs:416-438 | a run-at task of any configuration that goes on after a success is lost once its scan fired in its window and it ran |
| LostTasks.SkippedIsLost | src/scheduler/cron.rs:416-438 | a run-at task of any configuration is lost once a scan meets a moment of its window its filters skip |
| LostTasks.ClearedIntervalIsLost | src/scheduler/queue.rs:878-906 | an interval task with only an or_cron that goes on after a success, builds and can start is lost once the retry scan cleared its fire time and it ran |
| LostTasks.CanNeverRunIff | src/scheduler/cron.rs:416-438 | for every configuration a quiet task of it can be lost without ever running if and only if it is a one-shot run-at task whose filters skip some moment of its window that is not before its date nor, for a task created just before its date, past its expiry |
| LostTasks.RecurringIsLostQuietlyIff | src/scheduler/queue.rs:532-599 | a quiet periodic run-at task that is never retried, has no rate limit and may run more than twice can be lost if and only if some moment of its window is not before its date |
| LostTasks.DispatchLosesIff | src/scheduler/queue.rs:119-142 | from any state, a dispatch under an id nowhere in use loses the task if and only if it is not queued and has no fire time a scan will meet; without a trigger, if and only if the queue is full |
| LostTasks.QueueCanFill | src/scheduler/queue.rs:119-142 | for every bound a reachable state has a full queue, filled by tasks created as they build, and an id nowhere in use |
| LostTasks.StuckIsNeverDue | src/scheduler/queue.rs:878-906 | neither scan ever finds a task with such a fire time due |
| RateRuns.StartsWithinRateLimit | src/scheduler/queue.rs:225-275 | over every trace of the engine whose queue clock has left 0 and never goes back, a quiet limit-1 task with a rate limit has at most count Started events in any window of its length, although its bucket is forgotten when it ends |
| Clocks.ReachableIsTimely | src/scheduler/queue.rs:172-218 | in every reachable state whose clock never went back, an unaltered task was created no later than the clock and, if it ever started, some moment since lies inside its start date and its expiry |
| Guarantees.AbortedRunStaysInterrupted | src/scheduler/queue.rs:438-464 | the error of an execution the watchdog interrupted changes neither the store nor the queues, unless a cancel was requested, which then wins |
| ChainRuns.ChainRunsInOrder | src/scheduler/queue.rs:1012-1073 | in every reachable state the inserted steps of a chain of quiet limit-1 one-shots are its first configurations in order, and every step but the last succeeded exactly once, is terminal and has nothing in flight |
| ChainRuns.FinishedStepIsLast | src/scheduler/queue.rs:941-958 | a step that completes is the last one inserted, and a live record counts the steps exactly |
| ChainRuns.CompletionInOrder | src/scheduler/queue.rs:941-958 | a completion, with its chain and chord notifications, keeps every chain in order |
| ChainRuns.TraceKeepsOrder | src/scheduler/chain.rs:48-86 | every run keeps a chain in order |
| ChainEnds.FailedStepEndsChain | src/scheduler/queue.rs:941-958 | in every reachable state, if a completion with a result leaves the row of a chain's task Failed, the existing record of its chain is at step 0 in "failed", and over every continuation it stays so and no further configuration of the chain is inserted, given that no request supplies its marker |
| ChainEnds.ChainEndsIff | src/scheduler/chain.rs:48-92 | in every reachable state the record of a chain of quiet limit-1 one-shots says "success" if and only if all its configurations were inserted and each step succeeded exactly once, and "failed" if and only if the last step so far ended with a result and has not succeeded |
| ChainEnds.OnlyResultsAreTold | src/scheduler/queue.rs:405-464 | an execution without a result, or with a cancel requested, changes no chain and inserts nothing |
| ChordRuns.EndedHeaderDecides | src/scheduler/chord.rs:150-235 | in every reachable state, a result that ends a header's task leaves its live chord in "partial_failed" if and only if some header is Failed, Expired, Cancelled or Interrupted, and in "success", with its callback inserted, if and only if every header is in Success |
| ChordRuns.CallbackCarriesResults | src/scheduler/chord.rs:150-235 | the callback then carries for each header, if inserted once and not altered, the result its last execution brought back, or nothing if it keeps none |
| ChordRuns.ChordIsTold | src/scheduler/queue.rs:960-1007 | telling a live chord decides its record as above and queues its callback, with the configured priority, exactly when it succeeds |
| Priorities.WaitsWithItsPriority | src/scheduler/queue.rs:119-142 | in every reachable state each entry of an unaltered task, in the queue or in a timer, has the priority the task was created with |
| Priorities.HighestIsServedFirst | src/scheduler/queue.rs:145-153 | in every reachable state the task served next was created with a priority no lower than any other waiting in the queue |
| Priorities.QueueIsBounded | src/scheduler/queue.rs:119-142 | in every reachable state the queue is within its bound, and a step that refuses an enqueue leaves it full |
| Histories.RequestsAreRemembered | src/daemon_main.rs:665-727 | along every trace a task counts as altered if and only if a request removed, replaced or modified its row, as requeued if and only if a requeue of it was accepted, and a chain marker as forged if and only if a request supplied it |
| Histories.EndsAreRemembered | src/scheduler/queue.rs:338-719 | along every trace the results remembered of an id are those its executions brought back, in order, and its failures are the executions that, without a cancel request, brought a bad code, or no result without having been interrupted |
| Histories.EndingsAreRemembered | src/scheduler/queue.rs:727-760 | along every trace a task counts as ended if and only if a result, without a cancel request, left it terminal |
| Histories.StepRemembersTriggers | src/scheduler/cron.rs:416-438 | a run-at task counts as fired from the step on in which the scan meets it open with its fire time come, and as skipped if that day is |
| Cron.BuiltWithFireTimeIffTriggered | src/task/mod.rs:829-912 | a task that builds has an initial fire time exactly when it has a trigger |
| Steps.ReachableIsWell | src/scheduler/queue.rs:156-766 | the invariant of every task holds in every reachable state |
| Steps.StepKeeps | src/scheduler/queue.rs:156-766 | each step of any actor keeps the invariant of every task |
| Steps.CompletionKeeps | src/scheduler/queue.rs:338-771 | a completion, its notifications and whatever they insert keep the invariant of every task |
| Steps.PrologueKeeps | src/scheduler/queue.rs:156-353 | the dispatch prologue keeps it, whichever of its exits it takes |
| Steps.CronTaskKeeps | src/scheduler/cron.rs:296-584 | a cron scan's visit from an arbitrarily stale listing keeps it |
| Steps.DogTaskKeeps | src/scheduler/watchdog.rs:105-204 | a watchdog visit from an arbitrarily stale listing keeps it |
| Steps.RetryTaskKeeps | src/scheduler/queue.rs:878-906 | a retry scan's visit from an arbitrarily stale listing keeps it |
| Steps.CancelKeeps | src/store/in_memory.rs:260-298 | a cancel request keeps it |
| Steps.DispatchKeeps | src/daemon_main.rs:665-727 | a dispatch keeps it, with or without replacing a task |
| Steps.CompleteIsNotified | src/scheduler/queue.rs:727-760 | ending the execution before the notifications gives the same state as the program's order |
| Engine.CronRunIsTheScan | src/scheduler/cron.rs:296-595 | undisturbed, the engine's actions of a cron scan, from its listing to its end, are a run that leads to the store and the batch of the scan `Cron.CronScheduler.ScanOnce` performs |
| Engine.RetryRunIsTheScan | src/scheduler/queue.rs:878-906 | the same for the retry scan, one action per listed task |
| Engine.DogRunIsTheScan | src/scheduler/watchdog.rs:105-204 | the same for the watchdog |
| Lives.FinishesKeeps | src/scheduler/queue.rs:338-771 | the end of one execution keeps the invariant of its task |
| Lives.StartsKeeps | src/scheduler/queue.rs:316-335 | the start of one execution keeps it |
| Lives.EditsKeeps | src/scheduler/cron.rs:296-584 | a row change that neither starts nor ends an execution keeps it |
| Lives.OnlyFlightSettles | src/retry/mod.rs:194-229 | the end of the only execution: a failure fails the task or reschedules it with one attempt more, anything else leaves the attempts |
| Handlers.HandleDispatch | src/daemon_main.rs:665-727 | replaces or refuses an existing id, inserts, and enqueues unless a pure date trigger lies in the future |
| Handlers.HandleChainOp | src/daemon_main.rs:1054-1112 | refuses an empty chain, else creates the record and dispatches the first step; the reply is the full queue's error if the enqueue is refused |
| Handlers.ChainOpDispatchesFirstStep | src/daemon_main.rs:1054-1112 | the record stands at step 1 and the first configuration is inserted with the chain's marker and queued |
| Handlers.HandleChordOp | src/daemon_main.rs:1257-1312 | inserts and enqueues the headers in order up to the first failure, then creates the record |
| Handlers.ChordOpRecordsItsHeaders | src/daemon_main.rs:1257-1312 | a chord is accepted if and only if it has headers, all build and the queue has room for them; its pending record then lists exactly the inserted, tagged headers in order, and else there is none |
| Handlers.FailedHeaderEndsLoop | src/daemon_main.rs:1281-1297 | no header after a failed one is inserted |
| Handlers.HandleCancel | src/daemon_main.rs:816-840 | performs the store's cancel and nothing else |
| Queue.TaskQueue.constructor | src/scheduler/queue.rs:51-61 | a new queue is empty |
| Queue.TaskQueue.Enqueue | src/scheduler/queue.rs:119-142 | refused exactly when the queue is full, and then unchanged; else the entry is sorted in |
| Queue.TaskQueue.DrainNext | src/scheduler/queue.rs:145-153 | removes and returns the front |
| Queue.TaskQueue.ProcessOne | src/scheduler/queue.rs:156-353 | the whole prologue equals its specification |
| Queue.TaskQueue.LimitAndDispatch | src/scheduler/queue.rs:225-315 | the rate limit, then the overlap check |
| Queue.TaskQueue.DispatchTask | src/scheduler/queue.rs:277-353 | marks the row Running, counts it, records the event and spawns the future, or arms a timer |
| Queue.TaskQueue.SettleTask | src/scheduler/queue.rs:353-719 | the four exits of a completion and what each writes |
| Queue.TaskQueue.HandleSuccess | src/scheduler/queue.rs:531-640 | a success counts and ends the task unless it is periodic and below its maximum |
| Queue.TaskQueue.HandleFailure | src/scheduler/queue.rs:466-514 | consults the policy, then fails for good or schedules a retry |
| Queue.TaskQueue.ScheduleRetryOf | src/retry/mod.rs:194-229 | counts the attempt and either fails the row or makes it Pending at the backoff time |
| Queue.TaskQueue.CompleteFlight | src/scheduler/queue.rs:338-771 | the whole completion equals its specification, the counter and the bucket included |
| Queue.TaskQueue.NotifyChainAndChord | src/scheduler/queue.rs:941-1007 | advances or fails the chain, refreshes the chord and enqueues its callback |
| Queue.TaskQueue.AdvanceChainAndDispatch | src/scheduler/queue.rs:1012-1073 | inserts and enqueues the next step, tagged |
| Queue.TaskQueue.TimerFires | src/scheduler/queue.rs:277-285 | a delayed re-enqueue takes its id from the timers to the queue |
| Queue.TaskQueue.ScanRetries | src/scheduler/queue.rs:878-906 | enqueues each due Pending task without cron and clears its fire time only if the enqueue succeeded |
| Admissions.AdmissionIff | src/scheduler/queue.rs:172-353 | each exit of the prologue in the fields of the task and the counters: expired exactly when Pending past its expiry, too early exactly before its start date, held exactly when its window is full of triggers or as many of it run as may, else started |
| Admissions.PrologueIff | src/scheduler/queue.rs:156-218 | the front is taken; a task that is gone or terminal is dropped, any other admitted |
| Admissions.DispatchIff | src/daemon_main.rs:665-727 | refused exactly when the id is taken and not to be replaced; else inserted as configured, and queued with its priority unless it has only a date and that is still to come |
| Admissions.RetryScanIff | src/scheduler/queue.rs:878-906 | queued with its priority, its fire time cleared, exactly when it is Pending, has no cron expression, its fire time has come and the queue has room |
| Admissions.ChainIsTold | src/scheduler/queue.rs:941-958 | Failed and Cancelled set the record to step 0 and "failed", Success hands out the next configuration or ends the record, and nothing else changes it |
| Admissions.FlightIsOver | src/scheduler/queue.rs:727-771 | the execution is neither counted nor in flight any more, whatever its outcome |
| Admissions.EndForgetsTriggers | src/scheduler/queue.rs:727-771 | the rate limiter forgets a task with a limit exactly when a result, without a cancel request, ends it |
| Outcomes.SucceedsByItsCode | src/scheduler/queue.rs:516-530 | without a cancel request an HTTP result with a status code records Succeeded if and only if 200 <= code <= 299 and FailedEvent otherwise, a shell result with an exit code if and only if it is 0, and a result without its code Succeeded |
| Outcomes.CancelWins | src/scheduler/queue.rs:405-436 | a requested cancel leaves the row Cancelled, with its event, whatever came back |
| Outcomes.SuccessLeaves | src/scheduler/queue.rs:531-640 | a success is counted, and leaves Pending exactly the tasks with a cron expression or an interval whose maximum is not reached |
| Outcomes.RemovedTaskRecords | src/scheduler/queue.rs:516-719 | a task removed meanwhile gets no row back; its result is recorded by its code, but not the success of a periodic one |
| Outcomes.ResultIsKept | src/scheduler/queue.rs:372-395 | the result is stored, in place of an earlier one, unless the task ignores it |
| Outcomes.AnswerIsRetriedIff | src/scheduler/queue.rs:641-719 | with attempts left, a status code that is no success leaves the row Pending at the backoff time if and only if it lies in 500 to 599 and the method is GET, HEAD or OPTIONS in any case or the task is idempotent, and else Failed |
| Outcomes.ExitIsRetriedIff | src/scheduler/queue.rs:641-719 | the same for an exit code: any but 0, while attempts are left |
| Outcomes.ErrorIsRetriedIff | src/scheduler/queue.rs:466-514 | the same for an execution without a result: always, while attempts are left |
| Store.InMemoryStore.SetState | src/store/in_memory.rs:51-72 | writes the state and whichever timestamps are given |
| Store.InMemoryStore.Cancel | src/store/in_memory.rs:260-298 | Pending becomes Cancelled with an event, Running gets the request flag, anything else is refused |
| Store.InMemoryStore.Requeue | src/store/in_memory.rs:366-394 | a terminal row becomes Pending, due now, with attempts, error, timestamps and cancel flag cleared |
| Store.InMemoryStore.IncrementExecutions | src/store/in_memory.rs:210-223 | the wrapped new count, or nothing for a missing task |
| Store.InMemoryStore.LoadActive | src/store/in_memory.rs:106-117 | lists exactly the non-terminal rows, each once |
| Store.InMemoryStore.CountRunning | src/store/in_memory.rs:143-159 | 1 for a Running row, else 0 |
| Store.InMemoryStore.SetChainStep | src/store/in_memory.rs:630-648 | overwrites step and state of an existing chain record |
| Store.InMemoryStore.SetChordState | src/store/in_memory.rs:784-804 | overwrites the state and, if given, the callback id |
| Requests.CancelIff | src/store/in_memory.rs:260-298 | accepted exactly for Pending, which becomes Cancelled with an event, and Running, which is asked to stop; else nothing changes |
| Requests.CancelTwice | src/store/in_memory.rs:260-298 | a second cancel changes nothing and is refused unless the task runs |
| Requests.CancelThenRequeue | src/store/in_memory.rs:366-394 | a Pending task cancelled and requeued is as it was but for a fresh start |
| Requests.RequeuedIsQueued | src/store/in_memory.rs:366-394 | a requeued task without cron expression is queued by the next retry scan that lists it, given room |
| Requests.RequeuedIsFired | src/store/in_memory.rs:366-394 | a requeued cron task is in the batch of the next scan that reaches it open if and only if that is in time for the requeue and on no skipped day |
| Chain.AdvanceChain | src/scheduler/chain.rs:48-86 | the store calls of an uninterrupted advance |
| Chain.StepsAreHandedOutInOrder | src/scheduler/chain.rs:48-92 | over all interleavings of any number of advance calls with mark_failed, the configurations handed out are a prefix of the chain |
| Chain.StartedBeforeHandingOut | src/scheduler/chain.rs:72-84 | over all interleavings the record has left "pending" before any caller is about to hand out a step |
| Chain.FailureIsFinalIffNobodyIsBumping | src/scheduler/chain.rs:88-92 | after mark_failed no continuation hands out a step if and only if no advance was between its read and its last write |
| Chain.SoloRunIsAdvance | src/scheduler/chain.rs:48-86 | without interference the interleaved steps are the uninterrupted advance |
| Chord.RefreshState | src/scheduler/chord.rs:87-235 | the loop over the headers and the writes of an uninterrupted refresh |
| Chord.CallbackAtMostOnce | src/scheduler/chord.rs:87-235 | over all interleavings at most one callback is inserted, only after every header was seen in Success, listing the header ids in order; a partially failed chord has none |
| Chord.EndedChordsStayEnded | src/scheduler/chord.rs:108-122 | success and partial failure never change again |
| Chord.RefreshDecides | src/scheduler/chord.rs:150-235 | a refresh fails a live chord if and only if some header is Failed, Expired, Cancelled or Interrupted, and inserts the callback, as configured and with the result stored for each header in order, if and only if all are in Success |
| Chord.TallyIsExact | src/scheduler/chord.rs:150-189 | the counts against the header states, and, when all succeeded, each entry of the result list against the stored results |
| Chord.SoloRunIsRefresh | src/scheduler/chord.rs:87-235 | without interference the interleaved steps lead to the record, the answer and the insertion of the uninterrupted refresh |
| Overlap.OverlapController.ShouldFire | src/scheduler/overlap.rs:45-111 | allows exactly when the larger of the counter and the row count is below the limit; a refusal is recorded |
| Overlap.OverlapController.OnStart | src/scheduler/overlap.rs:114-117 | one more |
| Overlap.OverlapController.OnFinish | src/scheduler/overlap.rs:120-130 | one less, never below zero, and no zero entries |
| Overlap.AdmittedIff | src/scheduler/overlap.rs:45-111 | with a maximum above 1 a task is admitted if and only if both the executions counted and those the row shows are below it; without, always if overlap is allowed, and else exactly when both are 0 |
| Overlap.CounterBalanceAndCap | src/scheduler/queue.rs:270-315 | at store-call granularity, also when marking Running fails and through all four exits, the counter is the executions between on_start and on_finish and never exceeds the limit |
| Overlap.SoloRunIsMayFire | src/scheduler/overlap.rs:45-130 | without interference the accesses of one prologue start the task exactly if the uninterrupted check admits it, and otherwise change nothing |
| Overlap.IdleTaskMayFire | src/scheduler/queue.rs:287-310 | with no execution left and the row not Running the next check admits the task |
| Cron.CronScheduler.ScanOnce | src/scheduler/cron.rs:296-595 | the scan loop with its cap |
| Cron.CronScheduler.ScanOne | src/scheduler/cron.rs:319-584 | one task: maximum, expiry, pause, dates, then run-at, interval or cron |
| Cron.ScanTouchesRow | src/scheduler/cron.rs:296-584 | a whole scan treats each row by its own effect or leaves it alone |
| Cron.BatchIsBounded | src/scheduler/cron.rs:300-318 | a batch is duplicate-free and within the cap |
| Cron.CutOff | src/scheduler/cron.rs:300-318 | tasks after the point where the batch is full keep their fire times |
| Cron.RunAtFiresOnce | src/scheduler/cron.rs:416-438 | a run-at task is due at most once over any run of scans |
| Cron.IntervalSpacing | src/scheduler/cron.rs:448-480 | two firings of an interval task are at least the interval apart |
| Cron.CronConsumesIncreasing | src/scheduler/cron.rs:485-584 | given that occurrences lie in the future, each cron firing consumes a fire time no earlier than those before, and a strictly later one than any firing at which every expression still had an occurrence; for successive scans if and only if they had |
| Cron.LastOccurrenceFiresAgain | src/scheduler/cron.rs:552-584 | two scans that fire the same occurrence, the last of its expression |
| Cron.MissingFireTimeNeverFires | src/scheduler/cron.rs:485-584 | given that occurrences lie in the future, a cron task without a stored fire time is never due |
| Cron.CronTriggerIffExprs | src/scheduler/cron.rs:185-213 | the trigger test agrees with the list of expressions |
| Cron.MinNextFireIsSoonest | src/scheduler/cron.rs:215-235 | there is a minimum if and only if every expression has an occurrence, and then it is the soonest of them |
| Cron.ExprsAre | src/scheduler/cron.rs:195-213 | the expressions collected are the cron expression and the or-cron expressions that are not empty |
| Scans.CronFiresIff | src/scheduler/cron.rs:97-115 | over a whole scan, an open cron task whose stored fire time f has come, reached before the batch is full, is in the batch if and only if the day is not skipped and it coalesces, or is at most its misfire grace late, or with none at most 60 seconds; it gets a Missed event exactly when it is too late; its fire time rolls to the soonest next occurrence plus less than the jitter, or stays when some expression has none |
| Scans.IntervalFiresIff | src/scheduler/cron.rs:448-480 | the same for an interval task: in the batch exactly when its fire time has come and the day is not skipped, and the next one is the interval from now plus less than the jitter |
| Scans.RunAtFiresIff | src/scheduler/cron.rs:416-438 | the same for a run-at task, whose fire time is parked at the largest number |
| Scans.ClosedTaskIs | src/scheduler/cron.rs:319-415 | a task the scan reaches but may not fire ends in Success at its maximum or after its end date, in Expired with an event past its expiry while Pending, and is untouched while paused, cancelled, interrupted or before its start date |
| Scans.UntriggeredIsLeftAlone | src/scheduler/cron.rs:485-584 | a task without a trigger, or whose stored occurrence is still to come, is untouched |
| Scans.SkippedIff | src/scheduler/cron.rs:149-180 | a day is skipped if and only if its date is known and it is no working day where only those count or has the year, month and day of a skip date |
| Scans.BuiltFireTimeIs | src/task/mod.rs:829-912 | the fire time a task is built with: its run-at time, else the soonest next occurrence of its expressions, if each has one, else one interval from now, the latter two plus less than the jitter |
| Watchdogs.Watchdog.ScanOnce | src/scheduler/watchdog.rs:105-204 | the scan over the listing |
| Watchdogs.WatchdogOnlyInterruptsRunning | src/scheduler/watchdog.rs:105-204 | from any listing and store, a row changes if and only if it is Running and its listed copy is Running and started more than timeout * factor seconds ago, as whole numbers; then it is Interrupted, with exactly one event |
| Watchdogs.ScanInterruptsExactlyTheHung | src/scheduler/watchdog.rs:105-204 | an uninterrupted scan interrupts exactly the hung rows |
| Watchdogs.SameExecutionIsTrulyHung | src/scheduler/watchdog.rs:150-190 | if the live execution is the listed one, it really exceeded its tolerance |
| StaleWatch.CanInterruptFreshIff | src/scheduler/watchdog.rs:150-190 | otherwise it need not have: for every configuration without cron expression, expiry and rate limit the watchdog can interrupt an execution that does not look hung, of a task created as it builds, if and only if there is a timeout and some task of it builds and can start early enough for an execution to look hung within the signed range |
| StaleWatch.StaleListingInterruptsFreshRun | src/scheduler/watchdog.rs:150-190 | the run: an execution that began at the very moment the one before it was listed as hung |
| Recovery.ResetRunningToPending | src/store/in_memory.rs:431-496 | resets exactly the stranded rows without a live lease and counts them; one event per held lease |
| Recovery.ResetIff | src/store/in_memory.rs:431-496 | a Running or Interrupted row is counted as reset if and only if the process its lease names is not alive, and else gets one LeaseHeld event |
| Recovery.RearmStuckRunAtTasks | src/scheduler/cron.rs:262-293 | re-arms exactly the Pending run-at rows at the sentinel and counts them |
| Recovery.MarkRunningAsInterrupted | src/store/in_memory.rs:498-530 | interrupts exactly the Running rows and lists them once each |
| Recovery.RecoveryIsComplete | src/daemon_main.rs:215-274 | after startup a Running or Interrupted row is unchanged if the process with its lease's id and start time is alive, and else Pending, due, with cleared timestamps; terminal rows are untouched; no run-at row holds the sentinel |
| Recovery.RecoveryIsIdempotent | src/daemon_main.rs:215-274 | a second startup with the same processes changes nothing |
| Recovery.RearmCountIsExact | src/scheduler/cron.rs:262-293 | the rows re-armed are those parked before the reset |
| Recovery.ShutdownThenStartup | src/daemon_main.rs:470-495 | shutdown then startup brings every row that was Running or Interrupted back to Pending and due, all else kept, unless the process its lease names is alive, and then leaves it Interrupted |
| RateLimiting.RateLimiter.Check | src/scheduler/rate_limit.rs:44-58 | prunes, decides and records |
| RateLimiting.RateLimiter.Forget | src/scheduler/rate_limit.rs:62-65 | drops the bucket of the id |
| RateLimiting.WindowNeverExceeded | src/scheduler/rate_limit.rs:44-58 | no window of the configured length, wherever it ends, holds more than count accepted triggers |
| RateLimiting.DeniedOnlyWhenFull | src/scheduler/rate_limit.rs:44-58 | a call is refused if and only if the window ending now holds count accepted triggers |
| RateLimiting.CallIsExact | src/scheduler/rate_limit.rs:44-58 | the pruned bucket is the accepted history restricted to the window |
| RateLimiting.WindowsKeptIff | src/scheduler/rate_limit.rs:44-58 | with clocks that may start at 0, every window holds at most count accepted triggers if and only if no call came at clock 0 or all calls of the first window are at most count |
| PriorityQueue.QueueRefinesIdeal | src/scheduler/queue.rs:119-153 | over any run the sorted queue drains the same entries in the same order as an ideal priority queue, conserves its entries and respects the cap |
| PriorityQueue.FrontIsBest | src/scheduler/queue.rs:119-153 | the front is the earliest entry of maximal priority |
| PriorityQueue.StableSortIsStable | src/scheduler/queue.rs:140-140 | the sort is descending, a permutation, and keeps the order within a priority |
| Retry.BackoffIsExact | src/retry/mod.rs:159-171 | the backoff is min(d * 2^a, 60 * d, u64 max) over the integers, for every d and a |
| Retry.BackoffIsMonotone | src/retry/mod.rs:159-171 | it never decreases with the attempts |
| Retry.BackoffIsBounded | src/retry/mod.rs:159-171 | it lies between d and 60 * d and reaches the cap by the sixth attempt |
| Retry.RetryIsNeverInThePast | src/retry/mod.rs:176-183 | the retry time is never before now, and is the sentinel only if the sum leaves no other value |
| Retry.AnsweredUnsafeRequestIsFinal | src/retry/mod.rs:70-122 | an answered request that must not be repeated is never retried |
| Retry.RepeatableIff | src/retry/mod.rs:112-122 | a request may be repeated if and only if it is idempotent or its method spells GET, HEAD or OPTIONS, letter by letter in either case |
| Retry.WorthRetryingIff | src/retry/mod.rs:70-110 | the policy in full: attempts left, and no code, or a code in 500 to 599 of a request that may be repeated, or an exit code other than 0 |
| Crypto.Base64Encode | src/store/crypto.rs:116-139 | the encoder's loop equals the recursive encoding |
| Crypto.Base64Decode | src/store/crypto.rs:141-170 | the decoder's loop equals the recursive decoding |
| Crypto.DecodeAfterEncode | src/store/crypto.rs:116-170 | decoding an encoding gives the data back (section 4 of RFC 4648) |
| Crypto.CanonicalIffReencodes | src/store/crypto.rs:116-170 | re-encoding reproduces a text if and only if it is canonical (section 3.5 of RFC 4648) |
| Base64Text.EncodingIs | src/store/crypto.rs:116-139 | the encoding has four characters per three bytes begun, and its k-th is the table's entry for the six bits from bit 6k on, or padding where the data has ended (section 4 of RFC 4648) |
| Crypto.DecodeIgnoresSkipped | src/store/crypto.rs:141-170 | inserting padding, spaces or line breaks anywhere changes nothing |
| Crypto.DecryptAfterEncrypt | src/store/crypto.rs:64-114 | decrypting an encryption gives the plaintext back, given that the cipher is an inverse pair |
| Frames.Stream.WriteFrame | src/ipc/mod.rs:167-190 | appends the length prefix and the body, or refuses more than 4 GiB |
| Frames.Stream.ReadFrame | src/ipc/mod.rs:195-218 | reads one frame, or refuses and stops where the program does |
| Frames.FrameIsReadIffItFits | src/ipc/mod.rs:167-218 | a written frame is read back if and only if its body fits the reader's limit |
| Frames.FrameIs | src/ipc/mod.rs:167-190 | a frame is the length of its body in four bytes, most significant first, and the body |
| Frames.FramesRoundTrip | src/ipc/mod.rs:167-218 | reading any number of written frames yields their bodies and consumes every byte |
| Frames.TruncatedStream | src/ipc/mod.rs:195-218 | a stream cut anywhere yields exactly the complete leading frames |

## Left out

- Queue.TaskQueue.ProcessOne: the prologue is one step and reads the clock once; the store errors on which the program returns early from it are modelled only in `Overlap`.
- Queue.TaskQueue.DispatchTask: the early returns on a store error are modelled only in `Overlap`.
- Queue.TaskQueue.NotifyChainAndChord: groups are not modelled, so their refresh is missing.
- Handlers.HandleCancel: the signal to a running executor is missing; an executor may return anything at any time anyway.
- Watchdogs.Watchdog.ScanOnce: the signal to the hung executor is missing, for the same reason.
- Cron.CronScheduler.ScanOnce: the throttled cleanup of old results after the loop is missing.
- StaleWatch.CanInterruptFreshIff: about configurations without cron expression, expiry and rate limit; with them, a second execution in time also takes an occurrence, an unexpired task and room in the bucket. Without an expiry the condition is necessary for every configuration (`InterruptTakes`).
- LostTasks.RecurringIsLostQuietlyIff: with retries or a rate limit the fire time of a quiet periodic task also moves to times its failures and refusals set, and with a maximum of two executions the entry queued at its dispatch counts as one.
- Cancels.CancelCanBeUndoneIff: about limit-1 tasks; with overlap allowed an execution may be in flight while the task is Pending, and a cancel then leaves it running.
- LostTasks.CanBeLostIff: about tasks whose execution counter has not wrapped round its 32 bits; for interval tasks with only an `or_cron` it is not said when the loss needs no request.
- Queue.TaskQueue.CompleteFlight: one step with one clock reading, although the program reads the clock and the store several times; `Chain`, `Chord` and `Overlap` cover the interleavings inside it that have guards.
- Guarantees.RetriesTerminate: counts completions that consult the policy; cancelled executions and executions the watchdog interrupted consult nothing.
- Frames.FramesRoundTrip: bodies are bytes; the JSON values in them are not modelled.
- Crypto.DecryptAfterEncrypt: AES-GCM is an abstract inverse pair, and UTF-8 an arbitrary test that the plaintext passes.
- ChainEnds.ChainEndsIff: about chains of quiet limit-1 one-shots; a step that runs twice at a time, or again after a success, can tell its chain more than once.
- ChordRuns.EndedHeaderDecides: about a callback that builds under an id of its own; one that does not build leaves the record as it was.
- Chord.CallbackAtMostOnce: about the insertion; the id is returned again by later refreshes and may be enqueued more than once.
- The order in which the ids of one cron batch are enqueued, and the delay of a timer: any order and any time.
- The run loop's own selection, worker limits, metrics and the in-flight counter of the shutdown drain.
- Signalling an executor to stop: an executor may return anything at any time.
- Panics and crashes in the middle of a step; what a startup finds is covered by `Recovery`.
- The SQLite store, groups, result and event cleanup, ownership, progress reports and listings.
- Building a task from JSON: the configuration is given, and the engine's steps take any initial fire time; reading markers out of the metadata is part of the configuration.
- Cron syntax, time zones and calendars: an oracle. Jitter: an arbitrary draw.
- The `reschedule` request: covered by the arbitrary `Modify` step, without its validation of the expression.
- The float-valued `delay_for_attempt`, which nothing in the engine calls.
- The overlap counter's 32-bit width: executions in flight never come near it.
