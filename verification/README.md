# Verification of the personal deadline management agent

A Dafny 4.11 model of three parts of the system, with proofs of what they guarantee. `dafny verify dfyconfig.toml`
checks all of it.

## What is modelled

**Reminder scheduler** (`Reminders`, `SchedulerProtocol`, `SchedulerSafety`, `SchedulerDeadlock`, `SchedulerPaths`,
`SchedulerCircles`, `SchedulerCrossing`, `SchedulerDrain`, `SchedulerProgress`, `SchedulerStaleUpdates`,
`SchedulerTick`, `Faults`). Any number of workers, each running ticks, and the reminder API share one PostgreSQL database.
`SchedulerProtocol.Next` takes one SQL statement at a time: due query, look-up of the task, conditional claim,
notification, commit or rollback of the batch; the API's transactions are single steps. The table holds committed rows,
uncommitted writes belong to their session, a row lock is held until the session ends, and a conditional update waits
for a lock and tests its condition again, as READ COMMITTED does. A run is a sequence of such steps, so a lemma about
`Run` is about every interleaving. `SchedulerStaleUpdates` takes the read and the write of a reminder update apart and
counts exactly how often a reminder is then claimed and sent. `SchedulerDeadlock`, `SchedulerCircles` and
`SchedulerCrossing` say when workers block each other: never while the open ticks list the reminders in one order, which
holds as long as nobody moves a `remind_at` that an open tick has read; for any circle of open ticks exactly when their
lists can be cut so that each has come to a row the next one has taken; and for two ticks exactly when each has a first
foothold among the rows the other is still to claim, and not the same one. `SchedulerProgress` says what any number of
workers achieve side by side. `SchedulerTick` has the loop itself: a class whose methods change the session while other
sessions act in between in any way; it is proved to produce runs of the protocol, and to raise only with a cause.

**Pending confirmations** (`Decisions`, `ConfirmationProtocol`, `ConfirmationSafety`, `ConfirmationTheorems`,
`ConfirmationModule`). Chat requests in the same style: housekeeping update, decision, insertion of a confirmation,
conditional PENDING to CONFIRMED update, diagnosis read, unconditional EXPIRED write, commits that succeed, fail, or
take effect although their answer is lost, and the executor behind its gate. A log records requests, confirmations,
expiries and executions. What a request replies is pinned down for every message, and every failure has a cause: a
statement that failed, or a row another session held. CONFIRMED is not terminal in the code; the model keeps that, shows a run in which it is
overwritten, and states exactly which steps overwrite it. That no committed step returns to PENDING is what the rest
stands on.

**Calendar, workload and rescheduling** (`Calendar`, `TaskQueries`, `Sequences`, `Tasks`, `Workload`,
`FeasibilityWindows`, `WorkloadAnalysis`, `ReschedulingConstraints`, `ReschedulingCandidates`,
`ReschedulingGeneration`). Time is a whole number of microseconds since 0001-01-01T00:00:00 UTC, and a day is its floor
division by the length of a day. `Calendar` is the proleptic Gregorian calendar of section 3.2.1 of ISO 8601:2004 with
the weeks of its section 2.2.8, and the years 1 to 9999. The loops, dictionaries and sorts of the analysis and of the
candidate generator are methods proved equal to functions; the lemmas are about those functions. A Python sort is
`Sequences.SortBy`, stable and by key.

## Where code and documentation differ

- The docstring of `confirm` speaks of exactly one caller winning a transition; the EXPIRED write at
  `modules/pending_confirmation_module.py:167` is not conditional, so a won confirmation can be overwritten when two
  clocks lie on both sides of the expiry (`StraddlingClocksOverwrite`). Its command is still executed at most once.
- Overload detection drops tasks whose durations are not positive, the capacity check does not. With a negative
  duration the two disagree (`NegativeDurationsHideOverload`); `OverloadedSlotsExactly` says exactly when.
- "A SENT reminder cannot be updated", says `services/reminder_service.py:77-80`. It is the read that refuses; the write
  of an update that was read before the claim names the row by its id alone and does not test it.
  `SentRowChangesExactlyBy` says exactly when a SENT row changes, and `StaleUpdateSendsTwice` is a run that sends a
  reminder twice. `ClaimsAreCounted` gives the exact number of claims, and when it is at most one.
- THIS_WEEK is refused from 27 December 9999 on, because that week ends after the last representable instant;
  `RefusedByDate` has the exact dates for every expression.

## Model

| member | source | states |
|---|---|---|
| `Reminders.FindDue` | src/personal_deadline_management_agent/repositories/reminder_repository.py:69-85 | the due query returns PENDING rows with `remind_at <= now`, at most `limit`, by `remind_at`, oldest first, and then by id; one is left out only when there are `limit` of them, and then it comes after all that are returned |
| `Reminders.RankedListsThem` | src/personal_deadline_management_agent/repositories/reminder_repository.py:76-85 | the ordering step lists exactly the selected rows, each once, by `remind_at`, oldest first, and then by id |
| `Reminders.ClaimOrderIsDistinct` | src/personal_deadline_management_agent/repositories/reminder_repository.py:82-85 | no id comes twice in one answer of the due query |
| `SchedulerSafety.NextKeepsStructure` | src/personal_deadline_management_agent/services/scheduler_service.py:121-171 | every step of every session keeps: a lock is held exactly for each uncommitted claim, claims were due when made and follow the order of the list, the counters fit the position in the list |
| `SchedulerSafety.NextKeepsSafe` | src/personal_deadline_management_agent/modules/scheduler_module.py:70-85 | every step keeps the whole invariant: structure, claim history, send balance, and what is recorded of ended ticks |
| `SchedulerSafety.RunsAreSafe` | src/personal_deadline_management_agent/services/scheduler_service.py:106-178 | the invariant holds after any interleaving of any number of workers and API operations |
| `SchedulerSafety.ClaimedAtMostOnce` | src/personal_deadline_management_agent/repositories/reminder_repository.py:87-116 | in every interleaving, each API transaction taken as one step, each reminder has at most one committed claim, and its committed row is SENT exactly when it has one |
| `SchedulerSafety.TimesAreSetByTheDeadline` | src/personal_deadline_management_agent/services/reminder_service.py:35-109 | with each API transaction as one step: a step that creates a reminder or moves its time sets it no later than the deadline of its task, a new reminder is PENDING, no reminder changes its task, and the API makes none SENT |
| `SchedulerSafety.RequestsTakeEffect` | src/personal_deadline_management_agent/services/reminder_service.py:35-109 | and a request that is in order is done: a reminder no later than the deadline is created; one that is neither SENT nor locked takes the new time or status, and what has its value already is not written |
| `SchedulerSafety.DeletesTakeEffect` | src/personal_deadline_management_agent/services/reminder_service.py:111-115 | a reminder without a lock is deleted; a task without a locked reminder is deleted with exactly its reminders |
| `SchedulerSafety.NextCountsClaims` | src/personal_deadline_management_agent/repositories/reminder_repository.py:87-116 | every step adds a committed claim of a reminder exactly when it makes its committed row SENT; deleting a row takes no claim away, and a new row is not SENT and has an id never used |
| `SchedulerSafety.RunsKeepTasks` | src/personal_deadline_management_agent/models.py:113-117 | in no run is a reminder ever without its task |
| `SchedulerStaleUpdates.NextKeepsDeskOk` | src/personal_deadline_management_agent/services/reminder_service.py:69-109 | with the read and the write of an update apart, every step keeps the structure of locks and claims, and no pending update sets SENT |
| `SchedulerStaleUpdates.LockedRowsStay` | src/personal_deadline_management_agent/services/reminder_service.py:35-115 | create, delete, and the read and the write of an update leave rows with an open claim, all open ticks, the sends and all that has ended alone |
| `SchedulerStaleUpdates.UpdateIsReadThenWrite` | src/personal_deadline_management_agent/services/reminder_service.py:69-109 | taken without a pause, the read and the write of an update are the update as one step, refusals included |
| `SchedulerStaleUpdates.SentRowChangesExactlyBy` | src/personal_deadline_management_agent/services/reminder_service.py:77-109 | with read and write apart, a committed SENT row loses its status, or changes its time, if and only if the step is the write of an update to it that was read before and sets a status, or another time; no other step changes it in any column while it exists |
| `SchedulerStaleUpdates.ClaimsAreCounted` | src/personal_deadline_management_agent/services/reminder_service.py:77-109 | with read and write apart, in every run: the committed claims of a reminder are the times such a write took its SENT status away, plus one if it is SENT, or was when it was deleted; so it has at most one claim if and only if that never happened, or happened once and left it unsent |
| `SchedulerStaleUpdates.SendsAreCounted` | src/personal_deadline_management_agent/services/scheduler_service.py:145-171 | in every run: it was handed to the provider that often, plus once for each claim rolled back and for the one that an open tick has handed over |
| `SchedulerStaleUpdates.ClaimedAtMostOnceUnlessReopened` | src/personal_deadline_management_agent/repositories/reminder_repository.py:87-116 | where no such write ever takes the SENT status away: at most one committed claim, and SENT exactly when there is one |
| `SchedulerStaleUpdates.StaleUpdateSendsTwice` | src/personal_deadline_management_agent/services/reminder_service.py:77-109 | a run with one worker in which a stale cancellation, and then an update to PENDING, make a reminder be sent twice |
| `SchedulerSafety.SendAccounting` | src/personal_deadline_management_agent/services/scheduler_service.py:145-171 | while no worker is between claim and send, send attempts equal committed claims, plus claims a rollback undid, plus the claim still open |
| `SchedulerSafety.CommittedClaimsWereSentOnce` | src/personal_deadline_management_agent/modules/scheduler_module.py:78-83 | each committed claim had exactly one send attempt in its own tick and was due at that tick's clock |
| `SchedulerSafety.TickCountsHold` | src/personal_deadline_management_agent/services/scheduler_service.py:173-178 | for every tick that is not rolled back, under any interference: due = sent + skipped + missing task, failed = missing task + provider failures, due <= limit, and the bounds of failed that follow |
| `SchedulerDeadlock.WaitingGoesForward` | src/personal_deadline_management_agent/services/scheduler_service.py:128-148 | when all open ticks list the reminders in one order, a waiting worker wants an earlier one than the worker holding it wants |
| `SchedulerDeadlock.NoCycleInOneOrder` | src/personal_deadline_management_agent/services/scheduler_service.py:128-148 | in every run whatever: while the open ticks list the existing reminders in one order, any order, no chain of waiting workers closes |
| `SchedulerDeadlock.NextKeepsOrdered` | src/personal_deadline_management_agent/repositories/reminder_repository.py:76-85 | the times read by open ticks stay the committed ones under every step but an update of the `remind_at` of a reminder that an open tick lists |
| `SchedulerDeadlock.NoWaitCycle` | src/personal_deadline_management_agent/repositories/reminder_repository.py:76-85 | so in any run in which no listed reminder's `remind_at` is moved, workers never wait for each other's row locks in a cycle |
| `SchedulerDeadlock.SomeWorkerGoesOn` | src/personal_deadline_management_agent/services/scheduler_service.py:128-171 | in a run in which no listed reminder's `remind_at` is moved, while a tick is open, some open tick can take its next statement and is then shorter or over |
| `SchedulerPaths.StatementMoves` | src/personal_deadline_management_agent/services/scheduler_service.py:128-171 | a statement of an open tick leaves what it holds and is still to claim as it is, or moves the next row it is to claim, which nobody holds, to what it holds; what the others of its team hold and are still to claim stays |
| `SchedulerCircles.MoveBackCloses` | src/personal_deadline_management_agent/services/scheduler_service.py:145-153 | taking a row never gives open ticks a way to a standstill that they did not have before |
| `SchedulerCircles.StepOn` | src/personal_deadline_management_agent/services/scheduler_service.py:128-171 | while open ticks can come to a standstill and have not, one of them can take its next statement so that they still can, and has then less to do |
| `SchedulerCircles.StandStillExactlyWhenClosing` | src/personal_deadline_management_agent/services/scheduler_service.py:128-171 | after every run, for any number of open ticks in a circle: they can go on by statements of their own until each waits for the next one if and only if their paths can be cut so that up to the cuts no two take the same row, and each goes on with a row the next one has taken |
| `SchedulerCircles.ListsGoAround` | src/personal_deadline_management_agent/repositories/reminder_repository.py:76-85 | then there is a circle of different reminders, and each of the ticks lists the one the tick before it will wait for before its own; two ticks list two reminders in opposite orders |
| `SchedulerCrossing.CrossingIsClosing` | src/personal_deadline_management_agent/services/scheduler_service.py:145-153 | for two ticks that condition is: each has a first foothold among the rows the other is still to claim, and not the same one |
| `SchedulerCrossing.DeadlocksExactlyWhenCrossing` | src/personal_deadline_management_agent/services/scheduler_service.py:128-171 | after every run: two open ticks can go on by statements of their own to wait for each other if and only if each holds, or can claim before any other row the other holds or is still to claim, a row the other is still to claim, and the two rows differ |
| `SchedulerCrossing.SameFirstCannotDeadlock` | src/personal_deadline_management_agent/services/scheduler_service.py:145-153 | that alone is not enough: two ticks that hold nothing and have the same row to claim first cannot block each other, whatever the order of the rest |
| `SchedulerCrossing.DifferentFirstsCanDeadlock` | src/personal_deadline_management_agent/services/scheduler_service.py:128-148 | two fresh ticks that begin with different reminders, each listing the other's further on, can |
| `SchedulerCrossing.ThreeWithoutTwo` | src/personal_deadline_management_agent/services/scheduler_service.py:145-153 | three ticks can stand still although no two of them can |
| `SchedulerCrossing.TwoRemindersAreReachable` | src/personal_deadline_management_agent/services/reminder_service.py:35-55 | the state the example starts from is reached through the API |
| `SchedulerCrossing.MovingATimeCanDeadlock` | src/personal_deadline_management_agent/services/reminder_service.py:104-109 | a run that gets there: a `remind_at` moved between two due queries |
| `SchedulerDrain.TickAlone` | src/personal_deadline_management_agent/modules/scheduler_module.py:70-85 | a tick on its own commits SENT for exactly the first `limit` due reminders and notifies each once, by `remind_at`, oldest first, and then by id, all before any that is left; it changes no other row, whatever the provider raises |
| `SchedulerDrain.DrainBound` | src/personal_deadline_management_agent/services/scheduler_service.py:121-178 | with one worker and a fixed clock n due reminders are all committed SENT after the given number of ticks, each notified once, over all by `remind_at`, oldest first, and then by id; every tick commits |
| `SchedulerDrain.EveryRunDrains` | src/personal_deadline_management_agent/services/scheduler_service.py:121-178 | the same after every run that leaves no tick open |
| `SchedulerDrain.TicksForIsCeiling` | src/personal_deadline_management_agent/services/scheduler_service.py:121-128 | that number of ticks is n / limit rounded up |
| `SchedulerProgress.NextGoesOn` | src/personal_deadline_management_agent/services/scheduler_service.py:121-171 | while nobody uses the API, every step of any number of workers keeps: what a tick lists is due or SENT, and has its task, and what it has passed is claimed by it or SENT |
| `SchedulerProgress.TicksDeliver` | src/personal_deadline_management_agent/modules/scheduler_module.py:70-85 | with any number of workers and no API use, a committed tick leaves every reminder it listed SENT; and once one tick that listed fewer than its limit has ended without a rollback, nothing due at its clock is left |
| `SchedulerTick.Session.FindDue` | src/personal_deadline_management_agent/repositories/reminder_repository.py:69-85 | opens the tick with the answer of the due query on the rows as they then are; it raises, and leaves none, exactly when the statement fails |
| `SchedulerTick.Session.TaskExists` | src/personal_deadline_management_agent/services/scheduler_service.py:131-143 | tells whether the task is there then, and moves the tick on to its claim, or counts the missing one and goes to the next reminder; it raises exactly when the statement fails |
| `SchedulerTick.Session.MarkSent` | src/personal_deadline_management_agent/repositories/reminder_repository.py:87-116 | one row when the row is PENDING and due then, and its claim is written in this session; otherwise none, and the reminder is skipped; it raises exactly when the statement fails or another worker holds the row |
| `SchedulerTick.Session.Send` | src/personal_deadline_management_agent/services/scheduler_service.py:156-171 | the claim counts as sent, and as failed too when the provider raised |
| `SchedulerTick.Session.Commit` | src/personal_deadline_management_agent/modules/scheduler_module.py:79-80 | ends the tick as committed; it raises exactly when the statement fails, and then the tick is as it was, or committed with the answer lost |
| `SchedulerTick.Session.Rollback` | src/personal_deadline_management_agent/modules/scheduler_module.py:71-74 | ends the tick as rolled back, with the committed rows unchanged |
| `SchedulerTick.SchedulerService.Handle` | src/personal_deadline_management_agent/services/scheduler_service.py:128-171 | one turn of the loop counts the reminder as sent, skipped, or failed (no task, or a provider that raised, which is sent too), or raises before its claim, because a statement failed or another worker held the row |
| `SchedulerTick.SchedulerService.Tick` | src/personal_deadline_management_agent/services/scheduler_service.py:106-178 | under arbitrary statements of other sessions, database errors and provider failures the loop ends at the end of its list with counts that are those of the tick, or raises between statements, and then because one failed or a claim met a row held by another worker |
| `SchedulerTick.SchedulerModule.Tick` | src/personal_deadline_management_agent/modules/scheduler_module.py:51-85 | a result means that no statement failed and exactly one tick of this worker was added, committed (or with nothing due), with counts that obey the law; an exception means that a statement failed, or that a claim met a due row locked by another worker, and that no tick was added, or one rolled back, or one committed whose answer was lost |
| `Decisions.DeletesNeedConfirmation` | src/personal_deadline_management_agent/guardrails/safety_policy.py:54-92 | the four answers exactly: a caller is allowed in single-user mode or as the configured user; deleting a task or a reminder then needs confirmation, each other action type is authorized, and everyone else is told NOT_CONFIGURED; the executor's gate passes exactly an allowed action that is no delete, for a command of its type |
| `Decisions.DecisionKeepsTheAction` | src/personal_deadline_management_agent/guardrails/safety_policy.py:73-92 | a decision is about the action it was asked for |
| `ConfirmationProtocol.LatestPending` | src/personal_deadline_management_agent/repositories/pending_confirmation_repository.py:32-53 | the user's PENDING confirmation with the latest `created_at`, the larger id among those with the same; none exactly when the user has none |
| `ConfirmationSafety.NextKeeps` | src/personal_deadline_management_agent/modules/pending_confirmation_module.py:71-192 | every step of every chat request keeps the invariant over rows, locks, open requests and the log of requests, confirmations, expiries and executions |
| `ConfirmationSafety.RunsKeep` | src/personal_deadline_management_agent/handlers/agent_handler.py:136-332 | that invariant holds after any interleaving of any number of chat requests |
| `ConfirmationTheorems.ConfirmedAtMostOnce` | src/personal_deadline_management_agent/modules/pending_confirmation_module.py:116-137 | at most one confirm call per id is told CONFIRMED, despite failing commits, lost answers and the unconditional EXPIRED write |
| `ConfirmationTheorems.ExecutedAtMostOnce` | src/personal_deadline_management_agent/handlers/agent_handler.py:308-314 | the stored command of a confirmation is executed at most once |
| `ConfirmationTheorems.DeleteIsJustified` | src/personal_deadline_management_agent/handlers/agent_handler.py:193-228 | an executed delete of a task or a reminder follows a request by a CONFIRMATION_REQUIRED decision of the same allowed user on the same command, confirmed by that user strictly before it expired |
| `ConfirmationTheorems.DeletesWereConfirmed` | src/personal_deadline_management_agent/services/action_executor.py:155-180 | in every run each executed delete of a task or a reminder has such a decision and confirmation, and no two share them |
| `ConfirmationTheorems.OnlyExpiredAreMarked` | src/personal_deadline_management_agent/repositories/pending_confirmation_repository.py:55-70 | whatever is marked EXPIRED, by the housekeeping or by confirm, has an `expires_at` at or before the marking call's clock |
| `ConfirmationTheorems.FallThroughIsExpired` | src/personal_deadline_management_agent/modules/pending_confirmation_module.py:164-175 | in any interleaving the last branch of confirm is reached only by an expired row |
| `ConfirmationTheorems.NeverBackToPending` | src/personal_deadline_management_agent/modules/pending_confirmation_module.py:116-192 | no committed step returns a confirmation to PENDING or changes its user, command or times |
| `ConfirmationTheorems.ConfirmedIsLeftExactlyBy` | src/personal_deadline_management_agent/modules/pending_confirmation_module.py:167-172 | CONFIRMED is not terminal: a step changes a committed CONFIRMED row if and only if it commits a fall-through of confirm for that id; it then becomes EXPIRED, and that call's clock was at or past the expiry and later than the confirming clock |
| `ConfirmationTheorems.StraddlingClocksOverwrite` | src/personal_deadline_management_agent/modules/pending_confirmation_module.py:164-172 | from any state in which two calls name a PENDING row with clocks on both sides of its expiry, the given statements commit CONFIRMED, hand the command to the executor and then commit EXPIRED over it |
| `ConfirmationTheorems.StraddleIsReachable` | src/personal_deadline_management_agent/modules/pending_confirmation_module.py:116-121 | such a state is reached by two chat requests in single-user mode |
| `ConfirmationModule.Session.CommitOrRollBack` | src/personal_deadline_management_agent/modules/pending_confirmation_module.py:130-134 | the commit takes effect and is acknowledged exactly when the statement does not fail; otherwise the request is over, whether or not it took effect |
| `ConfirmationModule.Session.MarkConfirmedRow` | src/personal_deadline_management_agent/repositories/pending_confirmation_repository.py:72-94 | one row when the committed row is the user's, PENDING and not expired, and CONFIRMED is written for it in this session; otherwise none; it raises only when the statement fails or another session holds the row |
| `ConfirmationModule.Session.ReadForDiagnosis` | src/personal_deadline_management_agent/modules/pending_confirmation_module.py:141-162 | reads the row as it is now; the request goes on exactly if it is the user's and still PENDING; it raises exactly when the statement fails |
| `ConfirmationModule.Session.WriteExpired` | src/personal_deadline_management_agent/modules/pending_confirmation_module.py:164-172 | on success the row is committed EXPIRED and had expired by the caller's clock; it raises only when a statement fails or another session holds the row |
| `ConfirmationModule.PendingConfirmationModule.CleanupExpired` | src/personal_deadline_management_agent/modules/pending_confirmation_module.py:177-192 | on success the number returned is that of the rows marked by the call, which are EXPIRED and had expired, and nothing that was expired when the call began is PENDING; it raises only when a statement fails or another session holds an expired PENDING row |
| `ConfirmationModule.PendingConfirmationModule.Create` | src/personal_deadline_management_agent/modules/pending_confirmation_module.py:71-93 | on success exactly the PENDING row of the decided command is committed, expiring `ttl` after its creation; it raises only when a statement fails or the id is not new |
| `ConfirmationModule.PendingConfirmationModule.GetLatestPending` | src/personal_deadline_management_agent/modules/pending_confirmation_module.py:95-101 | names the user's latest PENDING confirmation, if there is one; it raises exactly when the statement fails |
| `ConfirmationModule.PendingConfirmationModule.Confirm` | src/personal_deadline_management_agent/modules/pending_confirmation_module.py:103-175 | each answer is right about the database at that moment; CONFIRMED comes with the command stored for this user, a clock before the expiry, and the record that this request won; it raises only when a statement fails or another session holds the row |
| `ConfirmationModule.AgentHandler.Execute` | src/personal_deadline_management_agent/services/action_executor.py:142-196 | dispatches exactly when the decision is AUTHORIZED and about the command's action type, and then adds exactly one execution to the log and to this request; otherwise none |
| `ConfirmationModule.AgentHandler.HandleConfirmation` | src/personal_deadline_management_agent/handlers/agent_handler.py:246-332 | done means that this request added exactly one execution, of the confirmation named or else of the user's latest; every other reply means none; a refusal is right about that row, nothing pending means that the user has no PENDING row, and a failure has a statement that failed or a row held by another session behind it |
| `ConfirmationModule.AgentHandler.Process` | src/personal_deadline_management_agent/handlers/agent_handler.py:136-240 | unless a statement fails, a row is held or the new id is taken, a proposal is answered by its decision: executed at once, stored for confirmation, or declined; a confirmation as above; done means that this request added exactly one execution, of what the message asked for, and for a delete that a decision and a timely confirmation stand before it |
| `Calendar.YearLength` | src/personal_deadline_management_agent/services/date_range_resolver.py:138-148 | the calendar's year has 366 days exactly when divisible by 4 and, if by 100, by 400; its months make it up |
| `Calendar.MonthsByFormula` | src/personal_deadline_management_agent/services/date_range_resolver.py:143-148 | the first day of each month by a formula without the table of lengths |
| `Calendar.KnownDates` | src/personal_deadline_management_agent/services/date_range_resolver.py:120-148 | day 0 is 1 January of the year 1, 1 January 1970 is day 719162, 1900 is no leap year and 2000 is one, and 1 January 2024 is a Monday |
| `Calendar.RepeatsAfter400Years` | src/personal_deadline_management_agent/services/date_range_resolver.py:143-148 | the calendar repeats after 400 years of 146097 days |
| `Calendar.LimitIsTheEndOfTheLastYear` | src/personal_deadline_management_agent/services/date_range_resolver.py:143-148 | the years 1 to 9999 have 3652059 days |
| `Calendar.IndexFits` | src/personal_deadline_management_agent/services/date_range_resolver.py:105-112 | an instant lies in the day, week or month of its index |
| `Calendar.PeriodsTile` | src/personal_deadline_management_agent/services/date_range_resolver.py:105-150 | days, weeks and months each tile the time line: an instant lies in period k if and only if k is its index, and period k + 1 starts where k ends |
| `Calendar.ResolvesToWholePeriods` | src/personal_deadline_management_agent/services/date_range_resolver.py:65-82 | THIS_x and NEXT_x resolve to the whole periods numbered index and index + 1, leap years and December included; a range is refused exactly when its period ends past the year 9999 |
| `Calendar.WeekResolves` | src/personal_deadline_management_agent/services/date_range_resolver.py:120-129 | a week range runs from Monday 00:00 to the last microsecond of Sunday |
| `Calendar.MonthResolves` | src/personal_deadline_management_agent/services/date_range_resolver.py:132-150 | a month range runs from the first to the last microsecond of the month, with the year rolling over |
| `Calendar.RefusedByDate` | src/personal_deadline_management_agent/services/date_range_resolver.py:65-82 | by date: THIS_WEEK is refused exactly from 27 December 9999 on, TODAY and THIS_MONTH never, and TOMORROW, NEXT_WEEK, NEXT_MONTH exactly from 31, 20 and 1 December 9999 on |
| `Calendar.ThisContainsItsReference` | src/personal_deadline_management_agent/services/date_range_resolver.py:105-150 | THIS_x contains its reference, and another reference resolves to the same range if and only if it lies in it |
| `Calendar.NextFollowsThis` | src/personal_deadline_management_agent/services/date_range_resolver.py:105-150 | NEXT_x begins one microsecond after THIS_x ends, and THIS_x of a reference is that range if and only if the reference lies in it |
| `Calendar.TenthOfApril` | src/personal_deadline_management_agent/services/date_range_resolver.py:65-150 | TODAY, THIS_WEEK and THIS_MONTH at any instant of 10 April 2024 are that day, 8 to 14 April and 1 to 30 April |
| `Calendar.ExplicitRangesExactly` | src/personal_deadline_management_agent/services/date_range_resolver.py:153-167 | an explicit range is refused without both ends, for an end without offset or outside the years 1 to 9999, or when it ends before it begins; otherwise it is the range given, in UTC |
| `Calendar.ReferencesExactly` | src/personal_deadline_management_agent/services/date_range_resolver.py:62-64 | a reference without offset, or outside the years 1 to 9999, is refused; any other is taken in UTC |
| `Calendar.ExplicitRangeGivesItBack` | src/personal_deadline_management_agent/services/date_range_resolver.py:153-167 | a resolved range, passed back as an explicit one with its ends written in any offsets from UTC, resolves to itself |
| `TaskQueries.AnswersAreExact` | src/personal_deadline_management_agent/repositories/task_repository.py:45-59 | an answer has exactly the tasks of the table whose deadline lies in the range, both ends included, as often as the table has them, by deadline |
| `TaskQueries.AnswersJoin` | src/personal_deadline_management_agent/repositories/task_repository.py:45-59 | two queries over ranges that meet, one after the other, answer the query over both: same rows as often, ordered by deadline |
| `TaskQueries.DaysJoin` | src/personal_deadline_management_agent/repositories/task_repository.py:45-59 | the answers for consecutive days, joined, answer the query over all of them |
| `TaskQueries.DailyQueriesSplitThePeriod` | src/personal_deadline_management_agent/repositories/task_repository.py:45-59 | the daily queries of a week (seven of them) or a month lose no row and repeat none |
| `Sequences.SortIsStable` | src/personal_deadline_management_agent/services/workload_analysis_service.py:250 | sorting keeps the order of elements with equal keys |
| `Sequences.SortForgetsOrder` | src/personal_deadline_management_agent/services/rescheduling_candidate_service.py:157-167 | sorting by a key no two elements share gives one list for every order of the input |
| `Tasks.TextBeforeIs` | src/personal_deadline_management_agent/services/workload_analysis_service.py:227-250 | names compare by the first character in which they differ |
| `Tasks.TaskOrder` | src/personal_deadline_management_agent/services/rescheduling_candidate_service.py:29-39 | the key is a total order in which only equal ids tie: no task without a deadline stands before one with a deadline, deadlines do not decrease, then HIGH before MEDIUM before LOW, then names, then ids increase |
| `Tasks.DisplayOrder` | src/personal_deadline_management_agent/services/workload_analysis_service.py:227-250 | the display key without the id is a total preorder, and orders deadlines, priorities and names in the same way |
| `Workload.UnitsOfTime` | src/personal_deadline_management_agent/services/workload_analysis_service.py:364-365 | a day has 24 hours of 60 minutes of 60 seconds of 1000000 microseconds |
| `Workload.EntryIsExact` | src/personal_deadline_management_agent/services/workload_analysis_service.py:419-439 | a day's entry lists the tasks with deadline and duration due from its midnight to the next, as often as they are given, deadlines first, then HIGH before MEDIUM before LOW, then names; it plans the sum of their minutes |
| `Workload.PressureOfEachDay` | src/personal_deadline_management_agent/services/workload_analysis_service.py:408-444 | the entries have strictly increasing days, one for exactly each day on which a task with deadline and duration is due |
| `Workload.PressuresPartitionTasks` | src/personal_deadline_management_agent/services/workload_analysis_service.py:408-442 | the entries partition the tasks with deadline and duration |
| `Workload.MinutesAreConserved` | src/personal_deadline_management_agent/services/workload_analysis_service.py:381-444 | the minutes planned over all days, plus the durations of tasks without a deadline, equal the total |
| `Workload.OverloadIsExact` | src/personal_deadline_management_agent/services/workload_analysis_service.py:446-474 | a day is warned of if and only if more is due than the budget, once, with planned = budget + excess and excess > 0 |
| `FeasibilityWindows.WindowsAreExact` | src/personal_deadline_management_agent/services/workload_analysis_service.py:342-379 | one window for each task with deadline and duration, starting so many minutes before the deadline, in order of deadline and name, of the same total length |
| `FeasibilityWindows.PressureIsExact` | src/personal_deadline_management_agent/services/workload_analysis_service.py:476-538 | an entry is reported exactly as often as there are unordered pairs of windows with a non-empty open intersection that give it |
| `FeasibilityWindows.EntryOfAPair` | src/personal_deadline_management_agent/services/workload_analysis_service.py:498-538 | the entry of a pair has both tasks, the smaller name first, from the later of their starts to the earlier of their deadlines; they overlap exactly when that is not empty |
| `FeasibilityWindows.EachPairIsReportedOnce` | src/personal_deadline_management_agent/services/workload_analysis_service.py:492-505 | with one window per task: one entry for each overlapping pair, none for another |
| `FeasibilityWindows.ReportsAreSorted` | src/personal_deadline_management_agent/services/workload_analysis_service.py:504-510 | entries are sorted by their two names, smaller name first, and have `overlap_start < overlap_end` |
| `FeasibilityWindows.LaterStartDecides` | src/personal_deadline_management_agent/services/workload_analysis_service.py:498-502 | with positive durations and in deadline order the test reduces to the later window starting before the earlier deadline |
| `FeasibilityWindows.NoPressureMeansDisjoint` | src/personal_deadline_management_agent/services/workload_analysis_service.py:476-510 | nothing is reported if and only if the windows, in deadline order, do not overlap at all |
| `FeasibilityWindows.NoPressureIsSchedulable` | src/personal_deadline_management_agent/services/workload_analysis_service.py:342-379 | with positive durations and no pressure, starting each task at its latest start runs one at a time and meets every deadline, and the durations fit between the earliest latest start and the last deadline |
| `WorkloadAnalysis.RecommendedOrderIsStable` | src/personal_deadline_management_agent/services/workload_analysis_service.py:222-250 | the recommended order holds exactly the tasks TODO and IN_PROGRESS, by deadline with none last, HIGH before MEDIUM before LOW, and name; ties keep the order of the input |
| `WorkloadAnalysis.AnalysisFits` | src/personal_deadline_management_agent/services/workload_analysis_service.py:63-121 | the rest of the analysis is about the tasks of that order: number, minutes, windows, an entry for each day with one of them and no other day, days increasing, warnings for exactly the days over budget with their excess, and an entry for each overlapping pair of the windows |
| `WorkloadAnalysis.FilterActiveTasks` | src/personal_deadline_management_agent/services/workload_analysis_service.py:123-139 | the loop keeps the tasks TODO and IN_PROGRESS, as often as they are given |
| `WorkloadAnalysis.CalculateFeasibilityWindows` | src/personal_deadline_management_agent/services/workload_analysis_service.py:342-379 | the loop and sort give the windows the lemmas are about |
| `WorkloadAnalysis.CalculateTotalPlannedMinutes` | src/personal_deadline_management_agent/services/workload_analysis_service.py:381-394 | the loop gives the sum of the durations |
| `WorkloadAnalysis.GroupByDay` | src/personal_deadline_management_agent/services/workload_analysis_service.py:408-417 | the dictionary maps each deadline day to its tasks in order, with the keys in order of first occurrence |
| `WorkloadAnalysis.CalculateDailyPressure` | src/personal_deadline_management_agent/services/workload_analysis_service.py:396-444 | grouping, summing and sorting give the entries the lemmas are about |
| `WorkloadAnalysis.CalculateOverloadWarnings` | src/personal_deadline_management_agent/services/workload_analysis_service.py:446-474 | the loop gives the warnings the lemmas are about |
| `WorkloadAnalysis.DetectSchedulingPressure` | src/personal_deadline_management_agent/services/workload_analysis_service.py:476-510 | the nested loops and the sort give the pairs the lemmas are about |
| `WorkloadAnalysis.ConvertSchedulingPressure` | src/personal_deadline_management_agent/services/workload_analysis_service.py:512-538 | the loop gives one entry for each pair, with the bounds of its overlap |
| `WorkloadAnalysis.Analyze` | src/personal_deadline_management_agent/services/workload_analysis_service.py:63-121 | the whole analysis; it fails exactly when the total of the active tasks is negative, which the result's schema refuses |
| `ReschedulingConstraints.HasRemainingCapacity` | src/personal_deadline_management_agent/services/rescheduling_constraint_service.py:181-207 | the loop tells whether the other active tasks due that day leave room for this one |
| `ReschedulingConstraints.FindCandidateSlots` | src/personal_deadline_management_agent/services/rescheduling_constraint_service.py:46-118 | returns the feasibility window if the duration is positive and the window's first day has room, else nothing; the checks on the window's length in whole minutes never matter |
| `ReschedulingConstraints.ValidatorAcceptsWhatIsFound` | src/personal_deadline_management_agent/services/rescheduling_constraint_service.py:120-175 | the validator accepts a slot if and only if the finder returns one with the same start and end and the slot's minutes cover the duration |
| `ReschedulingCandidates.EachIdIsKeptOnce` | src/personal_deadline_management_agent/services/rescheduling_candidate_service.py:99-105 | removing duplicates keeps each id, once |
| `ReschedulingCandidates.UniqueKeepsFirst` | src/personal_deadline_management_agent/services/rescheduling_candidate_service.py:99-105 | what is kept is exactly the first task of each id |
| `ReschedulingCandidates.AnalysedLoad` | src/personal_deadline_management_agent/services/rescheduling_candidate_service.py:107-115 | the load the analysis sees on a day is the sum of the positive durations of active tasks due then |
| `ReschedulingCandidates.OthersAreTheRest` | src/personal_deadline_management_agent/services/rescheduling_constraint_service.py:193-207 | the capacity check adds up all active tasks of the day except this one |
| `ReschedulingCandidates.OverloadedDaysAreExact` | src/personal_deadline_management_agent/services/rescheduling_candidate_service.py:114-116 | the overloaded days, strictly increasing, are exactly the days with more positive minutes than the budget |
| `ReschedulingCandidates.SlotNeedsRoom` | src/personal_deadline_management_agent/services/rescheduling_constraint_service.py:107-110 | a movable task has a slot if and only if the minutes due on the slot's first day, negative ones included, and what it adds to that day fit the budget |
| `ReschedulingCandidates.OverloadedSlotsExactly` | src/personal_deadline_management_agent/services/rescheduling_candidate_service.py:107-154 | a task gets a slot starting on an overloaded day if and only if the negative minutes due that day make up for the excess and for what it adds |
| `ReschedulingCandidates.SlotsAvoidOverload` | src/personal_deadline_management_agent/services/rescheduling_candidate_service.py:107-154 | without negative durations never; and a task whose slot starts on its own deadline day gets it if and only if that day is not overloaded |
| `ReschedulingCandidates.SuggestionsAvoidOverload` | src/personal_deadline_management_agent/services/rescheduling_candidate_service.py:107-173 | the same for the suggestions and overloaded days of the result |
| `ReschedulingCandidates.NegativeDurationsHideOverload` | src/personal_deadline_management_agent/services/rescheduling_candidate_service.py:107-115 | with a negative duration a suggestion can start on an overloaded day |
| `ReschedulingCandidates.OrderOfTasksDoesNotMatter` | src/personal_deadline_management_agent/services/rescheduling_candidate_service.py:71-173 | for distinct ids every permutation of the input gives the same suggestions, overloaded days and unscheduled list |
| `ReschedulingCandidates.SuggestionsAreExact` | src/personal_deadline_management_agent/services/rescheduling_candidate_service.py:121-154 | suggested are exactly the active tasks with a slot, each for its feasibility window |
| `ReschedulingCandidates.UnscheduledAreExact` | src/personal_deadline_management_agent/services/rescheduling_candidate_service.py:121-141 | the other active tasks are unscheduled, and nothing else is |
| `ReschedulingCandidates.PlanIsSorted` | src/personal_deadline_management_agent/services/rescheduling_candidate_service.py:157-167 | both lists are in order of deadline, priority (HIGH first), name and id, the suggestions by those of their tasks |
| `ReschedulingCandidates.CandidatesAreExact` | src/personal_deadline_management_agent/services/rescheduling_candidate_service.py:71-173 | the whole result by fields: a suggestion for its feasibility window for each first task of an id that is active, has deadline and positive duration, and finds room among the others on the day its slot starts; the other active first tasks unscheduled; both lists in that order |
| `ReschedulingCandidates.TasksAreConserved` | src/personal_deadline_management_agent/services/rescheduling_candidate_service.py:99-173 | keeping the first of each id, every active task is found exactly once across suggestions and unscheduled tasks, and no other |
| `ReschedulingGeneration.KeepFirstOfEachId` | src/personal_deadline_management_agent/services/rescheduling_candidate_service.py:99-105 | the loop with the set of seen ids keeps what the lemmas are about |
| `ReschedulingGeneration.ValidTasksAreAnalysed` | src/personal_deadline_management_agent/services/rescheduling_candidate_service.py:107-115 | the analysis of the valid tasks never fails |
| `ReschedulingGeneration.SplitTasks` | src/personal_deadline_management_agent/services/rescheduling_candidate_service.py:118-154 | the loop sorts the tasks into suggestions and unscheduled ones as the lemmas say |
| `ReschedulingGeneration.GenerateCandidates` | src/personal_deadline_management_agent/services/rescheduling_candidate_service.py:71-173 | returns that result for a budget of 1 to 1440 minutes and raises ValueError for any other |

## Left out

- Language-model prompts, interpretation and response text: an interpreted proposal is arbitrary input.
- FastAPI handlers, wiring, logging, migrations, configuration, signals and sleeping.
- SQLAlchemy's identity map and its synchronisation after bulk updates: a read returns the row as it is.
- JSON, UUID and ISO text: the encoding of the stored command is taken to be reversible, an id is the number of its UUID.
- A crash that is no exception between claim and notification: the process is gone and the database rolls back.
- SchedulerSafety.SentRowsAreFrozen: takes an update as one step; with its read and write apart it is false, and `SchedulerStaleUpdates.SentRowChangesExactlyBy` is the exact statement.
- SchedulerSafety.ApiLeavesLockedRows: takes each API transaction as one step; `SchedulerStaleUpdates.LockedRowsStay` has the update in two.
- SchedulerCircles.StandStillExactlyWhenClosing: is about statements of the workers in the circle; what a commit or rollback of a worker outside it would free counts as held.
- `DeleteTask` takes the locks on all reminders of its task in one step, where the database's cascade takes them one by one and can close a circle with a worker; no deadlock between workers and the API is excluded.
- The bulk `mark_expired` takes its row locks all at once and waits for all of them; only its outcome is modelled, not the order it locks in.
- Deadlocks between chat requests: a wait may end in a database error at any time, and no progress is claimed.
- Confirm calls name a committed row or an id that never exists: ids are random and are told to a user after the commit.
- `remind_at <= deadline` is not an invariant of the table: `update_task` moves a deadline without looking at reminders.
- SUGGEST_RESCHEDULING through chat, which the validator or the resolver always refuses; the engine is modelled on its own.
- Deadline collisions and busy days: the same grouping loop as daily pressure, with a count instead of a sum.
- The utilization percentage and the explanation text.
- ReschedulingConstraints.ValidatorAcceptsWhatIsFound: lengths in minutes are exact, where the code divides floating-point seconds; rounding could matter only for slots of centuries.
- FeasibilityWindows.WindowsAreExact: instants are unbounded here, where the code raises OverflowError for a latest start before the year 1.
- Deadlines are taken to be in UTC, as the table stores them; comparing naive with aware datetimes is not modelled.
- `recommended_order` for permuted inputs: its key has no id, so ties keep the order of the input.
