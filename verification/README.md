# sicim: a verified model

sicim is a durable workflow runtime. A workflow body runs against a context whose operations (steps, child
workflows, timers, waits for signals, recorded values, tags, saga compensations) are journaled; after a crash the
body runs again from the top, and every operation whose outcome is journaled returns it instead of acting. This
project models that engine and the protocols around it, and proves what they promise, for all bodies, all inputs and
all schedules.

## How it is laid out

* **The engine as a transition system.** `Events.dfy` has the journal's events and the questions asked of a log;
  `Engine.dfy` has one run: the durable state (what the store's tables hold), one driver's volatile state, and the acts
  that change them. Each act writes the store at most once, so a crash can fall between any two writes; a `lost` act is
  a crash between an effect and its append. A body is any function from outcomes so far to its next move: a batch of
  operations (one for a plain await, several for a gather), a return, an error, or a continue-as-new.
* **Its invariant.** `Lanes.dfy`, `Paths.dfy`, `Invariant.dfy`, `Preservation.dfy` and `Endings.dfy` show act by act what
  every reachable state keeps; `Replays.dfy` and `Resuming.dfy` say where a body gets to on what is recorded, and how.
  `Rewind.dfy` and `Signals.dfy` show that a reset keeps it too, `Patching.dfy` that changed code may take over a run that
  was reset, and `Reachability.dfy` puts acts, resets and takeovers together.
* **What follows.** `CrashSafety.dfy`, `Effects.dfy`, `Reports.dfy`, `Answers.dfy`, `Deadlines.dfy`,
  `Clocks.dfy`, `Saga.dfy`, `Failures.dfy`, `UndoOrder.dfy`, `Transparency.dfy`, `Divergence.dfy`, `Reopening.dfy` and
  `TagView.dfy` state the promises over whole runs; `Acts.dfy` says which act writes which event.
* **Classes and loops.** `Stores.dfy`, `Context.dfy` and `Runtime.dfy` are the store, the journal with its indexes, the
  workflow context, the driver and `reset` as classes and methods with loops. Their contracts say that every method
  takes only moves of the transition system (`LiveSteps.dfy` has the moves), so the theorems above hold of them.
* **Around it.** `Calendar.dfy`, `Cron.dfy`, `CronParsing.dfy`, `CronFields.dfy`: cron. `Ticks.dfy`, `Scheduling.dfy`: the
  scheduler.
  `Workers.dfy`: leases, heartbeats and guarded appends. `Cluster.dfy`: those and the engine together. `Chains.dfy`:
  continue-as-new chains and pruning.
  `TagSearch.dfy`: the tag index.

## Where the code does something else than it says

* `sicim/schedule.py:206` calls an interval drift-free. `_fire_schedule` (`sicim/runtime.py:1116`) counts the next firing
  from `max(fire_at, now)`, and a due tick has `fire_at <= now`, so every delay is kept for good
  (`Scheduling.IntervalsDriftByTheirDelays`).
* `resume_schedule` (`sicim/runtime.py:708-715`) reads the clock and writes without a compare-and-set. Overtaken by a firing
  it puts a fire time back that was advanced past already (`Scheduling.OvertakenResumeRepeatsATick`); it does so exactly
  when the last write since the clock was read was computed from an instant that had passed that fire time
  (`Scheduling.StepKeeps`).
* `reset` refuses a run recorded as CONTINUED, but not one that died between creating its successor and that record
  (`Reachability.RewindMissesASuccessor`). The successor then stays, and a rewound run that continues again finds it there
  with the old arguments.
* The documentation of sicim promises that compensations run last-in first-out (`README.md:93`). Every drive rebuilds the
  stack in the order operations come back, and those of a gather come back as they complete when live, and in the order
  gather was given them on replay. So a run may compensate an earlier step before a later one (`UndoOrder.GatherReorders`).
  The promise holds under every schedule exactly when each batch of the run registered at most one compensation
  (`UndoOrder.LastInFirstOutExactly`), as without gather (`Saga.OneUndoIsLone`), and otherwise in the runs where the
  compensated operations of a gather come back in the order they were requested in (`Saga.SagaRunsBackwards`). What is
  compensated, and which failures are listed, does not depend on any of this (`Saga.SagaIsComplete`).
* Run ids `x` and `x#1` both continue as `x#2` (`Chains.OneContinuesLikeItsBase`), as do all ways to write one number of
  one chain and no others (`Chains.NextIsInjective`), and pruning steps back past ids that
  are not canonical (`Chains.PredecessorInvertsNext`).
* With a limit of 0 or below, the in-memory store and the SQLite store return different runs (`TagSearch.SearchesAgree`).
* The module documentation of `sicim/journal.py:12-17` lists five defining kinds; the code has seven. The model follows
  the code.

## Model

| member | source | states |
|---|---|---|
| Transparency.CrashesAreInvisible | sicim/context.py:213-364 | from its creation, a rewind, a takeover by changed code or any crash on: every run, however often it crashes, loses work and resumes, has the journal, outcome, successor and inbox of a run driven on once without any interruption; the one condition is on bodies that raise after a gather registered several compensations: those operations come back in the order they were requested in |
| CrashSafety.NeverDiverges | sicim/context.py:213-227 | no resume of an unchanged body, gather or not, ever finds a recorded operation that does not match, under any schedule of crashes and rewinds, also after changed code took the run over |
| CrashSafety.BodySeesTheJournal | sicim/context.py:318-326 | at any moment the outcomes a body has received are a prefix of what evaluating it against the journal's recorded outcomes yields |
| CrashSafety.LiveOnlyAtTheEnd | sicim/context.py:318-326 | only operations behind all recorded history act live |
| CrashSafety.ReplaysAgree | sicim/journal.py:1-17 | later replays give the body everything earlier ones gave it |
| CrashSafety.OutcomeIsTheBodys | sicim/runtime.py:921-1007 | a terminal record is what the body, evaluated against the recorded outcomes, does in the end |
| CrashSafety.OutcomeIsJournaledFirst | sicim/runtime.py:946-1007 | a terminal record always has a terminal event with the same payload before it (failures as a multiset, as a gather's order may differ), and a journal never holds two terminal events |
| Effects.InvocationsMatchAttempts | sicim/context.py:323-364 | at-least-once, exactly: each function is invoked once per journaled attempt plus at most once per crash that fell between effect and append |
| Reports.AttemptsWereMade | sicim/context.py:323-364 | under any schedule of crashes, rewinds and changes of code each attempt in the journal, of a step or a compensation, stands for an invocation that was really made: same operation, same number, begun before, its reply journaled as the policy says; and no invocation is journaled twice |
| Reports.NobodyGivesUpEarly | sicim/retry.py:36-41 | what failed for good, step or compensation, had made exactly max(1, max_attempts) attempts, or its last reply was an error of a final class; no attempt follows a reply of such a class, and every retry was within the budget |
| Reports.ChildOutcomesWereGiven | sicim/context.py:574-589 | under any such schedule each child outcome in the journal is an answer of the very run that the operation's CHILD_SCHEDULED names, at most one for an operation |
| Answers.BodiesGetTheAnswers | sicim/context.py:311-326 | each outcome a body is given, on replay as when live, is what was answered: a step's value or last error came back from a call, a child's from its run, a wait's payload from a delivered signal that this operation consumed, a tag update is the one asked for |
| Answers.ObservedOnce | sicim/context.py:726-732 | what the world gave when a value was journaled is what every later drive is given, until a rewind drops it |
| Answers.ChildrenGetTheirOwnIds | sicim/context.py:509-518 | a child run gets the id asked for, and else one that no other operation of this or any other parent gets |
| Effects.RecordedIsNeverInvoked | sicim/context.py:318-326 | from any state on, once a step's outcome is journaled no crash schedule invokes it again, also while other operations of its gather are still under way |
| Effects.SettledIsNeverInvoked | sicim/context.py:409-416 | once a compensation's outcome is recorded, no crash schedule invokes it again |
| Effects.NoRetryIsEarly | sicim/context.py:194-211 | from the creation of a run or from any rewind on, under any schedule of crashes, no retry of a step or a compensation starts before the retry time its predecessor journaled |
| Effects.RedriveIsIdempotent | sicim/runtime.py:904-1007 | driving a finished run again appends nothing, invokes nothing, creates no successor and writes the same outcome again |
| Effects.OneSuccessor | sicim/runtime.py:946-976 | a continuing run has one successor, however often its end is cut short, created with the arguments the body continued with |
| Deadlines.StepsStayWithinBudget | sicim/retry.py:29-41 | a step's attempts are numbered 1, 2, 3, ... without gaps, the last at most max(1, max_attempts), each backoff no longer than the widest wait of its number and waited out before the next attempt is journaled |
| Deadlines.CompensationsStayWithinBudget | sicim/context.py:417-450 | the same for the attempts of every compensation |
| Deadlines.TimersAndTimeoutsKeepTheirDeadline | sicim/context.py:599-613 | a timer's deadline is journaled once, TIMER_FIRED is never recorded before it; a timeout is recorded at or after its deadline and never beside a consumed signal |
| Clocks.SleepsAreLongEnough | sicim/context.py:599-613 | on the clocks of the acts: when a sleep is journaled as over, after any crashes, resumes and rewinds, the clock has moved on since it was journaled as begun by at least the seconds the body asked for |
| Clocks.TimeoutsAreLongEnough | sicim/context.py:628-684 | only a wait with a timeout times out, and only when the clock has moved on by at least that much |
| Clocks.DueWorkIsDone | sicim/context.py:318-364 | nothing stalls: a live action of an unfinished operation adds one event of it exactly when something is due (it is not opened yet, its backoff is over, its timer or deadline has come, its signal is there, its child answers) and else changes nothing |
| Clocks.DueUndoIsDone | sicim/context.py:409-450 | the same for the compensation that is next |
| Retry.DelayIsCapped | sicim/retry.py:29-34 | for policies of any numbers: no draw takes a wait below 0 or above the widest wait, which one draw gives, and which is at most max_interval * (1 + abs(jitter)) unless a negative delay meets a jitter above 1 |
| Retry.BackoffGrows | sicim/retry.py:29-34 | with a backoff factor of at least 1 the waits never shrink and stay at the cap once they reach it |
| Retry.WaitsMultiply | sicim/retry.py:29-34 | the first wait is the initial interval, each further one the former times the backoff, up to the cap |
| Saga.SagaRunsBackwards | sicim/context.py:401-450 | across crashes, rewinds and changes of code compensations run last-in first-out, under every schedule where each batch registered at most one, and else while the compensated operations of each gather come back in the order they were requested in: outcomes in strictly decreasing op order, none touched before all later registered ones are settled, failures listed in that order |
| Saga.OneUndoIsLone | sicim/context.py:736-742 | on every path of a body without gather, or with at most one compensated operation in each, each batch registers at most one |
| UndoOrder.LastInFirstOutExactly | sicim/context.py:401-411 | the exact condition: from a reachable run whose body raised and that has not begun to compensate, every schedule of crashes and resumes compensates last-in first-out if and only if each batch registered at most one compensation |
| UndoOrder.StackIsFixed | sicim/context.py:300-316 | for every reachable run whose body is done: all drives rebuild the same stack of compensations if and only if each batch registered at most one |
| UndoOrder.GatherReorders | sicim/context.py:736-742 | every body that gathers two compensated steps and raises after both succeeded has a run, from its creation and without any interruption, that compensates the first step before the second |
| Saga.SagaIsComplete | sicim/runtime.py:982-1002 | under every schedule, gather or not, a failed run has settled a compensation for exactly the operations that registered one, is FAILED exactly when none of them failed permanently, and else lists exactly the failed ones, in order where compensations ran last-in first-out |
| Failures.FailedRunsAreUndone | sicim/context.py:401-450 | said from requests, outcomes and events: in a failed run exactly the steps and children that carry a compensation and succeeded, and the registrations, were undone, each by its own compensation; the record lists exactly the permanent failures in the journal, in its order where compensations ran last-in first-out |
| CrashSafety.FailureListsAgree | sicim/context.py:300-316 | with gather the order of the compensation stack may differ between drives, but every order yields the same failures |
| Divergence.DivergenceIsHarmless | sicim/runtime.py:977-981 | resuming with changed code whose first mismatch is at a recorded operation invokes nothing, appends nothing, leaves record, tags and successor alone, and the original code can take the run up as if nothing had happened |
| Divergence.MismatchIsFound | sicim/context.py:213-227 | such a resume does get to the mismatch, and the live action there ends the driver with nothing written |
| Divergence.OpeningFits | sicim/context.py:213-229 | what one operation journaled first is accepted for another request exactly when both are the same kind of operation and, where they have one, have the same name |
| Divergence.ChangedRequestStops | sicim/context.py:213-229 | over runs: at an op id where a run recorded something, a live action of changed code ends the driver with nothing written exactly when that code asks there for another kind or name than the run did |
| Divergence.MismatchIsAnotherRequest | sicim/context.py:213-229 | the first mismatch of a resume is the first operation, along the recorded outcomes, that asks for something else |
| Divergence.ChangedCodeIsStopped | sicim/runtime.py:977-981 | a resume with code that asks for something else at a recorded op id gets there and ends there, and however often it is tried nothing durable but the inbox changes |
| Reachability.SignalsAreConsumedInOrder | sicim/context.py:645-659 | across crashes, rewinds and changes of code no signal is consumed twice, consumed signals of a name are a prefix of the inbox for that name, a set flag implies a journaled consumption, and with one wait per name at a time, as in every body without gather, later waits get later signals |
| Signals.ResetKeepsSignals | sicim/runtime.py:503-507 | a rewind gives back exactly the signals whose consumption it drops, and what stays consumed is still a prefix for each name |
| Signals.ResetKeepsInvariant | sicim/runtime.py:462-516 | a rewound durable state satisfies the replay invariant again exactly when the run had not created a successor |
| Rewind.ResetKeepsJournal | sicim/runtime.py:465-502 | a rewind to any operation, in any status, leaves a journal that satisfies the replay invariant, at the last batch boundary at or below the operation |
| Rewind.RewoundLanes | sicim/runtime.py:469-502 | operations below the target keep their events, those at or above it and all compensations have none, terminal events are gone, the audit marker is last |
| Rewind.RewindIsRefused | sicim/runtime.py:451-468 | a reset is refused exactly for a continued run and, unless forced, for one that completed a compensation; without a target it goes to the operation of the earliest failure event, or to 0 |
| Reopening.RewoundRunResumes | sicim/runtime.py:413-420 | replaying a rewound run gives the body exactly the recorded outcomes below the target and is live from there on |
| Reopening.FixedCodeMayResume | sicim/runtime.py:412-420 | code that agrees with the old one on the run's recorded history below the target may drive the rewound run, gather or not: the state it takes over satisfies the whole invariant for the changed code and counts as reachable for it, so every theorem on reachable states holds from there on, and replay gives it the outcomes recorded below the target |
| Patching.ResetServesBoth | sicim/runtime.py:412-420 | where two bodies agree on the recorded history below the target, what a rewind leaves satisfies the invariant of both |
| Reachability.RewindMissesASuccessor | sicim/runtime.py:452-456 | a run stopped between creating its successor and recording CONTINUED is not refused a rewind, which leaves the successor behind |
| TagView.StoredTagsFollowTheJournal | sicim/context.py:183-192 | from the creation of a run, from a rewind or from a takeover by changed code on: the stored tags are what they were there with every update journaled since applied once, in order, or one update ahead while that one is being made |
| TagView.TagsAreTransparent | sicim/context.py:183-192 | from there on, once a run has ended its stored tags are those of an uninterrupted run |
| Stores.MergeTwice | sicim/store.py:84-92 | applying a tag update again changes nothing |
| Stores.MergeSets | sicim/store.py:84-92 | a tag that is set has the new value, one that is dropped is gone, any other is as it was |
| Stores.Merged | sicim/store.py:84-92 | setting and dropping key by key yields exactly the merged map |
| Stores.RunStore.AppendEvent | sicim/store.py:874-882 | an event is accepted exactly when its sequence number is free, and then the log grows by it |
| Stores.RunStore.NextUnconsumedSignal | sicim/runtime.py:1167-1177 | finds the first signal of the name that is neither flagged nor excluded |
| Journals.Journal.constructor | sicim/journal.py:107-126 | rebuilding from any event list gives indexes that answer as a scan of the list does |
| Journals.Journal.Absorb | sicim/journal.py:128-142 | keeping the indexes up to date event by event equals rebuilding them |
| Journals.Journal.Append | sicim/journal.py:164-175 | store first, memory second: accepted exactly when the journal in memory is the whole stored one, and then both grow by the same event |
| Journals.Journal.AppendOnce | sicim/journal.py:177-182 | appends nothing when an event of the kind is there |
| Contexts.WorkflowContext.Expect | sicim/context.py:213-229 | answers with the operation's first defining event and finds a mismatch exactly when that event opened an operation of another kind or name |
| Contexts.WorkflowContext.Step | sicim/context.py:270-364 | a step takes only moves of the transition system and ends with the recorded outcome, the compensation registered only if it succeeded |
| Contexts.WorkflowContext.Attempts | sicim/context.py:328-364 | the retry loop: attempts counted on from the journal, backoffs waited out, one event per attempt |
| Contexts.WorkflowContext.Child | sicim/context.py:494-591 | a child operation takes only moves of the transition system and ends with the child's recorded outcome |
| Contexts.WorkflowContext.Sleep | sicim/context.py:599-613 | a timer takes only moves of the transition system and comes back only once it is recorded as fired |
| Contexts.WorkflowContext.WaitEvent | sicim/context.py:628-684 | a wait takes only moves of the transition system and ends with a consumed signal or a recorded timeout |
| Contexts.WorkflowContext.Value | sicim/context.py:726-732 | the first observed value is the one every replay returns |
| Contexts.WorkflowContext.Tag | sicim/context.py:183-192 | store first, journal second; replay applies the journaled update, and the body's view is the pinned tags with every update it has received |
| Contexts.WorkflowContext.Pin | sicim/runtime.py:917-921 | the body sees the tags journaled when the run started, never later edits |
| Contexts.WorkflowContext.AddCompensation | sicim/context.py:394-399 | registers the compensation on the stack live and on replay alike |
| Contexts.WorkflowContext.RunCompensations | sicim/context.py:401-450 | settles every registered compensation, last-in first-out, and returns exactly the failures of the stack |
| Runtimes.Drive | sicim/runtime.py:904-1016 | whatever happens during a drive, the store holds exactly what some run of the transition system leaves there; a drive that ends leaves a terminal record, and code is found changed only on a journal it could not have written |
| Runtimes.Finish | sicim/runtime.py:946-1007 | the end of a run: terminal event, then successor, then record, each at most once |
| Runtimes.DrivenIsReachable | sicim/runtime.py:904-1016 | a drive from a reachable state ends in a reachable one whose outcome is the body's |
| Resetting.ResetTo | sicim/runtime.py:404-516 | the writes of a reset add up to the rewind proved above, or refuse and change nothing |
| Resetting.Split | sicim/runtime.py:469-488 | sorts the history into kept and dropped events and renumbers the kept ones from 0 |
| Resetting.FirstFailedOp | sicim/runtime.py:465-468 | the default target is the operation of the first failure event, else 0 |
| LiveSteps.EngineIsOrderly | sicim/journal.py:12-17 | in every journal the engine writes each operation's events start with its defining event |
| Events.DefiningInLane | sicim/journal.py:159-160 | the defining event of an operation is decided by that operation's events alone |
| Cron.NextAfter | sicim/schedule.py:179-201 | the nested day, hour, minute and second search equals scanning second by second from the instant after the given one to the end of the search |
| Cron.FirstOnDay | sicim/schedule.py:185-199 | the nested loops over hours, minutes and seconds find the earliest allowed clock time from a start on, if any |
| Cron.SearchIsLongEnough | sicim/schedule.py:44-47 | an expression that fires at all, ever, fires within the 366*9-day search from any instant |
| Cron.GivesUpOnlyOnTheUnsatisfiable | sicim/schedule.py:159-160 | the search finds nothing from an instant exactly when the expression never fires at all |
| Cron.NextFiringIsMonotone | sicim/schedule.py:179-201 | later starts give no earlier firings, and any start short of a firing gives that firing |
| Cron.FiresWhen | sicim/schedule.py:168-177 | on the clock and the calendar: the time is in the fields' sets and so is the month; two plain lists of days allow a day that is in either, a star in one leaves the days to the other, two stars allow all |
| CronParsing.Parse | sicim/schedule.py:130-161 | accepts only expressions that fire again after every instant, and refuses only malformed ones and ones that never fire |
| CronParsing.ParseText | sicim/schedule.py:130-161 | the same from the text: an alias counts as its expression, and blanks around and between the fields do not matter |
| CronParsing.BlanksSeparate | sicim/schedule.py:132-132 | any stretch of blanks separates words, however long |
| CronParsing.WordIsOne | sicim/schedule.py:132-132 | text without a blank is one word |
| CronParsing.ParseField | sicim/schedule.py:79-112 | a field denotes the union of its parts' stepped ranges, refused exactly when some part is malformed or out of range; what parts mean is in CronFields.PartMeans |
| CronFields.PartMeans | sicim/schedule.py:93-111 | a star, a value or a range, written with numerals or names, with or without a step, is read as exactly every so many values from its first to its last, and refused out of range |
| CronFields.ReadIsPart | sicim/schedule.py:93-111 | any text that is not such a part is refused |
| CronFields.FieldMeans | sicim/schedule.py:92-112 | parts joined by commas mean what one of them means, and are refused if one is out of range |
| CronFields.ReadIsField | sicim/schedule.py:92-112 | any other text is refused as a field |
| CronFields.MonthsAreCounted | sicim/schedule.py:28-33 | the names of the months count from 1 |
| CronFields.DaysAreCounted | sicim/schedule.py:34-34 | the names of the days count from Sunday, 0 |
| CronParsing.DenotedIsValid | sicim/schedule.py:140-158 | every field of a well-formed expression has a value and all its values are in range, 7 read as Sunday |
| Calendar.DateOfNumber | sicim/schedule.py:179-200 | counting days and reading dates are inverse on the Gregorian calendar |
| Calendar.DayRecurs | sicim/schedule.py:44-47 | every month and day that exists in some year, February 29 included, comes again within 3287 days of any day |
| Calendar.WeekdayRecurs | sicim/schedule.py:44-47 | every weekday comes again in every month within 3293 days of any day |
| Calendar.EpochIsThursday | sicim/schedule.py:168-170 | days are anchored at Thursday, 1970-01-01, and days of the week follow each other |
| Ticks.OneIdPerTick | sicim/schedule.py:319-327 | two ticks share a run id exactly when they are of the same schedule and the same millisecond |
| Scheduling.TicksFireOnce | sicim/runtime.py:1104-1148 | with any number of workers, stale snapshots and crashes, at most one run record per tick and a recorded last run exists; the next fire time never moves back exactly when no resume is overtaken, which holds whenever no write that changes it falls inside a resume; then each fire time is advanced past at most once, in order |
| Scheduling.StepKeeps | sicim/runtime.py:1104-1148 | of all acts exactly a resume takes the next fire time back since whose reading of the clock it was written again, the last time from an instant that had passed the firing the resume writes |
| Scheduling.EarlierMeansPassed | sicim/schedule.py:205-256 | counting from one instant gives an earlier firing than counting from another exactly when the other has passed it (for intervals: is later) |
| Scheduling.AdvancedIsNotDue | sicim/store.py:591-606 | a compare-and-set succeeds only on the expected fire time and leaves the schedule no longer due at the worker's own time |
| Scheduling.PausedStopsFiring | sicim/runtime.py:703-706 | while a schedule is paused no run is started but for fire times a worker had picked up before, whatever any number of workers do |
| Scheduling.ResumeSkips | sicim/runtime.py:708-715 | a resume goes on with a firing after the clock reading it was computed from, so ticks missed while paused are skipped |
| Scheduling.UnchangedNextIsNotOvertaken | sicim/runtime.py:708-715 | a resume that finds the next fire time as it was when it read the clock does not take it back, whatever was written in between |
| Scheduling.OvertakenResumeRepeatsATick | sicim/runtime.py:708-715 | a resume overtaken by a firing makes a fire time be advanced past twice, still with one run record |
| Scheduling.NextAfterIsMonotone | sicim/schedule.py:205-256 | for every kind of spec later times give no earlier firings |
| Scheduling.FirstFiringIs | sicim/schedule.py:205-256 | a new schedule first fires one interval after its creation, at its one instant, or at the first second after its creation that its cron expression matches, which exists unless it never fires |
| Scheduling.IntervalsDriftByTheirDelays | sicim/schedule.py:204-218 | an interval drifts by the sum of its firings' delays and keeps its grid exactly when there were none |
| Firing.ScheduleStore.FireSchedule | sicim/runtime.py:1104-1148 | one worker's handling of a tick is a skip, a start and an advance, or, with the workflow unknown here or an error, a start at most and the tick left due, in the scheduler above |
| Firing.ScheduleStore.ResumeSchedule | sicim/runtime.py:708-715 | a resume's write is the scheduler's, from the instant the clock was read |
| Firing.ScheduleStore.UpdateSchedule | sicim/store.py:591-606 | sets exactly the given columns, and with an expected next fire time only if it is the row's |
| Workers.JournalsNeverFork | sicim/journal.py:164-169 | over all interleavings, even when lease exclusivity fails, stored sequence numbers stay 0..n-1, the stored journal only grows and every driver's journal is a prefix of it |
| Workers.AcceptedMeansCurrent | sicim/store.py:874-882 | an append is accepted exactly when the driver's journal is the whole stored one, and a refused one changes nothing |
| Workers.OneDriver | sicim/runtime.py:856-893 | with heartbeats in time, over all interleavings of claims, renewals, releases, crashes and takeovers, at most one driver is alive anywhere and its journal is the stored one |
| Workers.LateHeartbeatAdmitsTwo | sicim/runtime.py:1018-1032 | a worker that misses heartbeats for longer than its lease lasts can be joined by a second driver |
| Clusters.ManyDriversKeepOneRun | sicim/journal.py:164-169 | whatever the clocks do, with any number of drivers on one run, each acting on its own stale journal and losing the appends the primary key refuses: what is stored satisfies the engine's whole invariant, its journal only grows, a terminal record is what the body does, and every driver works on an earlier stage of the journal |
| Clusters.ClusterIsOneRun | sicim/runtime.py:856-893 | with heartbeats in time, everything the workers do to a run is one run of the engine's transition system with the one running driver, so all that is proved of it holds |
| Workers.LeaseTable.TryAcquire | sicim/store.py:541-547 | a lease is taken exactly when it is free, one's own or expired |
| Workers.LeaseTable.Renew | sicim/store.py:549-554 | a lease is renewed exactly by its owner |
| Workers.LeaseTable.Release | sicim/store.py:556-559 | a lease is removed exactly by its owner |
| Chains.PredecessorInvertsNext | sicim/runtime.py:76-80 | the id computed when pruning steps back inverts the continue-as-new id exactly on canonical ids: no number, or a number of at least 2 without leading zeros |
| Chains.NextCountsUp | sicim/runtime.py:76-80 | continuing keeps the base and counts the number up by one, so chains have no cycles |
| Chains.NextIsInjective | sicim/runtime.py:76-80 | two ids continue as the same id exactly when they are the same number of the same chain, however written |
| Chains.CanonicalNextIsInjective | sicim/runtime.py:76-80 | so two canonical ids continue as the same id exactly when they are the same |
| Chains.OneContinuesLikeItsBase | sicim/runtime.py:76-80 | `x` and `x#1` both continue as `x#2` |
| Chains.ContinuingKeepsLinked | sicim/runtime.py:955-969 | a CONTINUED record always points at a record created before it |
| Chains.FollowChain | sicim/runtime.py:762-770 | following a chain ends at its one live end, and the guard against cycles never has anything to do |
| Chains.TailIsUnique | sicim/runtime.py:762-770 | a chain has one live end |
| Chains.ChainStore.PruneChain | sicim/runtime.py:772-803 | a walk leaves exactly the newest chain_keep finished links with journal and inbox, touches nothing else, and keeps the pruned links the oldest ones |
| Chains.WalkIsTheChain | sicim/runtime.py:785-800 | in a chain that started at a canonical id the walk visits every link, newest first |
| TagSearch.RunTable.UpdateTags | sicim/store.py:828-846 | after an update the tag index holds exactly the pairs of the runs' tags |
| TagSearch.RunTable.CreateRun | sicim/store.py:727-757 | a run is created exactly when its id is free, together with its index rows |
| TagSearch.RunTable.DeleteRun | sicim/store.py:812-818 | a deleted run leaves no index rows |
| TagSearch.RunTable.ListIndexed | sicim/store.py:330-364 | the indexed query selects the wanted runs by creation time and id, up to the limit |
| TagSearch.OrderIsUnique | sicim/store.py:359-360 | creation time and id leave one order of the runs, so both backends list them alike |
| TagSearch.SelectedAre | sicim/store.py:330-364 | both searches list, before the limit, exactly the runs whose status, workflow, parent and tags match, oldest or newest first by creation time and then by id |
| TagSearch.RunTable.ListFiltered | sicim/store.py:497-514 | the in-memory filter selects the wanted runs by creation time and id, stopping once there are enough |
| TagSearch.SearchesAgree | sicim/store.py:497-514 | the two agree exactly when there is no limit, a positive one, or too few hits for it to matter |

## Left out

- Runtimes.Drive: drives bodies without gather; interleaved branches are covered by the transition system, not by this method.
- Contexts.WorkflowContext.Sleep: waiting ends at or after the deadline, as the clock shows it; wake-ups that come early, and clocks that are set back, are not modelled.
- Contexts.WorkflowContext.Child: the child's run is an answer of the world; starting it, following its chain and its lease are in the modules about those.
- Transparency.CrashesAreInvisible: where a body raises after a gather registered several compensations, only for runs in which those come back in turn; once a run has ended, a stale drive may still flag a consumed signal that the mirror has not flagged. Stored tags are in TagView.TagsAreTransparent.
- UndoOrder.LastInFirstOutExactly: recorded operations of a gather may come back in any order; the code's event loop gives them back in the order the call to gather lists them, which the model does not fix.
- TagView.StoredTagsFollowTheJournal: for bodies that gather no tag update with other operations; a rewind leaves the stored tags as they are, dropped updates included, and the theorem counts from there.
- Reports.AttemptsWereMade: an invocation's function and arguments are what the body gives for the operation; that their values are the same after a crash is the body's determinism.
- Signals.ResetKeepsSignals: for bodies that never wait twice for one name at the same time; otherwise a reset may leave a gap in the consumed prefix.
- Divergence.DivergenceIsHarmless: for mismatches at an operation awaited alone, and for bodies that do not catch the error themselves; in a gather, other operations of the batch may append their own events before the mismatch is found.
- Resetting.ResetTo: deletion of child runs, leases and the stopping of a local driver are not part of it, and it is one step to others.
- CronParsing.ParseText: signs and underscores in numbers, and blanks, letters and digits outside ASCII, are not modelled.
- Cron.NextAfter: UTC only, whole seconds since 0001-01-01, without the library's last year 9999.
- Scheduling.TicksFireOnce: one schedule without deletion or re-creation; liveness of the previous run is an answer of the world, so nothing is said about how exact `overlap="skip"` is.
- Workers.OneDriver: assumes heartbeats renew before expiry, also while a driver is being spawned; without it see Workers.LateHeartbeatAdmitsTwo.
- Workers.JournalsNeverFork: without resets and history deletion.
- Clusters.ManyDriversKeepOneRun: without resets, which claim the lease first; what a driver does after a refused append is any set of calls, answers and tags, but no write to record or inbox, as those come after an append.
- TagSearch.RunTable.ListIndexed: rows are read one by one; how the query is planned is not modelled.
- Chains.PredecessorInvertsNext: ids are matched on ASCII digits; that the code's pattern also takes digits outside ASCII, a newline after the number and no newline before it is not modelled.
- Chains.ChainStore.PruneChain: errors of the store during pruning, which are logged and swallowed, are not modelled.
- Cancellation, in every form.
- A gather that goes on after one of its branches failed, other than by waiting for all of them.
- Stepped stars in cron's day fields: the code treats them as unrestricted, and the model takes that as the meaning of a matching day.
- Interval and duration parsing, validation of tags and arguments, migrations, registry look-ups.
- HTTP, server-sent events, the user interface, the command line, telemetry, notification channels.
- JSON text and floats: values are opaque canonical texts, times and delays are real numbers.
