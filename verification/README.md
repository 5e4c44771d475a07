# tactus: a model of its event log, run state, lock and resolvers

tactus drives coding agents over a plan of tasks. A run is a log of events; the state of the run is the fold of that
log; and crash, resume, status and export all rest on the two agreeing. This project models that core and proves what
it promises, in linked machines and two small printing cores.

**The run.** `Events` is the vocabulary of the log and its fold, `RunState` the object that is updated in place and
proved equal to the fold, `Ladder` the decision after a failure, `Decisions` the three accounts of such a decision (how
it is written, how a reader checks it, how the exporter checks it). `Writer` is the engine as a step relation: which
event a live, resuming or finished process may append next, with a process death allowed between any two appends. `Runs`
proves the invariant of that relation, `Spending` the allowance ledger and the exact attempt bound, `Lifetime` the bill
of a whole run across parks and answers, `Histories` what the log of a run says about itself, `Join` the exporter's
matching of starts and settlements, `Schema` the check every whole-log reader makes, and `Legacy` the older encoding of
a settlement, its equivalence with the current one, and the detector for half-written ones.

`Readback` reads every field of the state straight from the log, without the fold, `Identity` spells out which headers,
settlements and events a reader takes, `Debts` what an older log owes, `Endings` why tasks fail and what still happens
after a halt, and `Recovery` shows that any run can be taken up again and that one goes through.

**The file.** `EventLog` is the byte file: reading, opening with repair, appending. `LogWorld` is the same file as a
machine of single steps (a line is written in arbitrary pieces, and the writer may die after any of them), `LogTail` the
incremental reader under any interleaving with it, and `Snapshot` the reader that pairs bytes with a liveness answer.
`LiveLog` puts the engine and the file together: the process that writes those bytes is the engine of `Writer`.
`LockedLog` puts many processes, their lock and the file together, and proves of the lock what the one-writer machine and
the snapshot take for granted.

**The lock.** `RunLock` interleaves the statements of threads of many processes over per-process claims and one `fcntl`
lock, as IEEE Std 1003.1 defines it: a lock belongs to a process and goes away when that process closes any descriptor
of the file.

**Folds and resolvers.** `Capacity` (with `Tallies`), `Route`, `Review`, `Catalog` and `Config`.

**Printing.** `Calendar` and `Rfc3339` for timestamps, `Csv` for the exporter's table.

JSON, glob matching, adapters, liveness of the file system and the success of system calls are parameters. A line of the
log says a record, and `EventLog.Sound` is what is assumed of records: reading a line back gives its record, and its text
is valid, not blank and free of raw line breaks (section 7 of RFC 8259). Nothing of the kind is assumed of events: an
engine may have in memory what no line can say (src/events.rs:1545-1553), and what it goes on with is what its line is
read as. `LiveLog.EveryRunCanBeLived` shows that this asks for nothing a run cannot have.

Eight results are stated as equivalences because the property as one might first put it does not hold everywhere:

- `Decisions.ValidatorAcceptsTheLadder`: the reader's check accepts more than the engine can write, in exactly six ways:
  an attempt that ran without a chain, an attempt that failed its task outright, an escalation to any rung but the next,
  a deferral counted as none, a retry that resumes a conversation nobody had, and a tier or reason that is not the
  attempt's own. `AllSixGapsAreReal` has an input for each. The third folds back to a rung left behind, and the fourth
  forgets the deferrals so far.
- `Capacity.LedgerIsConserved`: the ledger's attempts add up to its lines if and only if no pool has more than a 32-bit
  counter holds, and its unpriced attempts likewise; its dollars always do.
- `Schema.NoDigestMeans`: an accepted log at schema 3 names the bytes of its plan unless an older run was upgraded and
  stopped before the resume that completes the upgrade; status refuses exactly that one for want of a digest.
- `LockedLog.FreeIsExact`: a probe's "not running" is true if and only if the process that asks does not have the lock
  itself. The ownership condition alone does not give that.
- `Legacy.ExpansionPreservesFold`: the older encoding folds to the same state except when a parked settlement names a
  task the plan does not have.
- `RunLock.OwnershipIsExact`: a lock is kept for as long as its holder believes it is, unless a probe closes the lock
  file in the holder's own process. `ProbeGivesTheRunAway` is an interleaving in which that ends with two holders, and
  `LockedLog.StrayCloseLosesAnEvent` one in which they then lose an acknowledged event.
- `Rfc3339.WrittenThenRead`: the exporter accepts the writer's timestamps up to the last second of year 9999.
- `Csv.CsvRoundTrip`: printing and parsing round-trip if and only if every record has at least one field.

## Model

| member | source | states |
|---|---|---|
| RunState.RunState.Apply | src/events.rs:1069-1270 | Folding one event in place gives exactly the state the fold gives it, whatever the event, for tasks inside and outside the plan |
| RunState.RunState.ApplyFinished | src/events.rs:1177-1214 | A settlement with its decision and its parking is applied in one go, and reads neither the rung nor the profile nor the prepared commit |
| RunState.RunState.ApplyLadderRetry | src/events.rs:1288-1301 | A retry adds one line of feedback, sets whether the conversation resumes, and touches no other task |
| RunState.RunState.ApplyLadderEscalated | src/events.rs:1303-1321 | An escalation moves the rung, resets the allowance and drops the session of that task alone |
| RunState.RunState.ApplyTaskDeferred | src/events.rs:1323-1335 | A deferral refunds the attempt, drops the session and takes the recorded count |
| RunState.RunState.ApplyTaskFailed | src/events.rs:1337-1350 | A failure marks the task and halts the run if it says so, the first one winning |
| RunState.RunState.AnswerQuestion | src/events.rs:1356-1433 | The first answer to a question is kept and, if it has words, releases exactly the named tasks that still wait on that question; a second answer changes nothing. What a released task is told is said by Readback.AnswersTell |
| RunState.RunState.SettleInterrupted | src/events.rs:1457-1463 | Settling in memory equals folding the interruption events a resume would have appended, and counts them |
| RunState.SettlingIsExact | src/events.rs:1457-1463 | Settling touches exactly the tasks with an attempt in flight: session gone, attempt refunded, one record more; nothing else moves |
| Readback.StepReadsTask | src/events.rs:1069-1433 | After any event, each field of each task (rung, attempts, flight, session, records, feedback, allowance, deferrals, resumption, state) is what the event says of that field, whichever way it was recorded, and otherwise as before |
| Readback.StepReadsRun | src/events.rs:1069-1433 | And so are the run's own fields: questions with their first answers, the order of first starts, the first halt, the first budget stop since the last resume, the last finish |
| Readback.LogReadsTask | src/events.rs:1000-1433 | For any log and plan: where a task stands is the last thing said of it, its records are its settlements' in order, and its feedback is in log order one entry per retry or climb, with its attempt, tier, summary and detail, and one per free answer that freed it, and nothing else |
| Readback.LogReadsRun | src/events.rs:1000-1433 | The run has finished as its last finish says unless it was resumed since, and halted at the first failure that halts |
| Readback.AnswersTell | src/events.rs:1404-1430 | A task an answer frees is told exactly the person's words, as human feedback under its current attempt, if and only if the question is not about spending and the words are not one of its options; nobody else is told anything |
| Readback.InterruptionsAre | src/events.rs:1437-1463 | What is settled after a death is each attempt in flight, in plan order, under its own identity, as an interruption of the worker |
| RunState.Replay | src/events.rs:1856-1878 | Succeeds exactly on logs that start and that the schema check accepts, says which of the two failed, and then gives the fold of the whole log from a fresh plan, its header and its number of resumes |
| Decisions.ValidatorAcceptsTheLadder | src/events.rs:2323-2394 | An engine can write a decision, every number and text in it included, if and only if the reader's check accepts it and it is none of the six things that check does not look at |
| Decisions.AllSixGapsAreReal | src/events.rs:2345-2394 | For each of the six, a decision the reader accepts and no engine in any state under any policy writes |
| Decisions.ValidDecisionsExport | src/export.rs:463-530 | Whatever the reader accepts the exporter accepts |
| Decisions.OutagesAreAgreed | src/events.rs:2334-2338 | The reader's list of outages, the exporter's and the ladder's, each written out on its own, are the same |
| Decisions.DeferralsRead | src/events.rs:2367-2375 | A reader takes a deferral if and only if it is of a rate limit, an unavailable review or a reviewer's timeout, and parks nothing |
| Decisions.ExportsExactly | src/export.rs:459-535 | What the exporter takes, case by case of decision and question together |
| Ladder.NextStepIsExact | src/ladder.rs:163-209 | The decision by kind of failure: who is asked, what waits, what fails, and what spends an attempt, climbs or ends with a person |
| Ladder.OutagesWait | src/ladder.rs:108-114 | With a rung to stand on, a deferral is decided if and only if the failure is one of the three outages and a deferral is left; an outage never retries, climbs or fails |
| Ladder.WorkerTimeoutsAreRejections | src/ladder.rs:108-114 | A worker's timeout is decided exactly as a failed gate, in every state and under every policy |
| Schema.EnsureSupportedSchema | src/events.rs:1883-2130 | Succeeds exactly on accepted logs and returns the schema in force at the end; a refusal is the first check that fails, at the first event it fails at |
| Identity.FreshRunsAreRead | src/events.rs:2058-2160 | A run that has just started at schema 3 is taken if and only if it records `sha256:` and 64 hexadecimal digits, a positive time limit, and a plan of review that is on with a slot per task or off with none bound; otherwise it is refused for that alone |
| Identity.PlannedRunsAreRead | src/review.rs:358-464 | Whatever `plan_for` returns with a positive limit, before or after the alternative is dropped, makes such a header with any 64 hexadecimal digits |
| Identity.SettlementsRead | src/events.rs:1943-2031 | A settlement is taken if and only if the attempt numbers agree and it is a failure with its decision and no commit, or a success with no decision and exactly the prepared commit of IsPrepared |
| Identity.PreparedIs | src/events.rs:1978-2021 | The bound commit, whole: branch, objects of one length of 40 or 64 digits, a message of one line that opens with the task, and the ref of that attempt of that run, its numbers in decimal |
| Identity.EventsRead | src/events.rs:1917-2057 | After an event that publishes nothing, everything is taken but a bare commit, a settlement out of order and a refusal without its policy |
| Identity.OlderRunsAreRead | src/events.rs:1883-1916 | Below schema 3 every log without an upgrade is taken, and one that ends in its only upgrade if and only if that starts where the log was and leads to a higher schema, at most 3 |
| Identity.CompletedUpgradesAreRead | src/events.rs:2074-2130 | An upgrade to schema 3 and its resume are taken if and only if the resume records what a start at schema 3 would have to |
| Schema.AcceptedIsPrefixClosed | src/events.rs:1883-2130 | Every prefix of an accepted log is accepted, so dying after any event leaves a readable run |
| Schema.SchemaGrows | src/events.rs:1888-1902 | The schema in force never goes down along a log |
| Schema.NoUpgradePastThree | src/events.rs:1888-1914 | At schema 3 no upgrade can follow |
| Schema.RecordedNormalizedPlanDigest | src/events.rs:1715-1737 | The loop finds the first digest recorded at schema 3, of which NoDigestMeans says when there is none |
| Schema.NoDigestMeans | src/events.rs:2058-2130 | An accepted log that starts once records no digest if and only if it started below schema 3 and has no resume at schema 3; any digest it records is well formed |
| Schema.CommitsAreBound | src/events.rs:1917-2057 | At schema 3 an event is a commit if and only if the event before it is a success, and it carries that success's task, object and message, bound to the run |
| Runs.MoveKeeps | src/engine.rs:2230-2669 | Every legal append, death and restart keeps the invariant over counters, questions, modes and sessions |
| Runs.RunKeeps | src/engine.rs:2142-2196 | The invariant holds in every state any run reaches, through any number of crashes and resumes |
| Spending.LiveEqualsReplay | src/engine.rs:2076-2080 | The state the live engine holds is the fold of its log, at every moment of every run |
| Spending.AllowanceIsExact | src/events.rs:1097-1335 | In every reachable state the attempts charged to a rung are exactly starts minus refunds since the last reset, in arithmetic that cannot clamp |
| Spending.RunnableTasksCanPay | src/ladder.rs:163-209 | A task that can run has allowance left on an existing rung and deferrals within bounds, also after a crash at any event is settled |
| Spending.SpendIsConserved | src/ladder.rs:163-209 | Over any stretch in which a task neither commits, fails nor parks, budget left plus attempts started equals budget before plus attempts a crash cut off |
| Spending.AttemptsAreBounded | src/ladder.rs:163-209 | From a fresh task at most rungs * attempts_per + max_defers attempts start, plus one per crash interruption |
| Spending.BoundIsReached | src/ladder.rs:163-209 | For every plan and task there is a crash-free run that starts exactly that many attempts and ends in a park |
| Lifetime.WholeRunIsBounded | src/ladder.rs:163-209 | Over a whole run, across every park, answer, crash and resume, a task starts at most rungs * attempts_per + max_defers attempts, plus attempts_per + max_defers for each answer that let it go on, plus one per crash interruption |
| Lifetime.WholeBoundIsReached | src/ladder.rs:163-209 | For every plan, task and number of answers there is a crash-free run in which exactly that many answers let the task go on and it starts exactly as often as that bound allows, ending in wait of the next answer |
| Histories.SettlementsAreWritten | src/engine.rs:2401-2510 | Every failed settlement a run appends is a decision the engine can write, in the sense the reader's check is measured against |
| Histories.ResumeIsTheLastWord | src/events.rs:1097-1335 | The next attempt resumes a conversation if and only if the last event that speaks of it was a resuming retry, with no park, deferral, escalation, interruption or run resume since; and then a session is set |
| Histories.ResumedAttemptsAreAdjacent | src/engine.rs:2648-2669 | A resuming attempt directly follows the retry that asked for it, which directly follows the start of the attempt whose session it continues |
| Histories.FinishedRunsAreIdle | src/status.rs:141-164 | A finished run has nothing in flight, so settling it changes nothing |
| Endings.OnlyRefusalsFail | src/engine.rs:3045-3104 | A task of a run fails only while it waits on a question that the log says somebody declined, never by a settlement |
| Endings.ARefusalGoesThrough | src/engine.rs:3045-3104 | And any waiting task can be refused and then failed, which halts the run if the failure says so |
| Endings.StoppedRunsStartNothing | src/engine.rs:2142-2196 | After a failure that halts the run, no attempt starts, nothing deferred wakes and no budget stop is recorded; after a budget stop, not before a resume |
| Endings.RetriesKeepTheirSession | src/engine.rs:2401-2411 | After the settlement of a task to be retried, the state holds a session if and only if the engine may ask to resume it |
| Endings.EveryLogIsAtomic | src/engine.rs:2401-2510 | Every log of a run consists of events of the current encoding, as the results about the older one suppose |
| Recovery.EveryRunCanBeTakenUp | src/engine.rs:1700-1830 | From any state of any run, a death, a new process, at most one owed commit, at most one interruption and the resume lead to an engine at work with nothing in flight, owed, held or waiting |
| Recovery.OneRunGoesThrough | src/engine.rs:2142-2196 | A configuration and a run in full: one task, one attempt, one commit of 40-digit objects under its own ref, finished, and taken by the reader |
| Histories.EveryLogIsAccepted | src/events.rs:1883-2130 | Every log a run can leave, at any crash point, passes the reader's check |
| Histories.EveryLogExports | src/export.rs:208-297 | Every such log also passes the exporter's join: no attempt starts or settles twice, every settlement follows a matching start, every start is on a recorded rung |
| Join.Settlements | src/export.rs:365-429 | Collects every settlement under its task, attempt and rung, and refuses exactly the logs that settle one attempt twice |
| Join.JoinAttempts | src/export.rs:208-297 | The exporter's maps and loops succeed if and only if starts are placed and distinct, no attempt settles twice, and each settlement follows the start it agrees with |
| Join.SettlementsAgree | src/export.rs:431-562 | A settlement goes with a start if and only if both say the same of task, attempt, rung, profile, tier, model and pool, the record counts the attempt alike, the decision exports, and a crash and nothing else is an interruption of the worker |
| Join.StartsArePlaced | src/export.rs:226-268 | A start is placed if and only if it is counted from 1 and has the tier of its rung in the first chain of its task |
| Legacy.ExpandedMeans | src/events.rs:1177-1264 | One settlement and its older sequence of events fold to the same state, except for a parked settlement about an unknown task, which then only raises its question |
| Legacy.ExpansionPreservesFold | src/events.rs:1177-1350 | Rewriting a whole log into the older encoding keeps its fold if and only if no parked settlement is about an unknown task |
| Legacy.LegacyUnsettledFailure | src/events.rs:2181-2274 | The detector's loop computes the verdict of its trackers, oldest spend approval first, then oldest undecided failure |
| Debts.VerdictReports | src/events.rs:2181-2274 | For any log: the oldest approval asked for an open climb and never made binding; if there is none, the oldest failure below schema 3 never decided; nothing if there is neither |
| Legacy.CutInside | src/events.rs:2161-2274 | A log cut inside one settlement leaves something owed, except after an escalation before its approval question, which reads as a plain escalation |
| Legacy.DetectorIsExact | src/events.rs:2181-2274 | For any cut of an expanded log below schema 3 the detector is silent if and only if what is left is itself an expansion of whole settlements |
| EventLog.ParseBytes | src/events.rs:1630-1683 | For any bytes, cut into lines: the events of the lines in order, blank ones skipped and a final carriage return dropped; or the number of the first line that cannot be read; or a text error; and whether something follows the last newline |
| EventLog.ParseIsByLine | src/events.rs:1630-1683 | The same of the function the other results are about, and every file is some lines and an unfinished one (EveryFileIsLines) |
| EventLog.ParseRoundTrip | src/events.rs:1630-1683 | Reading the lines of any events, with any unfinished line after them, returns exactly those events |
| EventLog.RepairKeepsParse | src/events.rs:1502-1543 | On any bytes whatever, the repair changes neither the events nor the error, and leaves no torn tail |
| EventLog.EventLog.Open | src/events.rs:1502-1543 | Opening cuts the file after its last newline and changes nothing else |
| EventLog.EventLog.Append | src/events.rs:1558-1580 | An append adds one whole line and returns what a replay will decode; an event that does not decode is refused and nothing is written; a write that fails leaves the part of the line it reached |
| LogWorld.AppendIsItsSteps | src/events.rs:1558-1580 | However much of a line reached the file, single steps lead there, and only a whole line can be acknowledged |
| LogWorld.CrashRefinement | src/events.rs:1502-1580 | In every history of opens, partial writes, failed appends and deaths the file parses to the acknowledged events and at most the one whose append is in flight or was the last one cut, and to exactly the acknowledged ones right after an open |
| LogWorld.OnlyBegunEvents | src/events.rs:1558-1580 | Every event a reader gets or a writer is told of was at some earlier instant the event of an append in progress |
| LogWorld.CommittedOnlyGrows | src/events.rs:1502-1580 | What was once readable stays readable, as a prefix, at every later instant; so nothing acknowledged is lost |
| LogTail.LogTail.Poll | src/events.rs:2418-2448 | The offset and the events of one poll are those of the step relation, for any length and contents it sees |
| LogTail.PollStartsOver | src/events.rs:2418-2448 | A file that became shorter than what was read is read from its beginning, one that cannot be opened is left for the next poll, and an offset is always 0, the old one, or a line's end |
| LogTail.FollowsThePrefix | src/events.rs:2418-2448 | Under any interleaving the polls together are a prefix of the whole log, none fails, and the offset is the end of a record |
| LogTail.PollKeepsUp | src/events.rs:2418-2448 | One poll has everything committed when it asked for the length and nothing not committed when it read |
| LogTail.NeverTruncatedPast | src/events.rs:1502-1543 | No later repair cuts the file before what a follower has read |
| Snapshot.StableEventBytes | src/status.rs:469-498 | If every probe of the first round says v and both reads give b, the answer is (b, v). In general the answer is that of the first of eight rounds that comes to anything: the bytes between two "held" probes, the twice-read bytes between three "not held" ones, or the error of a read the call made; and giving up means exactly that eight consecutive rounds each saw their first probes differ, or their last probe held, or their reads differ |
| Snapshot.ConsistentSnapshot | src/status.rs:469-498 | A "not held" answer comes with the instant of the deciding round's second probe, between its two equal reads and within the call, at which no process could write and the committed events were exactly those returned; a "held" one with bytes read between two "held" probes of the call |
| Snapshot.CheckPlan | src/status.rs:107-138 | The frozen plan passes if and only if it parses, comes from the recorded document and, from schema 3 on, has the recorded bytes; each refusal says which failed |
| Snapshot.Load | src/status.rs:69-177 | Status succeeds if and only if the snapshot is stable, the log reads and is accepted, the run is the one asked for and the frozen plan is its own, and otherwise says which check failed first; it reports the fold, settled in memory unless a live process owns an unfinished run |
| Snapshot.HeldRunsAreNeverSettled | src/status.rs:150-164 | For every log of the writer, a held run is reported as its log says, finished or not |
| LiveLog.ParseIsSeen | src/events.rs:1630-1683 | Reading events is reading records and taking each for its event, errors and torn tails included |
| LiveLog.AppendsARecord | src/events.rs:1558-1580 | Appending any event that can be read back at all is appending one record, and what comes back for the engine to fold is that record's event |
| LiveLog.CommittedIsARun | src/engine.rs:2076-2080 | With the engine as the process that writes the file, at every instant the committed events are nothing or the log of a run: they fold to a state with the invariant, and the reader's check accepts them |
| LiveLog.StatusNeverSettlesALiveAttempt | src/status.rs:469-498 | Whatever a snapshot of that system answers is true of one of the call's own observations: "held" is reported as a run's own state, unsettled, and "not held" as a run with no engine at that instant and exactly that log, settled |
| LiveLog.RunsAreLoaded | src/status.rs:87-138 | Loading a log of the engine succeeds if and only if its run is the one asked for and the frozen plan has the bytes and the source it recorded |
| LiveLog.EveryRunCanBeLived | src/engine.rs:2076-2080 | For every run of the writer, deaths and resumes included, there is a wire, a codec that keeps each of its events, and a history of the file that ends with that run's log and the engine where the run left it |
| LockedLog.OneWriter | src/rundir.rs:436-519 | With many processes at one file, each only between its lock and its close, and no stray probe close, at most one thread can do anything to the file and its process owns the lock |
| LockedLog.OwnershipIsExact | src/rundir.rs:436-519 | In such an interleaving every holder owns the lock throughout if and only if no stray close happens |
| LockedLog.OneWriterHistory | src/events.rs:1502-1580 | Under that condition the shared file goes, step by step, through a history of the one-writer machine |
| LockedLog.SharedFileIsReadable | src/events.rs:1502-1580 | So it parses at every instant, to the acknowledged events and at most one more |
| LockedLog.FreeIsExact | src/rundir.rs:619-652 | Under that condition a probe's "not running" is true if and only if the asking process does not have the lock |
| LockedLog.SharedSnapshot | src/status.rs:469-498 | A "not held" snapshot by a reader of another process comes with an instant within the call at which no thread of any process was in charge and the committed events were exactly those returned |
| LockedLog.StrayCloseLosesAnEvent | src/rundir.rs:619-652 | A concrete interleaving of a probe, two processes and their appends in which a stray close is followed by an acknowledged event being read back as another |
| RunLock.SafeStep | src/rundir.rs:436-519 | From a state where every holder owns the lock, a statement breaks that if and only if it is a probe's close in the owning process |
| RunLock.OwnershipIsExact | src/rundir.rs:436-519 | Over every interleaving, with failures and deaths at any statement, every holder owns the lock throughout if and only if no such close ever happens |
| RunLock.EntersAlone | src/rundir.rs:452-624 | At every instant of every interleaving, a thread may start to acquire, or to ask about the file, if and only if no thread of its process is inside an acquisition or has the lock; so no claim is ever left behind |
| RunLock.MutualExclusion | src/rundir.rs:452-519 | If no probe ends while its process has a claim, at most one thread of all processes is between taking the lock and closing it, and the kernel agrees |
| RunLock.ProbesTellTheTruth | src/rundir.rs:619-652 | Under the same condition a probe's question is answered "running" if and only if some thread has the lock, and a missing file means nobody has |
| RunLock.ProbeGivesTheRunAway | src/rundir.rs:619-652 | A concrete interleaving of a probe and an acquisition in one process that ends with two holders |
| RunLock.Host.Acquire | src/rundir.rs:452-500 | The statements are put on the trace in the order of src/rundir.rs, and the trace is a run of the lock's machine; success has the claim and the lock, every failure leaves claims, lock and threads as they were |
| RunLock.Host.ReleaseClaimAfterFile | src/rundir.rs:515-519 | The trace grows by the close of the descriptor, which drops the lock, and then by the return of the claim, in that order |
| RunLock.Host.Release | src/rundir.rs:436-449 | Dropping a lock is the drop, then the close, then the return of the claim; afterwards the process has neither |
| Capacity.Observe | src/capacity.rs:314-331 | A pool is marked with a reset time if and only if an event refused it so and no later one refused it or got an answer from it; self-metered spend is the ledger of the settlements' records |
| Capacity.EvidenceIsExact | src/capacity.rs:352-389 | What refuses a pool (a signal, or a rate limit of its worker or of its last reviewer) and what answers for it (a worker neither turned away nor cut off, a review with a verdict), for every event |
| Capacity.Observations.RetireSignals | src/capacity.rs:352-389 | One record unmarks exactly the pools it proves serving, and marks, without a reset time, the one its rate limit came from |
| Capacity.DrainOf | src/capacity.rs:397-421 | Pool by pool, over attempts and review passes: in the ledger if anything was drawn, dollars if any were reported, attempts and unpriced ones counted up to 32 bits |
| Capacity.Meter.Accumulate | src/capacity.rs:407-421 | A record adds its own line and one per attributed review pass, and nothing for an unattributed cost |
| Capacity.Meter.Add | src/capacity.rs:278-284 | One more line on a pool's entry, or on an empty one |
| Capacity.DrainIsOrderFree | src/capacity.rs:397-421 | The ledger of a permutation of the records is the same ledger |
| Capacity.LedgerIsConserved | src/capacity.rs:397-421 | The dollars of the ledger's entries add up to those of the attributed lines; their attempts add up to the number of lines if and only if no pool's count passes 32 bits, and their unpriced attempts likewise |
| Route.Chain.RaiseStart | src/route.rs:128-142 | A floor leaves the rungs that meet it, or itself; it reports a change exactly when the tiers changed, and labels only the start |
| Route.Resolve | src/route.rs:55-158 | Every rung reaches the task's minimum, its suggestion and the start of every override that touches one of its paths. Under the highest of them the rungs are exactly the configured tiers that reach it, in order, or it alone if none does; with none, the chain itself. Each rung runs on the first pin of its tier or on a listed model of it, and the start is credited to what last moved it |
| Route.FloorsCollapse | src/route.rs:55-142 | Any list of floors, on any chain, sorted or not, does what the highest of them does alone |
| Route.FloorOrderIsFree | src/route.rs:74-87 | The order of the floors does not matter |
| Route.EveryRungMeetsEveryFloor | src/route.rs:55-142 | The result is not empty and every rung meets every floor |
| Catalog.LookupFindsTheEntry | src/catalog.rs:144-149 | No agent lists a model twice, so looking up an entry gives that entry and its family |
| Catalog.ExamplesAreListed | src/catalog.rs:60-80 | The preview's model of each tier, by name, is listed at that tier |
| Catalog.FirstThatCrosses | src/catalog.rs:168-186 | The cross-family choice is the first listed model of the tier from another family that can be driven, and nothing only where there is none |
| Review.PlanFor | src/review.rs:358-464 | In the configuration's own terms: who reviews first (the first pin of the review tier, else its preview model), who else (the first of another family), which tasks get a second opinion (those an override that asks for one touches), the limit, each refusal with the first task it concerns, and both warnings |
| Review.PassesAreEnough | src/review.rs:319-343 | Every reviewed task gets one pass, or two from different families if its paths ask, whoever wrote the code |
| Review.WarningIsExact | src/review.rs:264-302 | The warning names exactly the tasks with a rung that only its own model would judge, before and after the alternative is dropped, and is absent exactly when there are none |
| Review.PlansAreValidIdentities | src/events.rs:2276-2321 | Every plan, also with its alternative dropped, passes the replay's check of a recorded plan |
| Review.Reviews.DropAlternative | src/review.rs:249-252 | Gives up the alternative and records that, and changes nothing else |
| Calendar.CivilIsExact | src/util.rs:267-289 | For every day count, negative ones included, the result is a valid Gregorian date and the inverse formula gives the count back |
| Calendar.CivilIsMonotone | src/util.rs:267-289 | A later day is a later date |
| Calendar.CivilFollowsTheCalendar | src/util.rs:267-289 | Day 0 is 1970-01-01 and each day's date is the calendar's successor of the one before |
| Rfc3339.IsSupportedRfc3339 | src/export.rs:831-891 | Accepts exactly the texts of a calendar date up to year 9999, a time of day without leap seconds, an optional fraction, and `Z` or an offset of at most 23:59 |
| Rfc3339.PadIsRead | src/export.rs:893-900 | Reading back a padded number gives the number, and every character of it is a digit |
| Rfc3339.WrittenIsTheTime | src/util.rs:251-261 | A written timestamp reads as the date and time of day of exactly the second it was written for |
| Rfc3339.StringOrderIsTimeOrder | src/util.rs:251-261 | Up to year 9999, one timestamp is before another as a string if and only if it is as a time |
| Rfc3339.WrittenThenRead | src/util.rs:251-261 | The exporter accepts what the clock writes if and only if it is no later than the last second of year 9999 |
| Csv.WriteCsvField | src/export.rs:1042-1050 | A field is written bare, or quoted with its quotes doubled when it holds a separator, quote or line break |
| Csv.FieldIsExact | src/export.rs:1042-1050 | A field is written bare if and only if it holds no separator, quote or line break, and otherwise between quotes |
| Csv.WriteCsv | src/export.rs:1031-1040 | Records are written field by field with separators between and a line end after |
| Csv.CsvRoundTrip | src/export.rs:1031-1050 | A parser for section 2 of RFC 4180 reads the printed text back as exactly those records, whatever the fields contain, if and only if every record has a field |

## Left out

- JSON text, timestamps inside events, durations and token counts: the log is a sequence of decoded events, and the text layer is the abstract `Codec`.
- Reads of a file are one instant; a whole-file read that spans several appends is not split further.
- The writer follows a run started at schema 3. Resuming an older run, and the schema upgrade it appends, is covered by `Schema` and `Legacy` only.
- Which task is ready (its dependencies) and which runs a resume refuses are over-approximated: the writer may pick any runnable task and restart any run, and a refused task may fail with or without halting the run.
- Prepared-commit refs, their recovery, and every git effect: a prepared commit is data obeying the checks at src/events.rs:1972-2021.
- The digest of the plan's bytes and its parsing, which are given; and which run a status is about when none is named (src/status.rs:70-78).
- Blocked and skipped tasks, which only the report distinguishes, and the recorded lookups (`recorded_*`) over the log.
- Error and warning texts, the notes of a resolved chain, and the sorting of ids in the self-review warning, which here is a list of task positions.
- `LogTail::skip_existing`, which may start inside a record.
- The Unix cleanup reaper and its `flock` lease (its success is a parameter of `Acquire`), the Windows lock, and the worktree lock's scan of runs.
- That the engine opens its log after taking the lock and is done with it before the lock goes (src/engine.rs:768-842 and 1207-1689) is a rule of `LockedLog`, not a result.
- Several runs at once: `RunLock` is about one run's lock file; other files' locks do not interact with it.
- Dollars are exact reals; rounding and NaN are not modelled.
- The exporter's rows, header text and second read of the log; its join and the printing of fields are modelled. It also checks that chains and plan tasks match one to one, which here is a promise of a well-formed run.
- Effort, agent probing, prompts, gates, notifiers and rendering.
