# Delivery protocol, pipelines and vector store: a verified model

This project models the job runner's hard parts in Dafny: at-least-once delivery
of job pointers through a Redis stream with a consumer group, retries, reclaims
and a dead-letter stream, kept in agreement with a separate row store; the
pipelines' effects on the vector and object stores; the document chunker; and
the in-memory vector store. `dafny verify dfyconfig.toml` checks all of it.

## How the delivery protocol is modelled

`Protocol` is a step machine over rows, submissions, the stream with its cursor
and pending list, the dead-letter stream, and any number of tasks, each standing
at the `await` it is about to make. Every call is a step of its own, so tasks of
all workers interleave freely. A crash, a cancellation, or an exception that
leaves the task is the step `Abort`; a call that took effect and then raised is
the step followed by `Abort`. Exceptions that the consumer catches are outcomes
of the step. On this machine:

- `Meaning` states each step case by case, on its own, and proves that the machine
  takes exactly these; `Provenance` proves where everything stored comes from.
- `Integrity` proves that pointers resolve and attempts stay in range, `Execution`
  that executions never overlap and that records stay consistent, `NoLoss` that no
  job is lost, `Work` the bound on pipeline starts, `Submission` that orphans are
  inert, `Ownership` that a consumer never works twice on one entry, `Finality`
  exactly when a failed row can still change.
- `Stranded` proves exactly when a row that is not terminal can still become so,
  and `Recovery` that every reachable state can be brought to rest without further
  faults.
- `LockStep` and `Progress` treat runs without faults: row and pointer agree, no
  transition is refused, the work is bounded, and every such run can go on to a
  state in which every job is finished.
- `Windows` takes the row windows apart (a read and a later blind write), as the
  code has them, and proves that undisturbed fine runs refine the machine above.
  `Races`, `FineRuns`, `Counting`, `Settling`, `FineLockStep` and `FineRecovery`
  prove the main results of the fine machine directly: unconditionally where they
  hold in every run, and otherwise with the exact condition under which they do.
- `Columns` says exactly when a column-wise update writes the whole row.
- `Worker` is the code of the consumer's task, the job processor and the
  ingestion service, method by method, under an arbitrary script of what everybody
  else does at each `await` and how each call ends. Its class invariant is that
  the run so far is a legal run of the fine machine, so the theorems apply to it.
- `Consumer` and `Sweep` are one consumer's loop: capacity, reclaim, read, dispatch.
- `Witnesses` are concrete runs that show which statements would be false.

Hypotheses, and where each is needed:

- With reads and writes of a row apart, some statements are false of the code, and
  each has its run in `Witnesses` and its exact condition: exclusive execution
  (`Races.ExclusiveIffUncontended`), settled acks and so no lost job
  (`Settling.SettledIffNoneUnsettling`, `Settling.HeldIffNeverDropped`), terminal
  rows (`FineRuns.TerminalStaysTerminalFine`), a single lasting success
  (`FineRuns.SuccessCountedIff`), counted attempts (`Counting.AttemptsCountBeginsIff`).
- It suffices for exclusion, for no loss and for a single success write that every
  begin write finds its row still PENDING (`Races.Guarded`), which a conditional
  update could ensure. It does not suffice for counted attempts
  (`Witnesses.StaleFailLowersAttempts`) or for terminal rows
  (`Witnesses.StaleRequeueReopens`).
- Integrity, consistent records, inert orphans, bounded work and all results on
  fault-free runs need no hypothesis on windows.
- The repository's update is one atomic write of the whole row, after a separate
  read by its caller. The code loads the row once more inside the update and writes
  the columns that differ (src/app/adapters/persistence/repository.py:55-67); this
  is a whole-row write exactly if the row agrees with the copy in the columns left
  out (`Columns.UpdateIsWholeRowIff`), and can otherwise mix two outcomes in one
  record (`Columns.OvertakenUpdateMixesColumns`).
- Only the step-for-step refinement `Windows.FineRefinesCoarse` asks that nobody
  writes a row while a window on it is open (`Windows.Undisturbed`).
- Claiming an entry, counting its deliveries and dispatching it are separate
  calls. `Work.WorkIsBounded` charges each count that comes after the entry was
  acked; with the three in one step there are none (`Work.OnePublishBoundsWork`).
- Stream trimming evicts nothing, and the consumer group exists before the first
  publish, so the cursor starts at the beginning of the stream.
- Job ids are fresh; providers behave as deterministic functions in `Pipelines`.

Where the code differs from its documentation the model follows the code:

- The summary at src/app/adapters/broker/consumer.py:274 puts the ack before the
  new attempt is published; the code publishes first and acks last
  (src/app/adapters/broker/consumer.py:335-337).
- README.md:161 of the repository speaks of a semaphore; the code counts futures
  in flight (src/app/adapters/broker/consumer.py:228-232).
- Dead-lettered does not mean failed: an over-delivered entry is buried and acked
  without touching its row (src/app/adapters/broker/consumer.py:199-204), and one
  failed read of the row buries the entry and then leaves the row PENDING, because
  the fail transition is refused (src/app/adapters/broker/consumer.py:300-302).
- `attempts` counts begin writes, not pipeline calls (src/app/domain/models.py:145-147
  says executions): a begin write that lands and then raises is counted, but its
  pipeline is never called.
- FAILED is not final: a duplicate delivery can fail the row under a running
  execution, whose success write then replaces it.

## Model

| member | source | states |
|---|---|---|
| Jobs.InferenceJob.RequireStatus | src/app/domain/models.py:107-112 | moves along exactly the edges PENDING-RUNNING, RUNNING-SUCCESS, RUNNING-FAILED, RUNNING-PENDING, or raises with both states and leaves the object as it was |
| Jobs.InferenceJob.Start | src/app/domain/models.py:115-120 | begins from PENDING only, counts the attempt and clears the error; refused calls change nothing |
| Jobs.InferenceJob.Succeed | src/app/domain/models.py:122-132 | succeeds from RUNNING only; a missing duration keeps the old one |
| Jobs.InferenceJob.FailWith | src/app/domain/models.py:134-139 | fails from RUNNING only, with the error text; refused calls change nothing |
| Jobs.InferenceJob.Retry | src/app/domain/models.py:141-149 | goes back to PENDING from RUNNING only and touches nothing else |
| Jobs.InferenceJob.New | src/app/domain/models.py:90-98 | a new job has the given id, type and payload, is PENDING with no attempts and no outcome |
| Jobs.InferenceJob.FromRecord | src/app/adapters/persistence/repository.py:91-104 | a loaded job is a detached copy with every column of the row |
| Meaning.MachineAsStated | src/app/adapters/broker/consumer.py:162-382 | every step of the machine is exactly the one written out case by case: its guard and comparisons, its messages and constants, its row and error text, and where its task goes |
| Meaning.FineMachineAsStated | src/app/adapters/persistence/repository.py:44-67 | the same with reads and writes apart: a write is made of the copy that was read, a refusal of the row as it is |
| Provenance.EverythingHasItsOrigin | src/app/adapters/broker/consumer.py:285-342 | in every fine run, a result is what a successful pipeline returned, an error the text of a dead letter, a dead letter's cause what was reported for its pointer, and a retry follows a transient failure with attempts left |
| Provenance.LimitsKeptFine | src/app/adapters/broker/consumer.py:311-329 | in every fine run only a pointer at or past max_attempts is dead-lettered as exhausted, only a count above max_delivery_count as over-delivered, and no retry exceeds max_attempts |
| Provenance.LimitsKeptCoarse | src/app/adapters/broker/consumer.py:311-329 | the same in every run with atomic windows |
| Provenance.SubmissionIsKept | src/app/services/ingestion.py:45-49 | whatever was submitted keeps its id, type and payload in every later state of every run |
| Integrity.StepKeepsIntegrity | src/app/adapters/broker/producer.py:58-127 | every step keeps pointers resolving to rows of their job type with attempts in 1..max(1, max_attempts), and never drops a row, a pointer or a dead letter |
| Submission.EveryPointerResolves | src/app/services/ingestion.py:45-69 | in every reachable state each stream pointer, dead letter and task names an existing row of its type, so the JobNotFound branches are unreachable |
| Submission.OrphanIsInert | src/app/services/ingestion.py:55-65 | a row whose submission ended without a pointer is never touched again by any step of any run |
| Submission.OrphanStaysPending | src/app/services/ingestion.py:55-65 | such a row is PENDING with no attempts in every later state |
| Execution.ExecutionsNeverOverlap | src/app/services/processor.py:80-108 | over all workers and duplicate pointers, no two executions of one job coexist, and the row is RUNNING or FAILED during an execution |
| Execution.RecordsStayConsistent | src/app/domain/models.py:115-149 | in every reachable row, result_ref and duration_ms are set exactly when SUCCESS, error exactly when FAILED |
| Execution.TerminalStep | src/app/domain/models.py:45-54 | one step leaves a terminal row alone or turns FAILED into SUCCESS, nothing else |
| Execution.TerminalStaysTerminal | src/app/adapters/broker/consumer.py:345-372 | no later step of any run makes a terminal row PENDING or RUNNING, and a SUCCESS row never changes in any column |
| Execution.ResultRefIsFinal | src/app/domain/models.py:122-132 | a stored result_ref never changes |
| Execution.AttemptsCountStarts | src/app/domain/models.py:141-149 | the stored attempts is the number of begin writes of the whole run, with atomic windows, despite detached snapshots and the blind success write: pipeline calls, plus begins that landed but were lost, plus one under way; so it is the number of pipeline calls if and only if none was lost and none is under way |
| Witnesses.AttemptsCanExceedStarts | src/app/services/processor.py:84-92 | a run in which the begin write lands and raises: one attempt on record, no pipeline call |
| Execution.SuccessWrittenOnce | src/app/services/processor.py:105-108 | success is written at most once per job, and once exactly when the row says SUCCESS |
| Finality.FailedIsFinalUnlessInExecution | src/app/services/processor.py:105-108 | a FAILED row can still change if and only if an execution of its job is in flight |
| Witnesses.FailedIsNotFinal | src/app/services/processor.py:105-108 | a reachable run in which a duplicate delivery fails the row and the running execution then makes it SUCCESS, its dead letter remaining |
| Witnesses.BuriedIsNotFailed | src/app/adapters/broker/consumer.py:199-204 | a reachable run in which an over-delivered entry is dead-lettered and acked while its row stays PENDING |
| Witnesses.BuriedWithoutFailing | src/app/adapters/broker/consumer.py:300-302 | under every configuration, one failed read of the row ends dead-lettered and acked with the row PENDING, everything at rest and the row stranded |
| Stranded.CanEndIffAlive | src/app/adapters/broker/consumer.py:188-372 | a row that is not terminal can still become so if and only if its submission is open, a pointer of it is undelivered or (with a delivery limit of at least 0) pending, or a task of it can still act, a task on its way to the fail write only while the row is RUNNING |
| Stranded.DeadLetteredEndsIff | src/app/adapters/broker/consumer.py:188-372 | in every reachable state, a dead-lettered job's row is or can become terminal if and only if it is so or is alive in that sense |
| Stranded.StrandedIsInert | src/app/adapters/broker/consumer.py:365-372 | a row that is neither never changes again in any run |
| Stranded.EveryRowAccountedFor | src/app/adapters/broker/consumer.py:270-382 | every row of every reachable state can end, or is stranded: without a pointer, dead-lettered, or pending under a negative delivery limit |
| Recovery.ComeToRest | src/app/adapters/broker/consumer.py:107-134 | from any intact state everything in hand can be published, delivered and finished without faults, within a computed number of steps |
| Recovery.EveryStateRecovers | src/app/adapters/broker/consumer.py:162-211 | from every reachable state, after any crashes and lost calls, a continuation without further faults empties the pending list, delivers the whole stream, ends every task, and leaves every published job terminal or dead-lettered |
| NoLoss.AckIsEarned | src/app/adapters/broker/consumer.py:270-342 | a task gets to its ack only with its pointer settled: terminal row, dead letter, or a published successor with attempt + 1 |
| NoLoss.FollowSuccessors | src/app/adapters/broker/consumer.py:311-342 | following successors ends, by the attempt limit, at something that still holds the job |
| NoLoss.NoJobIsLost | src/app/adapters/broker/consumer.py:270-342 | in every reachable state, with any crashes, reclaims and failed calls, each job with a pointer is terminal, dead-lettered, or has an undelivered or pending pointer |
| Work.StepPays | src/app/adapters/broker/consumer.py:188-225 | every step pays for the start it makes from the potential; only a first publish or a stale count adds to it |
| Work.WorkIsBounded | src/app/adapters/broker/consumer.py:188-342 | under any schedule a job is begun, and its pipeline called, at most (first publishes + stale counts) times D + D^2 + ... + D^M |
| Work.LimitsForm | src/app/core/config.py:58-62 | D and M are the configured limits, at least 1 |
| Work.OnePublishBoundsWork | src/app/adapters/broker/consumer.py:311-337 | with claim, count and dispatch in one step and one first publish, the bound is D + D^2 + ... + D^M |
| LockStep.StepStaysInStep | src/app/adapters/broker/consumer.py:285-337 | every fault-free step keeps row, current pointer, pending list, tasks and dead letters of each job in phase |
| LockStep.NothingIsRefused | src/app/services/processor.py:84-108 | in fault-free runs InvalidTransition is never raised and no row is missing |
| LockStep.RowFollowsPointer | src/app/adapters/broker/consumer.py:311-337 | the row has its current pointer's attempts, one less while PENDING (until the requeue write), never more than max(1, max_attempts) |
| LockStep.StuckMeansQuiescent | src/app/adapters/broker/consumer.py:107-134 | no deadlock: a fault-free system with nothing left to do but new submissions has nothing undelivered and no live task |
| LockStep.QuiescentMeansFinished | src/app/adapters/broker/consumer.py:270-342 | at rest every job is terminal, nothing is pending, and the dead-letter stream has one entry per FAILED job and none for others |
| Progress.FaultFreeWorkIsBounded | src/app/adapters/broker/consumer.py:270-342 | a fault-free run makes at most 1 + 8 max(1, max_attempts) steps per submission |
| Progress.EveryJobCanFinish | src/app/adapters/broker/consumer.py:270-342 | any fault-free run can go on, within a bounded number of steps, until every job in it is finished |
| Windows.FineRefinesCoarse | src/app/services/processor.py:69-86 | a run of any length with row reads and writes as separate steps, no foreign write inside an open window, is a run of the machine with atomic windows and ends in the same state |
| Windows.FineStepKeepsIntact | src/app/adapters/persistence/repository.py:44-67 | referential integrity needs no hypothesis: every fine step keeps it, and a blind whole-row write never changes a row's identity |
| Windows.CoarseIsFine | src/app/adapters/broker/consumer.py:356-372 | every run with atomic windows is a run with reads and writes apart, ending in the same state |
| Races.ExecutionsNeverOverlapFine | src/app/services/processor.py:69-86 | if every begin write finds its row PENDING, executions do not overlap, and an executing job's row is RUNNING or FAILED |
| Races.ExclusiveIffUncontended | src/app/services/processor.py:69-86 | in every fine run, without hypothesis, executions are exclusive throughout if and only if no begin write is made while another task of the job is between its begin write and its success or requeue write |
| Races.UndisturbedIsGuarded | src/app/services/processor.py:69-86 | runs whose windows are all undisturbed satisfy that hypothesis |
| FineRuns.RecordsStayConsistentFine | src/app/adapters/persistence/repository.py:44-67 | every stored record is consistent in every fine run, however reads and writes interleave, an update being one whole-row write |
| FineRuns.OrphanIsInertFine | src/app/services/ingestion.py:55-65 | a row without a pointer is never touched again in any fine run, without hypothesis |
| FineRuns.WorkIsBoundedFine | src/app/adapters/broker/consumer.py:188-342 | pipeline calls are at most begin writes, and these at most (first publishes + stale counts) times D + D^2 + ... + D^M, in every fine run, without hypothesis |
| FineRuns.SuccessCountedIff | src/app/services/processor.py:105-108 | in every fine run, the row says SUCCESS exactly as often as success was written, so at most once and for good, if and only if no write finds the row SUCCESS |
| FineRuns.SuccessWrittenOnceFine | src/app/services/processor.py:105-108 | if every begin write finds its row PENDING, success is written at most once per job |
| Witnesses.SuccessCanBeWrittenTwice | src/app/services/processor.py:69-108 | a reachable fine run in which two overlapping executions both write success and the result reference changes |
| FineRuns.TerminalReopensIff | src/app/adapters/broker/consumer.py:345-372 | in every fine run a step reopens a terminal row if and only if it is the write of a begin or requeue window on it |
| FineRuns.TerminalStaysTerminalFine | src/app/adapters/broker/consumer.py:345-372 | in every fine run a terminal row is terminal throughout if and only if no begin or requeue write finds it so |
| FineRuns.GuardedReopensOnlyBuried | src/app/adapters/broker/consumer.py:356-363 | if begin writes find their rows PENDING, only a requeue write reopens a terminal row, and the row is then FAILED and dead-lettered |
| FineRuns.BeginsAccountedForFine | src/app/services/processor.py:84-92 | in every fine run the begin writes are the pipeline calls, plus the begins that landed but were lost, plus those under way |
| Counting.AttemptsCountBeginsIff | src/app/domain/models.py:141-149 | in every fine run the stored attempts counts the begin writes at every point if and only if every window write and every landed success write finds the attempts its copy carries |
| Counting.AttemptsCountStartsFine | src/app/domain/models.py:141-149 | then the stored attempts is the pipeline calls plus lost begins plus those under way |
| Witnesses.StaleFailLowersAttempts | src/app/adapters/broker/consumer.py:365-372 | a reachable fine run in which a stale fail write takes attempts from 2 back to 1 |
| Settling.SettledIffNoneUnsettling | src/app/adapters/broker/consumer.py:270-372 | in every fine run, every pointer acked or about to be has a terminal row, a dead letter or a successor throughout, if and only if no begin or requeue write reopens a terminal row of an undead-lettered job on which such a pointer without a successor leans |
| Settling.NoJobIsLostFine | src/app/adapters/broker/consumer.py:270-372 | no job is lost in any fine run without such a write |
| Settling.GuardedRunIsHarmless | src/app/services/processor.py:69-86 | a run whose begin writes find their rows PENDING has none |
| Settling.HeldIffNeverDropped | src/app/adapters/broker/consumer.py:270-382 | in every fine run a job is never lost if and only if no step acks its last queued pointer or reopens its terminal row with no dead letter and nothing queued |
| FineLockStep.RunStaysInStepFine | src/app/adapters/broker/consumer.py:285-337 | a fault-free fine run is undisturbed by itself and keeps row, pointer, tasks and dead letters in phase |
| FineLockStep.NothingIsRefusedFine | src/app/services/processor.py:84-108 | in it no transition is refused, no row is missing, and an open window's copy is the stored row |
| FineLockStep.RowFollowsPointerFine | src/app/adapters/broker/consumer.py:311-337 | in it the row agrees with its current pointer |
| FineLockStep.QuiescentMeansFinishedFine | src/app/adapters/broker/consumer.py:270-342 | in it, at rest, every job is terminal, nothing is pending, and the dead letters are the FAILED jobs |
| FineRecovery.EveryStateRecoversFine | src/app/adapters/broker/consumer.py:162-211 | from the end of every fine run without an unsettling write, a continuation without faults, other than the death of workers about to make such a write, leaves every published job terminal or dead-lettered and nothing pending |
| Columns.UpdateIsWholeRowIff | src/app/adapters/persistence/repository.py:55-67 | an update of the columns that differ from what was loaded writes the whole copy if and only if the row agrees with it in every other column |
| Columns.OvertakenUpdateMixesColumns | src/app/adapters/persistence/repository.py:55-67 | a success and a failure that both loaded the running row leave a FAILED record with a result reference |
| Witnesses.StaleRequeueReopens | src/app/adapters/broker/consumer.py:356-372 | a reachable fine run in which a requeue write overtaken by a failure turns FAILED into PENDING |
| Witnesses.ExecutionsCanOverlap | src/app/services/processor.py:69-86 | with interleaved begin windows two executions run at once and the row counts one attempt |
| Witnesses.JobsCanBeLost | src/app/services/processor.py:69-86 | with interleaved begin windows a stale begin write takes a success back, and a crash then leaves nothing that holds the job |
| Worker.Cluster.ProcessAndRoute | src/app/adapters/broker/consumer.py:270-309 | whatever others do and whichever calls fail, the code's steps are a legal run; if no call raised and no transition was refused, the task ends by its own last step |
| Worker.Cluster.Route | src/app/adapters/broker/consumer.py:285-306 | guard, process, then one handler per outcome; without an escaping exception the task is over by its own last step, through legal steps only |
| Worker.Cluster.AlreadyTerminal | src/app/adapters/broker/consumer.py:345-354 | true exactly if the row is missing, SUCCESS or FAILED; the task then goes to its ack, otherwise to the processor |
| Worker.Cluster.OnTransient | src/app/adapters/broker/consumer.py:311-342 | without an exception the next attempt is in the stream while attempts remain, the row requeued first and the ack last; otherwise a dead letter with the attempt and the text, and the row FAILED with its error |
| Worker.Cluster.RequeueJob | src/app/adapters/broker/consumer.py:356-363 | takes the requeue window as a read and a write, leaving the row PENDING; a refused transition raises |
| Worker.Cluster.FailJob | src/app/adapters/broker/consumer.py:365-372 | takes the fail window as a read and a write, leaving the row FAILED with the error text; a refused transition raises |
| Worker.Cluster.RouteToDlq | src/app/adapters/broker/consumer.py:379-382 | appends the dead letter for this cause, then acks |
| Worker.Cluster.Process | src/app/services/processor.py:55-109 | whatever the others do and whichever calls fail, leaves the task exactly where the consumer's handler for what was raised takes over, its steps so far a legal run |
| Worker.Cluster.Load | src/app/services/processor.py:67-86 | yields a running detached job, or an outcome; the write is of the very row that was read |
| Worker.Cluster.Submit | src/app/services/ingestion.py:35-72 | on return the row with this type and payload and its first pointer are stored; it fails only if a call failed, and its submission is then over |
| Worker.Cluster.PublishRetrying | src/app/core/retry.py:28-60 | at most `tries` publish calls; gives up after `tries`, or at once on a failure that is not transient |
| Worker.CodeLosesNoJob | src/app/adapters/broker/consumer.py:270-342 | in any state the code's methods bring about without an unsettling write, no job is lost |
| Consumer.StreamConsumer.ConsumeOnce | src/app/adapters/broker/consumer.py:107-134 | in-flight never exceeds the concurrency; a pass reads within its budget, dispatches and registers exactly what it read, empties the stream if it read less, and reads nothing after an exception |
| Consumer.StreamConsumer.ReclaimOrphans | src/app/adapters/broker/consumer.py:162-186 | one claim from the cursor for as many entries as there is room, which counts one more delivery of each claimed entry and changes nothing else; then each in turn, judged by its count, up to the first exception |
| Consumer.StreamConsumer.HandleReclaimed | src/app/adapters/broker/consumer.py:188-211 | skipped exactly when this consumer has it in flight; otherwise, by the delivery count of the group as it was read, buried and acked above the limit, dispatched at or below it or when no longer pending |
| Consumer.StreamConsumer.DeliveryCount | src/app/adapters/broker/consumer.py:213-225 | the deliveries of a pending entry, 0 for one no longer pending |
| Consumer.StreamConsumer.ReadNew | src/app/adapters/broker/consumer.py:235-256 | the next entries in order, at most `count`, never delivered before, now pending with one delivery, every other pending entry as it was |
| Consumer.StreamConsumer.Dispatch | src/app/adapters/broker/consumer.py:259-268 | one new task, registered; keeps the register equal to the ids of unfinished tasks, one task per id |
| Ownership.OneTaskPerConsumerAndEntry | src/app/adapters/broker/consumer.py:188-211 | in every reachable state, two unfinished dispatched tasks of one consumer are on different entries, however often entries are claimed again |
| Consumer.FinishKeepsRegistered | src/app/adapters/broker/consumer.py:307-309 | tasks passing their `finally` leave the register exactly the ids of the rest |
| Sweep.PassProgress | src/app/adapters/broker/consumer.py:172-183 | a pass claims a given idle entry or gets strictly closer to it |
| Sweep.AutoClaimForm | src/app/adapters/broker/consumer.py:172-183 | a walk claims the idle entries in order from the cursor to where it stops, at the end, at `count` claims or at ten times as many entries, and hands back where to go on |
| Sweep.SweepClaimsEveryIdleEntry | src/app/adapters/broker/consumer.py:162-186 | while the pending list only shrinks, from any cursor, as many passes as it has entries plus one claim every entry that stays pending and idle |
| Text.IntRoundTrip | src/app/adapters/broker/messages.py:35-53 | parsing undoes printing for every integer |
| Text.UuidRoundTrip | src/app/adapters/broker/messages.py:35-53 | the text form of RFC 9562, section 4, parses back to the same 128 bits |
| Text.Utf8RoundTrip | src/app/adapters/broker/messages.py:18-23 | UTF-8 decoding undoes encoding for every text |
| Text.DecimalForm | src/app/adapters/broker/messages.py:35-42 | a minus sign for negative numbers only, then digits without a leading zero |
| Text.UuidForm | src/app/adapters/broker/messages.py:35-42 | 36 characters, hyphens at 8, 13, 18 and 23, lower-case hexadecimal digits around them |
| Messages.ToFieldsForm | src/app/adapters/broker/messages.py:35-42 | the three fields by name and text |
| Messages.FromFieldsIff | src/app/adapters/broker/messages.py:45-53 | exactly which fields make a pointer, and which one |
| Messages.FromFieldsUndoesToFields | src/app/adapters/broker/messages.py:35-53 | decoding undoes encoding for every pointer, in any mix of text and bytes, with any further fields such as a dead letter's reason |
| Messages.ToFieldsIsInjective | src/app/adapters/broker/messages.py:35-42 | no two pointers share a wire form |
| Chunking.ChunkText | src/app/domain/chunking.py:27-72 | fails exactly on a size below 1 or an overlap outside 0 to size - 1; otherwise 1 + ceil(max(0, length - size) / (size - overlap)) chunks of the stripped text (none for an empty one), the i-th with index i, start i (size - overlap) and the text there; a non-empty loop is left only by its break |
| Chunking.WindowsOf | src/app/domain/chunking.py:49-72 | 1 + ceil(max(0, length - size) / (size - overlap)) windows, in order, each at its index times the stride |
| Chunking.WindowsAreChunks | src/app/domain/chunking.py:57-70 | window i has index i, starts at i (size - overlap), and holds the text from there, at most `size` characters |
| Chunking.StripTrims | src/app/domain/chunking.py:54 | stripping removes white space at both ends and nothing else, and no other text is the trimmed one |
| Chunking.NeighboursOverlap | src/app/domain/chunking.py:49-72 | adjacent chunks share exactly `overlap` characters, and each adds something beyond them |
| Chunking.ChunksRebuildText | src/app/domain/chunking.py:27-72 | the first chunk and each later one without its overlap rebuild the stripped text |
| Similarity.CauchySchwarz | src/app/adapters/providers/fake.py:155-165 | the squared dot product is at most the product of the squared norms, for any length |
| Similarity.ScoreIsBounded | src/app/adapters/providers/fake.py:155-165 | the score lies between -1 and 1 |
| Similarity.ScoreIsSignedSquare | src/app/adapters/providers/fake.py:155-165 | the score is the square, with the sign, of the cosine over the first min(|a|, |b|) components |
| Similarity.ZeroScores | src/app/adapters/providers/fake.py:155-165 | a vector that is zero over the common components scores 0 |
| Similarity.DotFromFront | src/app/adapters/providers/fake.py:160-162 | the dot product is the sum of the products of the components |
| Similarity.SignedSquareKeepsOrder | src/app/adapters/providers/fake.py:90-92 | sorting by it orders matches as the cosine does |
| VectorStore.FakeVectorStore.Upsert | src/app/adapters/providers/fake.py:68-76 | stores for each id the last item that names it, leaves the other entries and every other namespace alone |
| VectorStore.FakeVectorStore.Query | src/app/adapters/providers/fake.py:78-92 | matches with the stored entry's score and metadata, ordered by score descending then id ascending, as many as top_k or the entries allow, none left out that ranks before one returned; a negative top_k drops that many from the end |
| VectorStore.QueryAnswers | src/app/adapters/providers/fake.py:86-92 | what Query returns, as a statement about the stored entries |
| VectorStore.StrLessIff | src/app/adapters/providers/fake.py:91 | ids are compared lexicographically |
| VectorStore.RankingRanks | src/app/adapters/providers/fake.py:86-91 | the sorted list holds every entry's match and no other, strictly ordered by score descending, id ascending |
| VectorStore.RankingIsUnique | src/app/adapters/providers/fake.py:90-91 | there is only one such list |
| VectorStore.RankingDependsOnContents | src/app/adapters/providers/fake.py:64-92 | buckets with equal contents rank alike, whatever their insertion order |
| VectorStore.InsertionOrderDoesNotMatter | src/app/adapters/providers/fake.py:68-92 | upserting the same items in another order gives the same ranking |
| VectorStore.TopKIsBest | src/app/adapters/providers/fake.py:92 | no omitted match outranks a returned one, and none is omitted unless top_k are returned |
| VectorStore.UpsertAbsorbs | src/app/adapters/providers/fake.py:68-76 | an upsert absorbs any earlier, possibly cut, upsert of the same items, insertion order included |
| Pipelines.ReExecutionIsAbsorbed | src/app/services/pipelines.py:55-62 | any number of runs cut anywhere, then a complete one, leave both stores as one complete run would |
| Pipelines.RunIsItsActs | src/app/services/pipelines.py:125-224 | a run cut anywhere is the sequence of its single writes |
| Pipelines.MergeSeparates | src/app/services/pipelines.py:125-224 | however the single writes of a job and of jobs apart from it are merged, the stores are as if the others had all come first |
| Pipelines.InterleavedReExecutionIsAbsorbed | src/app/services/pipelines.py:55-62 | cut runs and a final complete run, merged write by write with jobs apart from it, leave the stores as one complete run after the others would |
| Pipelines.RunsCommute | src/app/services/pipelines.py:125-224 | runs of jobs that share neither namespace nor key commute, wherever they are cut |
| Pipelines.DistinctJobsRunApart | src/app/services/pipelines.py:125-224 | distinct jobs run apart, unless both embed a document of the same name |
| Pipelines.ResultKeysNeverCollide | src/app/services/pipelines.py:55-62 | no two jobs write the same object |
| Pipelines.Workspace.RunEmbedDocument | src/app/services/pipelines.py:187-224 | a malformed payload changes nothing; otherwise the stores are those of its plan cut at the same point, and a complete run returns the artifact's address |
| Pipelines.Workspace.RunRagQuery | src/app/services/pipelines.py:125-174 | likewise, the answer computed from the vectors just indexed |
| Pipelines.DocumentStored | src/app/services/pipelines.py:187-224 | a complete document run stores every chunk under `<doc>:chunk:<i>` with its text embedded and its place, nothing else in a fresh namespace, and a manifest that lists them under the job's key; size and overlap default to 512 and 64 |
| Pipelines.QueryStored | src/app/services/pipelines.py:125-174 | a complete query run searches twice top_k (3 by default) snippets, stores each under `snip:<i>`, and puts an answer completed from the prompt over the best top_k of them, with their texts and ids, under the job's key |
| Pipelines.PartialStores | src/app/services/pipelines.py:125-224 | a run cut before its artifact stores the items written so far and nothing else |
| Pipelines.ChunkItemsAreNumbered | src/app/services/pipelines.py:202-209 | the record ids of a document are pairwise distinct |
| Pipelines.OptionalIntIff | src/app/services/pipelines.py:81-92 | a field is read as an integer or an integral float, or the default if absent; booleans, texts and fractions are refused |
| Pipelines.RequireStrIff | src/app/services/pipelines.py:65-78 | a field is read exactly if it is a string |
| Pipelines.NoDocument | src/app/services/pipelines.py:187-195 | a payload without a text, or with a bad size or overlap field, plans nothing |
| Pipelines.PromptForm | src/app/services/pipelines.py:95-105 | the question alone, or after the context |
| Pipelines.JoinForm | src/app/services/pipelines.py:104 | the context texts in order, a blank line apart |
| Pipelines.ContextAppend | src/app/services/pipelines.py:155-156 | the context is the text of each match that has one, in order |

## Left out

- The HTTP application, routes, schemas, authentication, dependencies and health probes: framework plumbing.
- The S3, Hugging Face, Pinecone and search adapters and all error classifiers: a call is ok, transient, permanent or an unexpected exception.
- Time: backoff delays, `created_at`, `updated_at`, block and idle times; durations are arbitrary integers, and which entries are idle is arbitrary.
- asyncio's scheduler, signals, the thread pool, `run`'s outer loop and `drain`: tasks interleave arbitrarily at every `await`.
- SQLAlchemy, sessions and migrations: the repository is a map of whole rows; a row is never deleted.
- Redis persistence and trimming: the stream and its group do not lose data.
- Malformed stream entries: a decoding error before the consumer's `try` is not a step; the codec's own errors are modelled.
- Exception and log texts: an exception is a text, an invalid transition a fixed one, and a dead letter's reason is kept as its cause.
- JSON rendering of artifacts: an artifact is kept as its fields.
- Text.ParseUuid: does not model the urn prefix and braces that Python's UUID constructor also takes.
- Text.ParseInt: does not model the surrounding white space and underscores that Python's int also takes.
- Consumer.StreamConsumer.ConsumeOnce: other consumers, XACKs by tasks and the pipelines are part of the script, not of the shared machine in `Protocol`.
- Sweep.SweepClaimsEveryIdleEntry: nothing is said of a pending list that grows between passes.
- LockStep.QuiescentMeansFinished: runs in which a consumer takes over an entry its worker is still on count as faulty; `Recovery` allows them.
- Settling.NoJobIsLostFine: its condition is exact for settled acks; the exact one for a lost job is in `Settling.HeldIffNeverDropped`.
- FineRuns.RecordsStayConsistentFine: takes an update as one write of the whole row; `Columns` says when it is one.
- Similarity.Score: exact reals instead of floating point, and the signed square instead of the cosine, which needs roots.
- VectorStore.SortMatches: Python's sort as an insertion sort on the same keys; ranks never tie, so stability does not show.
- FakeEmbedding's hashing, FakeLLM and FakeSearch: arbitrary deterministic functions in `Pipelines.Context`.
- Pipelines.ReExecutionIsAbsorbed: providers that answer differently on a re-execution are not covered.
