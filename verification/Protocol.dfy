/**
 The job delivery protocol as a step machine (src/app/adapters/broker/consumer.py,
 producer.py, services/processor.py, services/ingestion.py).

 The shared stores are the rows, the work stream with its consumer group (a
 last-delivered cursor and a pending entries list), and the dead-letter stream.
 A task is one control thread of some consumer working on one delivered entry;
 its program counter sits at the `await` it is about to make. Every step is one
 such call, so any number of consumers interleave at every `await`.

 `Abort` ends a task where it stands. It stands for a crashed or cancelled
 worker, and for every call whose exception leaves the task: a call that failed
 without effect is an `Abort` instead of the step, a call that took effect and
 then failed is the step followed by an `Abort`.
 */
module Protocol {
  import opened Wrappers
  import opened Jobs
  import opened Messages

  type ConsumerId = nat
  type EntryId = nat
  type TaskId = nat

  datatype Config = Config(maxAttempts: int, maxDeliveryCount: int)

  /** A pending entry: the consumer it was last delivered to, and how often it was delivered. */
  datatype Claim = Claim(owner: ConsumerId, deliveries: nat)

  /** Why a pointer is dead-lettered. */
  datatype Cause =
    | Exhausted(attempt: int, exc: string)
    | Permanent(exc: string)
    | Unexpected(exc: string)
    | OverDelivered(deliveries: nat)

  datatype DeadLetter = DeadLetter(msg: JobMessage, cause: Cause)

  /** The text stored in the row's `error` column. */
  function ErrorText(cause: Cause): string {
    match cause
    case Exhausted(attempt, exc) => "exhausted after " + Text.Decimal(attempt) + ": " + exc
    case Permanent(exc) => exc
    case Unexpected(exc) => exc
    case OverDelivered(_) => ""
  }

  /** Where a task stands: the call it makes next. */
  datatype Pc =
    | AtClaimed                  // reclaimed; the delivery count is not read yet
    | AtGuard                    // dispatched; about to re-read the row
    | AtBegin                    // in the processor, about to load and mark the row
    | AtStart(job: Job)          // the row is marked running; about to call the pipeline
    | Executing(job: Job)        // running the pipeline on a detached snapshot
    | AtCommit(job: Job)         // about to write the successful snapshot back
    | AtRequeue                  // transient failure, about to reset the row
    | AtRepublish                // about to publish the next attempt
    | AtBury(cause: Cause)       // about to append to the dead-letter stream
    | AtAckDead(cause: Cause)    // dead-lettered, about to ack
    | AtFail(cause: Cause)       // acked, about to mark the row failed
    | AtAck                      // about to ack and finish
    | Done

  datatype Task = Task(consumer: ConsumerId, entry: EntryId, msg: JobMessage, pc: Pc)

  datatype State = State(
    rows: map<JobId, Job>,
    submitting: map<JobId, nat>,   // submissions not finished: publish calls they may still make
    stream: seq<JobMessage>,       // entry ids are positions
    cursor: EntryId,               // entries before it have been delivered at least once
    pel: map<EntryId, Claim>,
    dlq: seq<DeadLetter>,
    tasks: seq<Task>)

  datatype PublishOutcome =
    | Published
    | PublishTransient(appended: bool)
    | PublishPermanent(appended: bool)

  datatype PipelineOutcome =
    | Succeeded(resultRef: string, durationMs: int)
    | TransientError(exc: string)
    | PermanentError(exc: string)

  /** The fate of a row write made inside the processor, whose exceptions the consumer catches. */
  datatype WriteOutcome = Written | WriteLost(exc: string) | WriteFailed(exc: string)

  datatype Step =
    | Submit(job: JobId, jobType: JobType, payload: Payload, tries: nat)
    | Publish(job: JobId, published: PublishOutcome)
    | Abandon(job: JobId)
    | Read(consumer: ConsumerId, received: bool)
    | ClaimEntry(consumer: ConsumerId, entry: EntryId)
    | CountDeliveries(task: TaskId)
    | Reclaim(consumer: ConsumerId, entry: EntryId)
    | Abort(task: TaskId)
    | Guard(task: TaskId)
    | Begin(task: TaskId)
    | BeginRaises(task: TaskId, exc: string)   // a call of the begin window failed without effect
    | BeginLost(task: TaskId, exc: string)     // its write took effect, but the call raised
    | StartPipeline(task: TaskId)
    | Finish(task: TaskId, outcome: PipelineOutcome)
    | Commit(task: TaskId, write: WriteOutcome)
    | RequeueRow(task: TaskId)
    | Republish(task: TaskId)
    | Bury(task: TaskId)
    | Ack(task: TaskId)
    | FailRow(task: TaskId)

  const INITIAL := State(map[], map[], [], 0, map[], [], [])

  // ------------------------------------------------------------- projections

  function RowOf(s: State, t: TaskId): Option<Job>
    requires t < |s.tasks|
  {
    var j := s.tasks[t].msg.jobId;
    if j in s.rows then Some(s.rows[j]) else None
  }

  /** The entries in the consumer's in-flight register: a dispatched task is not past its `finally`. */
  predicate Dispatched(pc: Pc) {
    && !pc.AtClaimed? && !pc.Done?
    && !((pc.AtBury? || pc.AtAckDead?) && pc.cause.OverDelivered?)
  }

  predicate InFlight(s: State, c: ConsumerId, e: EntryId) {
    exists t :: 0 <= t < |s.tasks| && s.tasks[t].consumer == c && s.tasks[t].entry == e && Dispatched(s.tasks[t].pc)
  }

  // ----------------------------------------------------------------- changes

  datatype Move =
    | Stay
    | Goto(task: TaskId, pc: Pc)
    | Spawn(consumer: ConsumerId, entry: EntryId, pc: Pc)

  /** Everything one call does: a row write, appends, new group bookkeeping, and where its task goes. */
  datatype Change = Change(
    write: Option<Job>,
    submitting: map<JobId, nat>,
    publish: Option<JobMessage>,
    cursor: EntryId,
    pel: map<EntryId, Claim>,
    bury: Option<DeadLetter>,
    move: Move)

  function Nothing(s: State): Change {
    Change(None, s.submitting, None, s.cursor, s.pel, None, Stay)
  }

  function Appended<T>(xs: seq<T>, x: Option<T>): seq<T> {
    if x.Some? then xs + [x.value] else xs
  }

  function MoveTasks(s: State, move: Move): seq<Task> {
    match move
    case Stay => s.tasks
    case Goto(t, pc) => if t < |s.tasks| then s.tasks[t := s.tasks[t].(pc := pc)] else s.tasks
    case Spawn(c, e, pc) => if e < |s.stream| then s.tasks + [Task(c, e, s.stream[e], pc)] else s.tasks
  }

  function Perform(s: State, d: Change): State {
    State(
      if d.write.Some? then s.rows[d.write.value.id := d.write.value] else s.rows,
      d.submitting,
      Appended(s.stream, d.publish),
      d.cursor,
      d.pel,
      Appended(s.dlq, d.bury),
      MoveTasks(s, d.move))
  }

  // ------------------------------------------------------------ task routing

  /** What a reclaimed entry with the given delivery count is routed to. */
  function ReclaimPc(c: Config, deliveries: nat): Pc {
    if deliveries > c.maxDeliveryCount then AtBury(OverDelivered(deliveries)) else AtGuard
  }

  function AfterGuard(row: Option<Job>): Pc {
    if row.None? || row.value.IsTerminal() then AtAck else AtBegin
  }

  /** Where the processor's load-and-mark leads, and the row it writes, if any. */
  function AfterBegin(row: Option<Job>): (Option<Job>, Pc) {
    if row.None? || row.value.IsTerminal() then (None, AtAck)
    else match MarkRunning(row.value)
         case Ok(job) => (Some(job), AtStart(job))
         case Err(_) => (None, AtBury(Unexpected("InvalidTransition")))
  }

  function AfterPipeline(c: Config, m: JobMessage, job: Job, outcome: PipelineOutcome): Pc {
    match outcome
    case Succeeded(ref, ms) =>
      (match MarkSuccess(job, ref, Some(ms))
       case Ok(done) => AtCommit(done)
       case Err(_) => AtBury(Unexpected("InvalidTransition")))
    case TransientError(exc) =>
      if m.attempt >= c.maxAttempts then AtBury(Exhausted(m.attempt, exc)) else AtRequeue
    case PermanentError(exc) => AtBury(Permanent(exc))
  }

  function AfterRequeue(row: Option<Job>): (Option<Job>, Pc) {
    if row.None? then (None, AtRepublish)
    else match Requeue(row.value)
         case Ok(job) => (Some(job), AtRepublish)
         case Err(_) => (None, Done)
  }

  function AfterAck(pc: Pc): Pc {
    if pc.AtAckDead? && !pc.cause.OverDelivered? then AtFail(pc.cause) else Done
  }

  function AfterFail(row: Option<Job>, cause: Cause): (Option<Job>, Pc) {
    if row.None? then (None, Done)
    else match MarkFailed(row.value, ErrorText(cause), None)
         case Ok(job) => (Some(job), Done)
         case Err(_) => (None, Done)
  }

  // ------------------------------------------------------------- the machine

  predicate Enabled(c: Config, s: State, step: Step) {
    match step
    case Submit(j, _, _, tries) => j !in s.rows && tries >= 1
    case Publish(j, _) => j in s.submitting && j in s.rows
    case Abandon(j) => j in s.submitting
    case Read(_, _) => s.cursor < |s.stream|
    case ClaimEntry(_, e) => e in s.pel
    case CountDeliveries(t) => t < |s.tasks| && s.tasks[t].pc.AtClaimed?
    case Reclaim(_, e) => e in s.pel
    case Abort(t) => t < |s.tasks| && !s.tasks[t].pc.Done?
    case Guard(t) => t < |s.tasks| && s.tasks[t].pc.AtGuard?
    case Begin(t) => t < |s.tasks| && s.tasks[t].pc.AtBegin?
    case BeginRaises(t, _) => t < |s.tasks| && s.tasks[t].pc.AtBegin?
    case BeginLost(t, _) => t < |s.tasks| && s.tasks[t].pc.AtStart?
    case StartPipeline(t) => t < |s.tasks| && s.tasks[t].pc.AtStart?
    case Finish(t, _) => t < |s.tasks| && s.tasks[t].pc.Executing?
    case Commit(t, _) => t < |s.tasks| && s.tasks[t].pc.AtCommit?
    case RequeueRow(t) => t < |s.tasks| && s.tasks[t].pc.AtRequeue?
    case Republish(t) => t < |s.tasks| && s.tasks[t].pc.AtRepublish?
    case Bury(t) => t < |s.tasks| && s.tasks[t].pc.AtBury?
    case Ack(t) => t < |s.tasks| && (s.tasks[t].pc.AtAck? || s.tasks[t].pc.AtAckDead?)
    case FailRow(t) => t < |s.tasks| && s.tasks[t].pc.AtFail?
  }

  function PublishChange(s: State, j: JobId, outcome: PublishOutcome): Change
    requires j in s.submitting && j in s.rows
  {
    var left := s.submitting[j];
    Nothing(s).(
    publish := if outcome.Published? || outcome.appended then Some(FirstDelivery(s.rows[j])) else None,
    submitting := if outcome.PublishTransient? && left > 1 then s.submitting[j := left - 1] else s.submitting - {j})
  }

  /** XREADGROUP of one new entry; its reply may be lost. */
  function ReadChange(s: State, c: ConsumerId, received: bool): Change {
    Nothing(s).(
    cursor := s.cursor + 1,
    pel := s.pel[s.cursor := Claim(c, 1)],
    move := if received then Spawn(c, s.cursor, AtGuard) else Stay)
  }

  /** XAUTOCLAIM of one entry: a new owner and one more delivery. */
  function ClaimChange(s: State, c: ConsumerId, e: EntryId): Change
    requires e in s.pel
  {
    Nothing(s).(pel := s.pel[e := Claim(c, s.pel[e].deliveries + 1)])
  }

  /** The count read after a claim; an entry acked in between reports no deliveries. */
  function CountMove(c: Config, s: State, t: TaskId): Move
    requires t < |s.tasks|
  {
    var k := s.tasks[t];
    Goto(t, if InFlight(s, k.consumer, k.entry) then Done
            else ReclaimPc(c, if k.entry in s.pel then s.pel[k.entry].deliveries else 0))
  }

  /** Claim, count and routing of one entry with nothing in between. */
  function ReclaimMove(c: Config, s: State, k: ConsumerId, e: EntryId): Move
    requires e in s.pel
  {
    if InFlight(s, k, e) then Stay else Spawn(k, e, ReclaimPc(c, s.pel[e].deliveries + 1))
  }

  function CommitChange(s: State, t: TaskId, outcome: WriteOutcome): Change
    requires t < |s.tasks| && s.tasks[t].pc.AtCommit?
  {
    Nothing(s).(
    write := if outcome.WriteFailed? then None else Some(s.tasks[t].pc.job),
    move := Goto(t, if outcome.Written? then AtAck else AtBury(Unexpected(outcome.exc))))
  }

  /** A row window (get, transition, update) run to its end at once. */
  function WindowChange(s: State, t: TaskId, after: (Option<Job>, Pc)): Change {
    Nothing(s).(write := after.0, move := Goto(t, after.1))
  }

  function ChangeOf(c: Config, s: State, step: Step): Change
    requires Enabled(c, s, step)
  {
    match step
    case Submit(j, ty, payload, tries) =>
      Nothing(s).(write := Some(NewJob(j, ty, payload)), submitting := s.submitting[j := tries])
    case Publish(j, outcome) => PublishChange(s, j, outcome)
    case Abandon(j) => Nothing(s).(submitting := s.submitting - {j})
    case Read(k, received) => ReadChange(s, k, received)
    case ClaimEntry(k, e) => ClaimChange(s, k, e).(move := Spawn(k, e, AtClaimed))
    case CountDeliveries(t) => Nothing(s).(move := CountMove(c, s, t))
    case Reclaim(k, e) => ClaimChange(s, k, e).(move := ReclaimMove(c, s, k, e))
    case Abort(t) => Nothing(s).(move := Goto(t, Done))
    case Guard(t) => Nothing(s).(move := Goto(t, AfterGuard(RowOf(s, t))))
    case Begin(t) => WindowChange(s, t, AfterBegin(RowOf(s, t)))
    case BeginRaises(t, exc) => Nothing(s).(move := Goto(t, AtBury(Unexpected(exc))))
    case BeginLost(t, exc) => Nothing(s).(move := Goto(t, AtBury(Unexpected(exc))))
    case StartPipeline(t) => Nothing(s).(move := Goto(t, Executing(s.tasks[t].pc.job)))
    case Finish(t, outcome) =>
      Nothing(s).(move := Goto(t, AfterPipeline(c, s.tasks[t].msg, s.tasks[t].pc.job, outcome)))
    case Commit(t, outcome) => CommitChange(s, t, outcome)
    case RequeueRow(t) => WindowChange(s, t, AfterRequeue(RowOf(s, t)))
    case Republish(t) => Nothing(s).(publish := Some(s.tasks[t].msg.NextAttempt()), move := Goto(t, AtAck))
    case Bury(t) =>
      Nothing(s).(bury := Some(DeadLetter(s.tasks[t].msg, s.tasks[t].pc.cause)),
                  move := Goto(t, AtAckDead(s.tasks[t].pc.cause)))
    case Ack(t) => Nothing(s).(pel := s.pel - {s.tasks[t].entry}, move := Goto(t, AfterAck(s.tasks[t].pc)))
    case FailRow(t) => WindowChange(s, t, AfterFail(RowOf(s, t), s.tasks[t].pc.cause))
  }

  function Apply(c: Config, s: State, step: Step): State
    requires Enabled(c, s, step)
  {
    Perform(s, ChangeOf(c, s, step))
  }

  /** `steps` can be taken one after the other from `s`. */
  predicate Legal(c: Config, s: State, steps: seq<Step>)
    decreases |steps|
  {
    steps == [] || (Enabled(c, s, steps[0]) && Legal(c, Apply(c, s, steps[0]), steps[1..]))
  }

  /** The state a legal run ends in. */
  function Exec(c: Config, s: State, steps: seq<Step>): State
    requires Legal(c, s, steps)
    decreases |steps|
  {
    if steps == [] then s else Exec(c, Apply(c, s, steps[0]), steps[1..])
  }

  ghost predicate Reachable(c: Config, s: State) {
    exists steps :: Legal(c, INITIAL, steps) && Exec(c, INITIAL, steps) == s
  }
}
