/**
 Execution safety: executions of one job never overlap, whatever is redelivered;
 terminal rows stay terminal; stored records stay consistent; `attempts` counts
 the executions begun; success is written at most once.
 */
module Execution {
  import opened Jobs
  import opened Protocol
  import opened Integrity

  /** The task owns the job's current execution: from the begin write to the success or requeue write. */
  predicate Holds(pc: Pc) {
    pc.AtStart? || pc.Executing? || pc.AtCommit? || pc.AtRequeue?
  }

  predicate HoldsJob(k: Task, j: JobId) {
    Holds(k.pc) && k.msg.jobId == j
  }

  /** A holder's detached snapshot against the stored row. */
  predicate SnapshotOk(row: Job, pc: Pc) {
    && row.status in {Running, Failed}
    && (pc.AtStart? || pc.Executing? ==> pc.job.status == Running)
    && (pc.AtCommit? ==> pc.job.status == Success)
    && (pc.AtStart? || pc.Executing? || pc.AtCommit? ==> pc.job.attempts == row.attempts && Consistent(pc.job))
  }

  ghost predicate Records(s: State) {
    forall j :: j in s.rows ==> Consistent(s.rows[j])
  }

  ghost predicate HoldersOk(s: State) {
    forall t :: 0 <= t < |s.tasks| && Holds(s.tasks[t].pc) ==>
      s.tasks[t].msg.jobId in s.rows && SnapshotOk(s.rows[s.tasks[t].msg.jobId], s.tasks[t].pc)
  }

  ghost predicate OneHolder(s: State) {
    forall t, u ::
      0 <= t < |s.tasks| && 0 <= u < |s.tasks| && HoldsJob(s.tasks[t], s.tasks[u].msg.jobId) && Holds(s.tasks[u].pc)
      ==> t == u
  }

  ghost predicate Safe(c: Config, s: State) {
    Intact(c, s) && Records(s) && HoldersOk(s) && OneHolder(s)
  }

  /** The five ways a step can touch a row or an execution. */
  predicate Quiet(s: State, d: Change) {
    && d.write.None?
    && (d.move.Goto? && Holds(d.move.pc) ==>
          && d.move.task < |s.tasks| && Holds(s.tasks[d.move.task].pc)
          && s.tasks[d.move.task].msg.jobId in s.rows
          && SnapshotOk(s.rows[s.tasks[d.move.task].msg.jobId], d.move.pc))
    && (d.move.Spawn? ==> !Holds(d.move.pc))
  }

  predicate Creates(s: State, d: Change) {
    d.write.Some? && d.write.value.id !in s.rows && Consistent(d.write.value) && d.move.Stay?
  }

  /** A write to the row of the task that moves. */
  predicate Writes(s: State, d: Change) {
    && d.write.Some? && d.move.Goto? && d.move.task < |s.tasks|
    && d.write.value.id == s.tasks[d.move.task].msg.jobId && d.write.value.id in s.rows
  }

  predicate Begins(s: State, d: Change) {
    && Writes(s, d)
    && s.rows[d.write.value.id].status == Pending
    && d.write.value.attempts == s.rows[d.write.value.id].attempts + 1
    && Consistent(d.write.value)
    && d.write.value.status == Running
    && d.move.pc == AtStart(d.write.value)
  }

  /** The holder's own write that ends its execution: success, or back to pending. */
  predicate Releases(s: State, d: Change) {
    && Writes(s, d)
    && Holds(s.tasks[d.move.task].pc) && !Holds(d.move.pc)
    && d.write.value.attempts == s.rows[d.write.value.id].attempts
    && Consistent(d.write.value)
    && (d.write.value.status == Success
        || (d.write.value.status == Pending && s.rows[d.write.value.id].status == Running))
  }

  predicate Fails(s: State, d: Change) {
    && Writes(s, d)
    && !Holds(s.tasks[d.move.task].pc) && !Holds(d.move.pc)
    && s.rows[d.write.value.id].status == Running
    && d.write.value.status == Failed
    && d.write.value.attempts == s.rows[d.write.value.id].attempts
    && Consistent(d.write.value)
  }

  predicate Disciplined(s: State, d: Change) {
    Quiet(s, d) || Creates(s, d) || Begins(s, d) || Releases(s, d) || Fails(s, d)
  }

  lemma LoopDisciplined(c: Config, s: State, step: Step)
    requires Safe(c, s) && Enabled(c, s, step) && !OfTask(step)
    ensures Disciplined(s, ChangeOf(c, s, step))
  {
  }

  /** Steps that may write the row of their task. */
  predicate MayWrite(step: Step) {
    step.Begin? || step.Commit? || step.RequeueRow? || step.FailRow?
  }

  /** What `Safe` says of one task and its row. */
  ghost predicate TaskSafe(c: Config, s: State, t: TaskId) {
    && t < |s.tasks| && TaskOk(c, s, s.tasks[t])
    && s.tasks[t].msg.jobId in s.rows && s.rows[s.tasks[t].msg.jobId].id == s.tasks[t].msg.jobId
    && Consistent(s.rows[s.tasks[t].msg.jobId])
    && (Holds(s.tasks[t].pc) ==> SnapshotOk(s.rows[s.tasks[t].msg.jobId], s.tasks[t].pc))
  }

  lemma EachTaskSafe(c: Config, s: State, t: TaskId)
    requires Safe(c, s) && t < |s.tasks|
    ensures TaskSafe(c, s, t)
  {
    assert TaskOk(c, s, s.tasks[t]) && PointerOk(c, s.rows, s.tasks[t].msg);
  }

  lemma BeginDisciplined(c: Config, s: State, t: TaskId)
    requires TaskSafe(c, s, t) && s.tasks[t].pc.AtBegin?
    ensures var d := WindowChange(s, t, AfterBegin(RowOf(s, t))); Quiet(s, d) || Begins(s, d)
  {
  }

  lemma CommitDisciplined(c: Config, s: State, t: TaskId, outcome: WriteOutcome)
    requires TaskSafe(c, s, t) && s.tasks[t].pc.AtCommit?
    ensures var d := CommitChange(s, t, outcome); Quiet(s, d) || Releases(s, d)
  {
  }

  lemma RequeueDisciplined(c: Config, s: State, t: TaskId)
    requires TaskSafe(c, s, t) && s.tasks[t].pc.AtRequeue?
    ensures var d := WindowChange(s, t, AfterRequeue(RowOf(s, t))); Quiet(s, d) || Releases(s, d)
  {
  }

  lemma FailDisciplined(c: Config, s: State, t: TaskId, cause: Cause)
    requires TaskSafe(c, s, t) && s.tasks[t].pc == AtFail(cause)
    ensures var d := WindowChange(s, t, AfterFail(RowOf(s, t), cause)); Quiet(s, d) || Fails(s, d)
  {
  }

  lemma WriteDisciplined(c: Config, s: State, step: Step)
    requires Safe(c, s) && Enabled(c, s, step) && MayWrite(step)
    ensures Disciplined(s, ChangeOf(c, s, step))
  {
    EachTaskSafe(c, s, step.task);
    match step
    case Begin(t) => BeginDisciplined(c, s, t);
    case Commit(t, outcome) => CommitDisciplined(c, s, t, outcome);
    case RequeueRow(t) => RequeueDisciplined(c, s, t);
    case FailRow(t) => FailDisciplined(c, s, t, s.tasks[t].pc.cause);
  }

  lemma TaskDisciplined(c: Config, s: State, step: Step)
    requires Safe(c, s) && Enabled(c, s, step) && OfTask(step) && !MayWrite(step)
    ensures Quiet(s, ChangeOf(c, s, step))
  {
    EachTaskSafe(c, s, step.task);
    TaskQuiet(c, s, step);
  }

  lemma TaskQuiet(c: Config, s: State, step: Step)
    requires Enabled(c, s, step) && OfTask(step) && !MayWrite(step) && TaskSafe(c, s, step.task)
    ensures Quiet(s, ChangeOf(c, s, step))
  {
  }

  lemma StepDisciplined(c: Config, s: State, step: Step)
    requires Safe(c, s) && Enabled(c, s, step)
    ensures Disciplined(s, ChangeOf(c, s, step))
  {
    if MayWrite(step) {
      WriteDisciplined(c, s, step);
    } else if OfTask(step) {
      TaskDisciplined(c, s, step);
    } else {
      LoopDisciplined(c, s, step);
    }
  }

  lemma ChangeKeepsRecords(c: Config, s: State, d: Change)
    requires Safe(c, s) && Disciplined(s, d)
    ensures Records(Perform(s, d))
  {
  }

  lemma ChangeKeepsOneHolder(c: Config, s: State, d: Change)
    requires Safe(c, s) && Disciplined(s, d)
    ensures OneHolder(Perform(s, d))
  {
  }

  lemma ChangeKeepsHolders(c: Config, s: State, d: Change)
    requires Safe(c, s) && ChangeOk(c, s, d) && Disciplined(s, d)
    ensures HoldersOk(Perform(s, d))
  {
    var s' := Perform(s, d);
    forall t | 0 <= t < |s'.tasks| && Holds(s'.tasks[t].pc)
      ensures s'.tasks[t].msg.jobId in s'.rows && SnapshotOk(s'.rows[s'.tasks[t].msg.jobId], s'.tasks[t].pc)
    {
      assert t < |s.tasks|;
    }
  }

  lemma StepKeepsSafe(c: Config, s: State, step: Step)
    requires Safe(c, s) && Enabled(c, s, step)
    ensures Safe(c, Apply(c, s, step))
  {
    var d := ChangeOf(c, s, step);
    StepDisciplined(c, s, step);
    EveryChangeOk(c, s, step);
    StepKeepsIntegrity(c, s, step);
    ChangeKeepsRecords(c, s, d);
    ChangeKeepsOneHolder(c, s, d);
    ChangeKeepsHolders(c, s, d);
  }

  lemma {:induction false} RunKeepsSafe(c: Config, s: State, steps: seq<Step>)
    requires Safe(c, s) && Legal(c, s, steps)
    ensures Safe(c, Exec(c, s, steps))
    decreases |steps|
  {
    if steps != [] {
      StepKeepsSafe(c, s, steps[0]);
      RunKeepsSafe(c, Apply(c, s, steps[0]), steps[1..]);
    }
  }

  // ------------------------------------------------------------ main results

  /** In every reachable state, no two tasks execute one job, and an executing job's row is running or failed. */
  lemma ExecutionsNeverOverlap(c: Config, steps: seq<Step>, t: TaskId, u: TaskId)
    requires Legal(c, INITIAL, steps)
    requires t < |Exec(c, INITIAL, steps).tasks| && u < |Exec(c, INITIAL, steps).tasks|
    requires Exec(c, INITIAL, steps).tasks[t].pc.Executing? && Exec(c, INITIAL, steps).tasks[u].pc.Executing?
    requires Exec(c, INITIAL, steps).tasks[t].msg.jobId == Exec(c, INITIAL, steps).tasks[u].msg.jobId
    ensures t == u
    ensures var s := Exec(c, INITIAL, steps);
            s.tasks[t].msg.jobId in s.rows && s.rows[s.tasks[t].msg.jobId].status in {Running, Failed}
  {
    RunKeepsSafe(c, INITIAL, steps);
  }

  /** Every stored record of every reachable state is consistent. */
  lemma RecordsStayConsistent(c: Config, steps: seq<Step>, j: JobId)
    requires Legal(c, INITIAL, steps)
    requires j in Exec(c, INITIAL, steps).rows
    ensures Consistent(Exec(c, INITIAL, steps).rows[j])
  {
    RunKeepsSafe(c, INITIAL, steps);
  }

  lemma ChangeOnTerminal(c: Config, s: State, d: Change, j: JobId)
    requires Safe(c, s) && Disciplined(s, d) && j in s.rows && s.rows[j].IsTerminal()
    ensures j in Perform(s, d).rows
    ensures Perform(s, d).rows[j] == s.rows[j]
         || (Releases(s, d) && s.rows[j].status == Failed && Perform(s, d).rows[j].status == Success)
  {
  }

  /** What one step can do to a terminal row: nothing, or turn a failed row into a successful one. */
  lemma TerminalStep(c: Config, s: State, step: Step, j: JobId)
    requires Safe(c, s) && Enabled(c, s, step) && j in s.rows && s.rows[j].IsTerminal()
    ensures j in Apply(c, s, step).rows
    ensures Apply(c, s, step).rows[j] == s.rows[j]
         || (s.rows[j].status == Failed && Apply(c, s, step).rows[j].status == Success)
  {
    StepDisciplined(c, s, step);
    ChangeOnTerminal(c, s, ChangeOf(c, s, step), j);
  }

  /** Once terminal, always terminal; and a successful record is never touched again. */
  lemma {:induction false} TerminalStaysTerminal(c: Config, s: State, steps: seq<Step>, j: JobId)
    requires Safe(c, s) && Legal(c, s, steps) && j in s.rows && s.rows[j].IsTerminal()
    ensures j in Exec(c, s, steps).rows && Exec(c, s, steps).rows[j].IsTerminal()
    ensures s.rows[j].status == Success ==> Exec(c, s, steps).rows[j] == s.rows[j]
    decreases |steps|
  {
    if steps != [] {
      TerminalStep(c, s, steps[0], j);
      StepKeepsSafe(c, s, steps[0]);
      TerminalStaysTerminal(c, Apply(c, s, steps[0]), steps[1..], j);
    }
  }

  /** A result reference, once stored, never changes. */
  lemma ResultRefIsFinal(c: Config, s: State, steps: seq<Step>, j: JobId)
    requires Safe(c, s) && Legal(c, s, steps) && j in s.rows && s.rows[j].resultRef.Some?
    ensures j in Exec(c, s, steps).rows && Exec(c, s, steps).rows[j].resultRef == s.rows[j].resultRef
  {
    TerminalStaysTerminal(c, s, steps, j);
  }

  // ---------------------------------------------------------------- counting

  predicate StartsExecution(s: State, step: Step, j: JobId) {
    step.Begin? && step.task < |s.tasks| && s.tasks[step.task].msg.jobId == j && AfterBegin(RowOf(s, step.task)).0.Some?
  }

  predicate WritesSuccess(s: State, step: Step, j: JobId) {
    && step.Commit? && !step.write.WriteFailed?
    && step.task < |s.tasks| && s.tasks[step.task].msg.jobId == j
  }

  /** How many begin writes of `j` the run makes. */
  function Begun(c: Config, s: State, steps: seq<Step>, j: JobId): nat
    requires Legal(c, s, steps)
    decreases |steps|
  {
    if steps == [] then 0
    else (if StartsExecution(s, steps[0], j) then 1 else 0) + Begun(c, Apply(c, s, steps[0]), steps[1..], j)
  }

  /** How many times the run writes `j` as successful. */
  function SuccessWrites(c: Config, s: State, steps: seq<Step>, j: JobId): nat
    requires Legal(c, s, steps)
    decreases |steps|
  {
    if steps == [] then 0
    else (if WritesSuccess(s, steps[0], j) then 1 else 0) + SuccessWrites(c, Apply(c, s, steps[0]), steps[1..], j)
  }

  function AttemptsOf(s: State, j: JobId): nat {
    if j in s.rows then s.rows[j].attempts else 0
  }

  function SuccessOf(s: State, j: JobId): nat {
    if j in s.rows && s.rows[j].status == Success then 1 else 0
  }

  predicate SavesSuccess(s: State, d: Change) {
    Releases(s, d) && d.write.value.status == Success
  }

  lemma ChangeCounts(c: Config, s: State, d: Change, j: JobId)
    requires Safe(c, s) && Disciplined(s, d)
             && (Creates(s, d) ==> d.write.value.attempts == 0 && d.write.value.status == Pending)
    ensures AttemptsOf(Perform(s, d), j) == AttemptsOf(s, j) + (if Begins(s, d) && d.write.value.id == j then 1 else 0)
    ensures SuccessOf(Perform(s, d), j) ==
            SuccessOf(s, j) + (if SavesSuccess(s, d) && d.write.value.id == j then 1 else 0)
  {
  }

  /** Which step kinds begin, succeed and create. */
  lemma StepKinds(c: Config, s: State, step: Step, j: JobId)
    requires Safe(c, s) && Enabled(c, s, step)
    ensures var d := ChangeOf(c, s, step);
            && (StartsExecution(s, step, j) <==> Begins(s, d) && d.write.value.id == j)
            && (WritesSuccess(s, step, j) <==> SavesSuccess(s, d) && d.write.value.id == j)
            && (Creates(s, d) ==> d.write.value.attempts == 0 && d.write.value.status == Pending)
  {
    if MayWrite(step) {
      WriteKinds(c, s, step, j);
    } else if OfTask(step) {
      TaskDisciplined(c, s, step);
    }
  }

  lemma WriteKinds(c: Config, s: State, step: Step, j: JobId)
    requires Safe(c, s) && Enabled(c, s, step) && MayWrite(step)
    ensures var d := ChangeOf(c, s, step);
            && (StartsExecution(s, step, j) <==> Begins(s, d) && d.write.value.id == j)
            && (WritesSuccess(s, step, j) <==> SavesSuccess(s, d) && d.write.value.id == j)
            && !Creates(s, d)
  {
    EachTaskSafe(c, s, step.task);
  }

  lemma StepCounts(c: Config, s: State, step: Step, j: JobId)
    requires Safe(c, s) && Enabled(c, s, step)
    ensures AttemptsOf(Apply(c, s, step), j) == AttemptsOf(s, j) + (if StartsExecution(s, step, j) then 1 else 0)
    ensures SuccessOf(Apply(c, s, step), j) == SuccessOf(s, j) + (if WritesSuccess(s, step, j) then 1 else 0)
  {
    StepDisciplined(c, s, step);
    StepKinds(c, s, step, j);
    ChangeCounts(c, s, ChangeOf(c, s, step), j);
  }

  lemma {:induction false} RunCounts(c: Config, s: State, steps: seq<Step>, j: JobId)
    requires Safe(c, s) && Legal(c, s, steps)
    ensures AttemptsOf(Exec(c, s, steps), j) == AttemptsOf(s, j) + Begun(c, s, steps, j)
    ensures SuccessOf(Exec(c, s, steps), j) == SuccessOf(s, j) + SuccessWrites(c, s, steps, j)
    decreases |steps|
  {
    if steps != [] {
      StepCounts(c, s, steps[0], j);
      StepKeepsSafe(c, s, steps[0]);
      RunCounts(c, Apply(c, s, steps[0]), steps[1..], j);
    }
  }

  // -------------------------------------------- begin writes and pipeline calls

  predicate Awaits(k: Task, j: JobId) {
    k.msg.jobId == j && k.pc.AtStart?
  }

  /** 1 while a task of `j` stands between its begin write and its pipeline call. */
  function AwaitingStart(s: State, j: JobId): nat {
    if exists t :: 0 <= t < |s.tasks| && Awaits(s.tasks[t], j) then 1 else 0
  }

  predicate StartsPipeline(s: State, step: Step, j: JobId) {
    step.StartPipeline? && step.task < |s.tasks| && s.tasks[step.task].msg.jobId == j
  }

  /** The begin write landed, but its call raised or its worker died, so the pipeline is never called. */
  predicate LosesBegin(s: State, step: Step, j: JobId) {
    (step.BeginLost? || step.Abort?) && step.task < |s.tasks| && Awaits(s.tasks[step.task], j)
  }

  /** How many times the run calls the pipeline for `j`. */
  function PipelineStarts(c: Config, s: State, steps: seq<Step>, j: JobId): nat
    requires Legal(c, s, steps)
    decreases |steps|
  {
    if steps == [] then 0
    else (if StartsPipeline(s, steps[0], j) then 1 else 0) + PipelineStarts(c, Apply(c, s, steps[0]), steps[1..], j)
  }

  /** How many begin writes of `j` landed without the pipeline being called. */
  function LostBegins(c: Config, s: State, steps: seq<Step>, j: JobId): nat
    requires Legal(c, s, steps)
    decreases |steps|
  {
    if steps == [] then 0
    else (if LosesBegin(s, steps[0], j) then 1 else 0) + LostBegins(c, Apply(c, s, steps[0]), steps[1..], j)
  }

  /** A task leaves the gap after its begin write only by the pipeline call or by losing it. */
  lemma OnlyWayOut(c: Config, s: State, step: Step, t: TaskId, j: JobId)
    requires Enabled(c, s, step) && t < |s.tasks| && Awaits(s.tasks[t], j)
    ensures t < |Apply(c, s, step).tasks| && Apply(c, s, step).tasks[t].msg == s.tasks[t].msg
    ensures if (StartsPipeline(s, step, j) || LosesBegin(s, step, j)) && step.task == t
            then !Awaits(Apply(c, s, step).tasks[t], j)
            else Apply(c, s, step).tasks[t] == s.tasks[t]
  {
  }

  /** A task enters it only by its begin write. */
  lemma OnlyWayIn(c: Config, s: State, step: Step, t: TaskId, j: JobId)
    requires Enabled(c, s, step) && t < |Apply(c, s, step).tasks| && Awaits(Apply(c, s, step).tasks[t], j)
    ensures t < |s.tasks|
    ensures Awaits(s.tasks[t], j) || (StartsExecution(s, step, j) && step.task == t)
  {
  }

  lemma BeginEnters(c: Config, s: State, step: Step, j: JobId)
    requires Safe(c, s) && Enabled(c, s, step) && StartsExecution(s, step, j)
    ensures AwaitingStart(s, j) == 0 && AwaitingStart(Apply(c, s, step), j) == 1
  {
    EachTaskSafe(c, s, step.task);
    assert Awaits(Apply(c, s, step).tasks[step.task], j);
    forall t | 0 <= t < |s.tasks| ensures !Awaits(s.tasks[t], j) { EachTaskSafe(c, s, t); }
  }

  lemma StartLeaves(c: Config, s: State, step: Step, j: JobId)
    requires Safe(c, s) && Enabled(c, s, step) && (StartsPipeline(s, step, j) || LosesBegin(s, step, j))
    ensures AwaitingStart(s, j) == 1 && AwaitingStart(Apply(c, s, step), j) == 0
  {
    var s' := Apply(c, s, step);
    assert Awaits(s.tasks[step.task], j);
    forall t | 0 <= t < |s'.tasks| ensures !Awaits(s'.tasks[t], j) {
      if Awaits(s'.tasks[t], j) {
        OnlyWayIn(c, s, step, t, j);
        OnlyWayOut(c, s, step, step.task, j);
      }
    }
  }

  lemma OthersKeepAwaiting(c: Config, s: State, step: Step, j: JobId)
    requires Enabled(c, s, step) && !StartsExecution(s, step, j) && !StartsPipeline(s, step, j)
             && !LosesBegin(s, step, j)
    ensures AwaitingStart(Apply(c, s, step), j) == AwaitingStart(s, j)
  {
    var s' := Apply(c, s, step);
    if t :| 0 <= t < |s.tasks| && Awaits(s.tasks[t], j) {
      OnlyWayOut(c, s, step, t, j);
      assert Awaits(s'.tasks[t], j);
    } else if t :| 0 <= t < |s'.tasks| && Awaits(s'.tasks[t], j) {
      OnlyWayIn(c, s, step, t, j);
    }
  }

  /** Every begin write is followed by its pipeline call, is lost, or still waits. */
  lemma {:induction false} BeginsAccountedFor(c: Config, s: State, steps: seq<Step>, j: JobId)
    requires Safe(c, s) && Legal(c, s, steps)
    ensures AwaitingStart(s, j) + Begun(c, s, steps, j)
            == PipelineStarts(c, s, steps, j) + LostBegins(c, s, steps, j) + AwaitingStart(Exec(c, s, steps), j)
    decreases |steps|
  {
    if steps != [] {
      if StartsExecution(s, steps[0], j) {
        BeginEnters(c, s, steps[0], j);
      } else if StartsPipeline(s, steps[0], j) || LosesBegin(s, steps[0], j) {
        StartLeaves(c, s, steps[0], j);
      } else {
        OthersKeepAwaiting(c, s, steps[0], j);
      }
      StepKeepsSafe(c, s, steps[0]);
      BeginsAccountedFor(c, Apply(c, s, steps[0]), steps[1..], j);
    }
  }

  /**
   The stored `attempts` is the number of begin writes of the whole run: the
   pipeline calls, plus the begins that landed but were lost, plus one while a
   worker is between the two. So it is the number of pipeline calls exactly when
   no begin was lost and none is under way.
   */
  lemma AttemptsCountStarts(c: Config, steps: seq<Step>, j: JobId)
    requires Legal(c, INITIAL, steps) && j in Exec(c, INITIAL, steps).rows
    ensures var s := Exec(c, INITIAL, steps);
            && s.rows[j].attempts == Begun(c, INITIAL, steps, j)
            && s.rows[j].attempts ==
               PipelineStarts(c, INITIAL, steps, j) + LostBegins(c, INITIAL, steps, j) + AwaitingStart(s, j)
            && (s.rows[j].attempts == PipelineStarts(c, INITIAL, steps, j) <==>
                LostBegins(c, INITIAL, steps, j) == 0 && AwaitingStart(s, j) == 0)
  {
    RunCounts(c, INITIAL, steps, j);
    BeginsAccountedFor(c, INITIAL, steps, j);
  }

  /** Success is written at most once per job, and exactly once when the row says so. */
  lemma SuccessWrittenOnce(c: Config, steps: seq<Step>, j: JobId)
    requires Legal(c, INITIAL, steps)
    ensures SuccessWrites(c, INITIAL, steps, j) <= 1
    ensures SuccessWrites(c, INITIAL, steps, j) == 1 <==>
            j in Exec(c, INITIAL, steps).rows && Exec(c, INITIAL, steps).rows[j].status == Success
  {
    RunCounts(c, INITIAL, steps, j);
  }
}
