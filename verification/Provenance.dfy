/**
 Where everything stored comes from, over all runs of the code's own granularity:
 a row's identity and payload from its submission, a result from a pipeline that
 succeeded, an error from a dead letter, a dead letter from what it says happened,
 a retry from a transient failure with attempts left.
 */
module Provenance {
  import opened Wrappers
  import opened Jobs
  import opened Messages
  import opened Protocol
  import opened Integrity
  import opened Windows
  import opened Races
  import opened Meaning

  /** A pipeline's outcome, reported for a pointer. */
  datatype Report = Report(msg: JobMessage, outcome: PipelineOutcome)

  function ReportOf(f: Fine, step: FineStep): seq<Report> {
    if step.Plain? && step.step.Finish? && step.step.task < |f.s.tasks|
    then [Report(f.s.tasks[step.step.task].msg, step.step.outcome)]
    else []
  }

  /** The outcomes the run reports, in order. */
  function Reports(c: Config, f: Fine, steps: seq<FineStep>): seq<Report>
    requires FineLegal(c, f, steps)
    decreases |steps|
  {
    if steps == [] then [] else ReportOf(f, steps[0]) + Reports(c, FineApply(c, f, steps[0]), steps[1..])
  }

  // --------------------------------------------------------------- invariant

  /** A transient failure was reported for `m`. */
  ghost predicate FailedTransiently(h: seq<Report>, m: JobMessage) {
    exists exc :: Report(m, TransientError(exc)) in h
  }

  /** What a dead letter's cause says did happen. */
  ghost predicate CauseHolds(c: Config, h: seq<Report>, m: JobMessage, cause: Cause) {
    match cause
    case Exhausted(attempt, exc) => attempt == m.attempt >= c.maxAttempts && Report(m, TransientError(exc)) in h
    case Permanent(exc) => Report(m, PermanentError(exc)) in h
    case Unexpected(_) => true
    case OverDelivered(deliveries) => deliveries > c.maxDeliveryCount
  }

  /** A pointer of a first attempt, or the retry of one that failed transiently with attempts left. */
  ghost predicate PointerHolds(c: Config, h: seq<Report>, m: JobMessage) {
    m.attempt == 1 ||
    (m.attempt - 1 < c.maxAttempts && FailedTransiently(h, JobMessage(m.jobId, m.jobType, m.attempt - 1)))
  }

  ghost predicate SuccessHolds(h: seq<Report>, job: Job, m: JobMessage) {
    && job.resultRef.Some? && job.durationMs.Some?
    && m.jobId == job.id && Report(m, Succeeded(job.resultRef.value, job.durationMs.value)) in h
  }

  predicate FailureHolds(dlq: seq<DeadLetter>, row: Job) {
    exists i :: 0 <= i < |dlq| && dlq[i].msg.jobId == row.id && !dlq[i].cause.OverDelivered?
                && row.error == Some(FailureText(dlq[i].cause))
  }

  predicate Lettered(dlq: seq<DeadLetter>, m: JobMessage, cause: Cause) {
    exists i :: 0 <= i < |dlq| && dlq[i] == DeadLetter(m, cause)
  }

  ghost predicate PcHolds(c: Config, h: seq<Report>, dlq: seq<DeadLetter>, m: JobMessage, pc: Pc) {
    match pc
    case AtCommit(job) => job.status == Success && SuccessHolds(h, job, m)
    case AtRequeue => m.attempt < c.maxAttempts && FailedTransiently(h, m)
    case AtRepublish => m.attempt < c.maxAttempts && FailedTransiently(h, m)
    case AtBury(cause) => CauseHolds(c, h, m, cause)
    case AtAckDead(cause) => CauseHolds(c, h, m, cause) && Lettered(dlq, m, cause)
    case AtFail(cause) => !cause.OverDelivered? && CauseHolds(c, h, m, cause) && Lettered(dlq, m, cause)
    case _ => true
  }

  ghost predicate RowHolds(h: seq<Report>, dlq: seq<DeadLetter>, row: Job) {
    && (row.status == Success ==> exists m: JobMessage :: SuccessHolds(h, row, m))
    && (row.status == Failed ==> FailureHolds(dlq, row))
  }

  ghost predicate Origins(c: Config, s: State, h: seq<Report>) {
    && (forall j :: j in s.rows ==> RowHolds(h, s.dlq, s.rows[j]))
    && (forall i :: 0 <= i < |s.dlq| ==> CauseHolds(c, h, s.dlq[i].msg, s.dlq[i].cause))
    && (forall e :: 0 <= e < |s.stream| ==> PointerHolds(c, h, s.stream[e]))
    && (forall t :: 0 <= t < |s.tasks| ==> PcHolds(c, h, s.dlq, s.tasks[t].msg, s.tasks[t].pc))
  }

  // ------------------------------------------------------------- it only grows

  predicate Includes(h: seq<Report>, h': seq<Report>) {
    forall r :: r in h ==> r in h'
  }

  lemma LetterKept(dlq: seq<DeadLetter>, dlq': seq<DeadLetter>, m: JobMessage, cause: Cause)
    requires dlq <= dlq' && Lettered(dlq, m, cause)
    ensures Lettered(dlq', m, cause)
  {
    var i :| 0 <= i < |dlq| && dlq[i] == DeadLetter(m, cause);
    assert dlq'[i] == dlq[i];
  }

  lemma PcKept(c: Config, h: seq<Report>, h': seq<Report>, dlq: seq<DeadLetter>, dlq': seq<DeadLetter>, m: JobMessage,
    pc: Pc)
    requires Includes(h, h') && dlq <= dlq' && PcHolds(c, h, dlq, m, pc)
    ensures PcHolds(c, h', dlq', m, pc)
  {
    if pc.AtAckDead? || pc.AtFail? { LetterKept(dlq, dlq', m, pc.cause); }
  }

  lemma RowKept(h: seq<Report>, h': seq<Report>, dlq: seq<DeadLetter>, dlq': seq<DeadLetter>, row: Job)
    requires Includes(h, h') && dlq <= dlq' && RowHolds(h, dlq, row)
    ensures RowHolds(h', dlq', row)
  {
    if row.status == Success {
      var m: JobMessage :| SuccessHolds(h, row, m);
      assert SuccessHolds(h', row, m);
    }
    if row.status == Failed {
      var i :| 0 <= i < |dlq| && dlq[i].msg.jobId == row.id && !dlq[i].cause.OverDelivered?
               && row.error == Some(FailureText(dlq[i].cause));
      assert dlq'[i] == dlq[i];
    }
  }

  /** What a change adds has its origin. */
  ghost predicate Adds(c: Config, s: State, d: Change, h: seq<Report>) {
    var dlq := Appended(s.dlq, d.bury);
    && (d.write.Some? ==> RowHolds(h, dlq, d.write.value))
    && (d.bury.Some? ==> CauseHolds(c, h, d.bury.value.msg, d.bury.value.cause))
    && (d.publish.Some? ==> PointerHolds(c, h, d.publish.value))
    && (d.move.Goto? && d.move.task < |s.tasks| ==> PcHolds(c, h, dlq, s.tasks[d.move.task].msg, d.move.pc))
    && (d.move.Spawn? && d.move.entry < |s.stream| ==> PcHolds(c, h, dlq, s.stream[d.move.entry], d.move.pc))
  }

  lemma ChangeKeepsOrigins(c: Config, s: State, d: Change, h: seq<Report>, h': seq<Report>)
    requires Origins(c, s, h) && Includes(h, h') && Adds(c, s, d, h')
    ensures Origins(c, Perform(s, d), h')
  {
    var s' := Perform(s, d);
    assert s.dlq <= s'.dlq;
    forall j | j in s'.rows ensures RowHolds(h', s'.dlq, s'.rows[j]) {
      if d.write.None? || d.write.value.id != j { RowKept(h, h', s.dlq, s'.dlq, s.rows[j]); }
    }
    forall t | 0 <= t < |s'.tasks| ensures PcHolds(c, h', s'.dlq, s'.tasks[t].msg, s'.tasks[t].pc) {
      if t < |s.tasks| && !(d.move.Goto? && d.move.task == t) {
        PcKept(c, h, h', s.dlq, s'.dlq, s.tasks[t].msg, s.tasks[t].pc);
      }
    }
  }

  // --------------------------------------------------- every step adds its own

  lemma LoopAdds(c: Config, s: State, step: Step, h: seq<Report>)
    requires Intact(c, s) && Enabled(c, s, step) && !OfTask(step)
    ensures Adds(c, s, ChangeOf(c, s, step), h)
  {
  }

  lemma FinishAdds(c: Config, s: State, t: TaskId, outcome: PipelineOutcome, h: seq<Report>)
    requires Intact(c, s) && t < |s.tasks| && s.tasks[t].pc.Executing? && Report(s.tasks[t].msg, outcome) in h
    ensures Adds(c, s, ChangeOf(c, s, Finish(t, outcome)), h)
  {
    assert TaskOk(c, s, s.tasks[t]) && PointerOk(c, s.rows, s.tasks[t].msg);
  }

  lemma CommitAdds(c: Config, s: State, t: TaskId, outcome: WriteOutcome, h: seq<Report>)
    requires t < |s.tasks| && s.tasks[t].pc.AtCommit? && PcHolds(c, h, s.dlq, s.tasks[t].msg, s.tasks[t].pc)
    ensures Adds(c, s, CommitChange(s, t, outcome), h)
  {
    assert SuccessHolds(h, s.tasks[t].pc.job, s.tasks[t].msg);
  }

  lemma BuryAdds(c: Config, s: State, t: TaskId, h: seq<Report>)
    requires t < |s.tasks| && s.tasks[t].pc.AtBury? && PcHolds(c, h, s.dlq, s.tasks[t].msg, s.tasks[t].pc)
    ensures Adds(c, s, ChangeOf(c, s, Bury(t)), h)
  {
    var letter := DeadLetter(s.tasks[t].msg, s.tasks[t].pc.cause);
    assert (s.dlq + [letter])[|s.dlq|] == letter;
  }

  lemma OtherTaskAdds(c: Config, s: State, step: Step, h: seq<Report>)
    requires Intact(c, s) && Enabled(c, s, step) && OfTask(step) && !IsWindow(step)
    requires !step.Finish? && !step.Commit? && !step.Bury?
    requires PcHolds(c, h, s.dlq, s.tasks[step.task].msg, s.tasks[step.task].pc)
    ensures Adds(c, s, ChangeOf(c, s, step), h)
  {
  }

  lemma WindowAdds(c: Config, s: State, t: TaskId, row: Option<Job>, h: seq<Report>)
    requires t < |s.tasks| && AtWindow(s.tasks[t].pc) && PcHolds(c, h, s.dlq, s.tasks[t].msg, s.tasks[t].pc)
    requires row.Some? ==> row.value.id == s.tasks[t].msg.jobId
    ensures Adds(c, s, WindowChange(s, t, AfterWindow(s.tasks[t].pc, row)), h)
  {
    if s.tasks[t].pc.AtFail? { LetterIsFailure(s.dlq, s.tasks[t].msg, s.tasks[t].pc.cause); }
  }

  /** The row a fail window writes has its dead letter. */
  lemma LetterIsFailure(dlq: seq<DeadLetter>, m: JobMessage, cause: Cause)
    requires Lettered(dlq, m, cause) && !cause.OverDelivered?
    ensures forall row: Job :: row.id == m.jobId && row.error == Some(ErrorText(cause)) ==> FailureHolds(dlq, row)
  {
    var i :| 0 <= i < |dlq| && dlq[i] == DeadLetter(m, cause);
    forall row: Job | row.id == m.jobId && row.error == Some(ErrorText(cause)) ensures FailureHolds(dlq, row) {
      assert dlq[i].msg.jobId == row.id && row.error == Some(FailureText(dlq[i].cause));
    }
  }

  lemma PlainAdds(c: Config, s: State, step: Step, h: seq<Report>, h': seq<Report>)
    requires Intact(c, s) && Origins(c, s, h) && Includes(h, h') && Enabled(c, s, step) && !IsWindow(step)
    requires step.Finish? ==> Report(s.tasks[step.task].msg, step.outcome) in h'
    ensures Adds(c, s, ChangeOf(c, s, step), h')
  {
    if !OfTask(step) {
      LoopAdds(c, s, step, h');
    } else {
      PcKept(c, h, h', s.dlq, s.dlq, s.tasks[step.task].msg, s.tasks[step.task].pc);
      if step.Finish? {
        FinishAdds(c, s, step.task, step.outcome, h');
      } else if step.Commit? {
        CommitAdds(c, s, step.task, step.write, h');
      } else if step.Bury? {
        BuryAdds(c, s, step.task, h');
      } else {
        OtherTaskAdds(c, s, step, h');
      }
    }
  }

  lemma StepKeepsOrigins(c: Config, f: Fine, step: FineStep, h: seq<Report>)
    requires FineIntact(c, f) && Origins(c, f.s, h) && FineEnabled(c, f, step)
    ensures Origins(c, FineApply(c, f, step).s, h + ReportOf(f, step))
  {
    var h' := h + ReportOf(f, step);
    match step
    case Plain(st) =>
      PlainAdds(c, f.s, st, h, h');
      ChangeKeepsOrigins(c, f.s, ChangeOf(c, f.s, st), h, h');
    case Get(t) =>
      assert h' == h;
      if !Opens(f, t) {
        TaskHasRow(c, f.s, t);
        WindowAdds(c, f.s, t, RowOf(f.s, t), h);
        ChangeKeepsOrigins(c, f.s, WindowChange(f.s, t, AfterWindow(f.s.tasks[t].pc, RowOf(f.s, t))), h, h);
      }
    case Update(t) =>
      assert h' == h;
      UpdateKeepsOrigins(c, f, t, h);
  }

  lemma UpdateKeepsOrigins(c: Config, f: Fine, t: TaskId, h: seq<Report>)
    requires FineIntact(c, f) && Origins(c, f.s, h) && FineEnabled(c, f, Update(t))
    ensures Origins(c, FineApply(c, f, Update(t)).s, h)
  {
    assert OpenOk(f, t, f.open[t]);
    WindowAdds(c, f.s, t, Some(f.open[t]), h);
    ChangeKeepsOrigins(c, f.s, WindowChange(f.s, t, AfterWindow(f.s.tasks[t].pc, Some(f.open[t]))), h, h);
  }

  lemma {:induction false} RunKeepsOrigins(c: Config, f: Fine, steps: seq<FineStep>, h: seq<Report>)
    requires FineIntact(c, f) && Origins(c, f.s, h) && FineLegal(c, f, steps)
    ensures Origins(c, FineExec(c, f, steps).s, h + Reports(c, f, steps))
    decreases |steps|
  {
    if steps == [] {
      assert h + [] == h;
    } else {
      var f', now := FineApply(c, f, steps[0]), ReportOf(f, steps[0]);
      StepKeepsOrigins(c, f, steps[0], h);
      FineStepKeepsIntact(c, f, steps[0]);
      RunKeepsOrigins(c, f', steps[1..], h + now);
      assert h + Reports(c, f, steps) == (h + now) + Reports(c, f', steps[1..]);
    }
  }

  // ------------------------------------------------------------- main results

  /** In every run, dead letters, retries, results and errors are what the pipelines reported. */
  lemma EverythingHasItsOrigin(c: Config, steps: seq<FineStep>)
    requires FineLegal(c, FINE_INITIAL, steps)
    ensures Origins(c, FineExec(c, FINE_INITIAL, steps).s, Reports(c, FINE_INITIAL, steps))
  {
    RunKeepsOrigins(c, FINE_INITIAL, steps, []);
    assert [] + Reports(c, FINE_INITIAL, steps) == Reports(c, FINE_INITIAL, steps);
  }

  /**
   Only a last attempt is given up as exhausted, only a count above the limit as
   over-delivered, and a retry is published only below the limit.
   */
  ghost predicate LimitsKept(c: Config, s: State) {
    && (forall i :: 0 <= i < |s.dlq| && s.dlq[i].cause.Exhausted? ==>
          s.dlq[i].cause.attempt == s.dlq[i].msg.attempt >= c.maxAttempts)
    && (forall i :: 0 <= i < |s.dlq| && s.dlq[i].cause.OverDelivered? ==>
      s.dlq[i].cause.deliveries > c.maxDeliveryCount)
    && (forall e :: 0 <= e < |s.stream| ==> s.stream[e].attempt == 1 || s.stream[e].attempt <= c.maxAttempts)
  }

  lemma LimitsKeptFine(c: Config, steps: seq<FineStep>)
    requires FineLegal(c, FINE_INITIAL, steps)
    ensures LimitsKept(c, FineExec(c, FINE_INITIAL, steps).s)
  {
    EverythingHasItsOrigin(c, steps);
    var s, h := FineExec(c, FINE_INITIAL, steps).s, Reports(c, FINE_INITIAL, steps);
    forall i | 0 <= i < |s.dlq| ensures CauseHolds(c, h, s.dlq[i].msg, s.dlq[i].cause) {}
    forall e | 0 <= e < |s.stream| ensures PointerHolds(c, h, s.stream[e]) {}
  }

  /** The same with windows taken at once. */
  lemma LimitsKeptCoarse(c: Config, steps: seq<Step>)
    requires Legal(c, INITIAL, steps)
    ensures LimitsKept(c, Exec(c, INITIAL, steps))
  {
    var fine := CoarseIsFine(c, INITIAL, steps);
    LimitsKeptFine(c, fine);
  }

  // ---------------------------------------------------------------- submissions

  predicate Submits(step: FineStep, j: JobId, jobType: JobType, payload: Payload) {
    step.Plain? && step.step.Submit? && step.step.job == j && step.step.jobType == jobType
      && step.step.payload == payload
  }

  lemma {:induction false} RunKeepsSubmission(c: Config, f: Fine, steps: seq<FineStep>, i: nat, j: JobId,
    jobType: JobType, payload: Payload)
    requires FineIntact(c, f) && FineLegal(c, f, steps) && i < |steps| && Submits(steps[i], j, jobType, payload)
    ensures var s := FineExec(c, f, steps).s;
            j in s.rows && s.rows[j].id == j && s.rows[j].jobType == jobType && s.rows[j].payload == payload
    decreases |steps|
  {
    var f' := FineApply(c, f, steps[0]);
    FineStepKeepsIntact(c, f, steps[0]);
    if i == 0 {
      FineRunGrows(c, f', steps[1..]);
    } else {
      RunKeepsSubmission(c, f', steps[1..], i - 1, j, jobType, payload);
    }
  }

  /** Whatever was submitted is stored verbatim, and stays so in every later state of every run. */
  lemma SubmissionIsKept(c: Config, steps: seq<FineStep>, i: nat, j: JobId, jobType: JobType, payload: Payload)
    requires FineLegal(c, FINE_INITIAL, steps) && i < |steps| && Submits(steps[i], j, jobType, payload)
    ensures var s := FineExec(c, FINE_INITIAL, steps).s;
            j in s.rows && s.rows[j].id == j && s.rows[j].jobType == jobType && s.rows[j].payload == payload
  {
    RunKeepsSubmission(c, FINE_INITIAL, steps, i, j, jobType, payload);
  }
}
