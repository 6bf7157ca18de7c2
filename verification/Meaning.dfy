/**
 What each step of the machine does, stated as an equation between two states with
 nothing computed elsewhere: every constant, comparison and message is written out
 where the code has it. The machine of `Protocol` is built from small functions
 instead; it takes a step if and only if this says so.
 */
module Meaning {
  import opened Wrappers
  import opened Jobs
  import opened Messages
  import opened Protocol
  import opened Integrity
  import opened Windows
  import opened Races

  /** The state with task `t` at `pc`. */
  function At(s: State, t: TaskId, pc: Pc): State
    requires t < |s.tasks|
  {
    s.(tasks := s.tasks[t := Task(s.tasks[t].consumer, s.tasks[t].entry, s.tasks[t].msg, pc)])
  }

  /** The state with the row of `j` replaced. */
  function With(s: State, j: JobId, row: Job): State {
    s.(rows := s.rows[j := row])
  }

  /** What the row's `error` column says after a failure. */
  function FailureText(cause: Cause): string {
    match cause
    case Exhausted(attempt, exc) => "exhausted after " + Text.Decimal(attempt) + ": " + exc
    case Permanent(exc) => exc
    case Unexpected(exc) => exc
    case OverDelivered(_) => ""
  }

  /** Some task of `k` on `e` is in `k`'s in-flight register. */
  ghost predicate Busy(s: State, k: ConsumerId, e: EntryId) {
    exists u :: 0 <= u < |s.tasks| && s.tasks[u].consumer == k && s.tasks[u].entry == e && Dispatched(s.tasks[u].pc)
  }

  // ------------------------------------------------- submissions and deliveries

  ghost predicate LoopMeans(c: Config, s: State, step: Step, s': State)
    requires Intact(c, s) && Enabled(c, s, step) && !OfTask(step)
  {
    match step
    case Submit(j, ty, payload, tries) =>
      s' == s.(rows := s.rows[j := Job(j, ty, payload, Pending, 0, None, None, None)],
               submitting := s.submitting[j := tries])
    case Publish(j, outcome) =>
      s' == s.(stream := if outcome.Published? || outcome.appended then s.stream + [JobMessage(j, s.rows[j].jobType, 1)]
                         else s.stream,
               submitting := if outcome.PublishTransient? && s.submitting[j] > 1
                             then s.submitting[j := s.submitting[j] - 1] else s.submitting - {j})
    case Abandon(j) => s' == s.(submitting := s.submitting - {j})
    case Read(k, received) =>
      s' == s.(cursor := s.cursor + 1, pel := s.pel[s.cursor := Claim(k, 1)],
               tasks := if received then s.tasks + [Task(k, s.cursor, s.stream[s.cursor], AtGuard)] else s.tasks)
    case ClaimEntry(k, e) =>
      s' == s.(pel := s.pel[e := Claim(k, s.pel[e].deliveries + 1)],
               tasks := s.tasks + [Task(k, e, s.stream[e], AtClaimed)])
    case Reclaim(k, e) =>
      var n := s.pel[e].deliveries + 1;
      var pc := if n > c.maxDeliveryCount then AtBury(OverDelivered(n)) else AtGuard;
      s' == s.(pel := s.pel[e := Claim(k, n)],
               tasks := if Busy(s, k, e) then s.tasks
                        else s.tasks + [Task(k, e, s.stream[e], pc)])
  }

  lemma LoopAsStated(c: Config, s: State, step: Step)
    requires Intact(c, s) && Enabled(c, s, step) && !OfTask(step)
    ensures LoopMeans(c, s, step, Apply(c, s, step))
  {
  }

  // -------------------------------------------------------------- row windows

  /** The begin window, with the row it read and the rows it writes to. */
  ghost predicate BeginMeans(s: State, t: TaskId, row: Option<Job>, s': State)
    requires t < |s.tasks|
  {
    if row.None? || row.value.status == Success || row.value.status == Failed then s' == At(s, t, AtAck)
    else if row.value.status == Pending then
      var begun := row.value.(status := Running, attempts := row.value.attempts + 1, error := None);
      s' == At(With(s, begun.id, begun), t, AtStart(begun))
    else s' == At(s, t, AtBury(Unexpected("InvalidTransition")))
  }

  ghost predicate RequeueMeans(s: State, t: TaskId, row: Option<Job>, s': State)
    requires t < |s.tasks|
  {
    if row.None? then s' == At(s, t, AtRepublish)
    else if row.value.status == Running then
      s' == At(With(s, row.value.id, row.value.(status := Pending)), t, AtRepublish)
    else s' == At(s, t, Done)
  }

  ghost predicate FailMeans(s: State, t: TaskId, row: Option<Job>, cause: Cause, s': State)
    requires t < |s.tasks|
  {
    if row.Some? && row.value.status == Running then
      s' == At(With(s, row.value.id, row.value.(status := Failed, error := Some(FailureText(cause)))), t, Done)
    else s' == At(s, t, Done)
  }

  ghost predicate WindowMeans(s: State, t: TaskId, row: Option<Job>, s': State)
    requires t < |s.tasks| && AtWindow(s.tasks[t].pc)
  {
    match s.tasks[t].pc
    case AtBegin => BeginMeans(s, t, row, s')
    case AtRequeue => RequeueMeans(s, t, row, s')
    case AtFail(cause) => FailMeans(s, t, row, cause, s')
  }

  lemma WindowAsStated(s: State, t: TaskId, row: Option<Job>)
    requires t < |s.tasks| && AtWindow(s.tasks[t].pc)
    ensures WindowMeans(s, t, row, Perform(s, WindowChange(s, t, AfterWindow(s.tasks[t].pc, row))))
  {
    match s.tasks[t].pc
    case AtBegin => BeginAsStated(s, t, row);
    case AtRequeue =>
    case AtFail(cause) =>
  }

  lemma BeginAsStated(s: State, t: TaskId, row: Option<Job>)
    requires t < |s.tasks|
    ensures BeginMeans(s, t, row, Perform(s, WindowChange(s, t, AfterBegin(row))))
  {
  }

  // --------------------------------------------------------------- task steps

  ghost predicate TaskMeans(c: Config, s: State, step: Step, s': State)
    requires Intact(c, s) && Enabled(c, s, step) && OfTask(step) && !IsWindow(step)
  {
    var t, k, m := step.task, s.tasks[step.task], s.tasks[step.task].msg;
    match step
    case CountDeliveries(_) =>
      var n := if k.entry in s.pel then s.pel[k.entry].deliveries else 0;
      s' == At(s, t, if Busy(s, k.consumer, k.entry) then Done
                     else if n > c.maxDeliveryCount then AtBury(OverDelivered(n)) else AtGuard)
    case Abort(_) => s' == At(s, t, Done)
    case Guard(_) =>
      var open := m.jobId in s.rows && (s.rows[m.jobId].status == Pending || s.rows[m.jobId].status == Running);
      s' == At(s, t, if open then AtBegin else AtAck)
    case BeginRaises(_, exc) => s' == At(s, t, AtBury(Unexpected(exc)))
    case BeginLost(_, exc) => s' == At(s, t, AtBury(Unexpected(exc)))
    case StartPipeline(_) => s' == At(s, t, Executing(k.pc.job))
    case Finish(_, outcome) => FinishMeans(c, s, t, k.pc.job, outcome, s')
    case Commit(_, write) =>
      if write.WriteFailed? then s' == At(s, t, AtBury(Unexpected(write.exc)))
      else s' == At(With(s, k.pc.job.id, k.pc.job), t, if write.Written? then AtAck else AtBury(Unexpected(write.exc)))
    case Republish(_) => s' == At(s.(stream := s.stream + [JobMessage(m.jobId, m.jobType, m.attempt + 1)]), t, AtAck)
    case Bury(_) => s' == At(s.(dlq := s.dlq + [DeadLetter(m, k.pc.cause)]), t, AtAckDead(k.pc.cause))
    case Ack(_) =>
      s' == At(s.(pel := s.pel - {k.entry}), t,
               if k.pc.AtAckDead? && !k.pc.cause.OverDelivered? then AtFail(k.pc.cause) else Done)
  }

  /** The pipeline's outcome: success, a retry while attempts remain, or the dead-letter stream. */
  ghost predicate FinishMeans(c: Config, s: State, t: TaskId, job: Job, outcome: PipelineOutcome, s': State)
    requires t < |s.tasks|
  {
    var attempt := s.tasks[t].msg.attempt;
    match outcome
    case Succeeded(ref, ms) =>
      var done := job.(status := Success, resultRef := Some(ref), durationMs := Some(ms));
      s' == At(s, t, if job.status == Running then AtCommit(done) else AtBury(Unexpected("InvalidTransition")))
    case TransientError(exc) =>
      s' == At(s, t, if attempt < c.maxAttempts then AtRequeue else AtBury(Exhausted(attempt, exc)))
    case PermanentError(exc) => s' == At(s, t, AtBury(Permanent(exc)))
  }

  lemma TaskAsStated(c: Config, s: State, step: Step)
    requires Intact(c, s) && Enabled(c, s, step) && OfTask(step) && !IsWindow(step)
    ensures TaskMeans(c, s, step, Apply(c, s, step))
  {
    if step.Finish? {
      FinishAsStated(c, s, step.task, step.outcome);
    } else if step.CountDeliveries? {
      CountAsStated(c, s, step.task);
    } else if step.Guard? {
      GuardAsStated(c, s, step.task);
    } else {
      OtherAsStated(c, s, step);
    }
  }

  lemma GuardAsStated(c: Config, s: State, t: TaskId)
    requires Intact(c, s) && t < |s.tasks| && s.tasks[t].pc.AtGuard?
    ensures TaskMeans(c, s, Guard(t), Apply(c, s, Guard(t)))
  {
  }

  lemma OtherAsStated(c: Config, s: State, step: Step)
    requires Intact(c, s) && Enabled(c, s, step) && OfTask(step) && !IsWindow(step)
    requires !step.Finish? && !step.CountDeliveries? && !step.Guard?
    ensures TaskMeans(c, s, step, Apply(c, s, step))
  {
  }

  lemma FinishAsStated(c: Config, s: State, t: TaskId, outcome: PipelineOutcome)
    requires t < |s.tasks| && s.tasks[t].pc.Executing?
    ensures FinishMeans(c, s, t, s.tasks[t].pc.job, outcome, Apply(c, s, Finish(t, outcome)))
  {
  }

  lemma CountAsStated(c: Config, s: State, t: TaskId)
    requires Intact(c, s) && t < |s.tasks| && s.tasks[t].pc.AtClaimed?
    ensures TaskMeans(c, s, CountDeliveries(t), Apply(c, s, CountDeliveries(t)))
  {
    assert Busy(s, s.tasks[t].consumer, s.tasks[t].entry) <==> InFlight(s, s.tasks[t].consumer, s.tasks[t].entry);
  }

  // ------------------------------------------------------------- main results

  /** The whole relation, for a step that can be taken. */
  ghost predicate Means(c: Config, s: State, step: Step, s': State)
    requires Intact(c, s) && Enabled(c, s, step)
  {
    if !OfTask(step) then LoopMeans(c, s, step, s')
    else if IsWindow(step) then WindowMeans(s, step.task, RowOf(s, step.task), s')
    else TaskMeans(c, s, step, s')
  }

  /** The statement determines the next state. */
  lemma MeaningIsUnique(c: Config, s: State, step: Step, s': State, s'': State)
    requires Intact(c, s) && Enabled(c, s, step) && Means(c, s, step, s') && Means(c, s, step, s'')
    ensures s' == s''
  {
  }

  lemma MachineSatisfies(c: Config, s: State, step: Step)
    requires Intact(c, s) && Enabled(c, s, step)
    ensures Means(c, s, step, Apply(c, s, step))
  {
    if !OfTask(step) {
      LoopAsStated(c, s, step);
    } else if IsWindow(step) {
      WindowStepAsStated(c, s, step);
    } else {
      TaskAsStated(c, s, step);
    }
  }

  /** The machine takes a step to a state if and only if the statement says so. */
  lemma MachineAsStated(c: Config, s: State, step: Step, s': State)
    requires Intact(c, s) && Enabled(c, s, step)
    ensures s' == Apply(c, s, step) <==> Means(c, s, step, s')
  {
    MachineSatisfies(c, s, step);
    if Means(c, s, step, s') { MeaningIsUnique(c, s, step, s', Apply(c, s, step)); }
  }

  lemma WindowStepAsStated(c: Config, s: State, step: Step)
    requires Enabled(c, s, step) && IsWindow(step)
    ensures WindowMeans(s, step.task, RowOf(s, step.task), Apply(c, s, step))
  {
    WindowAsStated(s, step.task, RowOf(s, step.task));
  }

  /** With reads and writes apart: a write is made of the copy that was read, a refusal of the row as it is. */
  lemma FineMachineAsStated(c: Config, f: Fine, t: TaskId)
    requires FineIntact(c, f) && t < |f.s.tasks| && AtWindow(f.s.tasks[t].pc)
    ensures t in f.open ==>
              WindowMeans(f.s, t, Some(f.open[t]), FineApply(c, f, Update(t)).s)
              && FineApply(c, f, Update(t)).open == f.open - {t}
    ensures t !in f.open ==>
              var row := RowOf(f.s, t);
              var accepted := row.Some? && row.value.status == if f.s.tasks[t].pc.AtBegin? then Pending else Running;
              if accepted then FineApply(c, f, Get(t)) == Fine(f.s, f.open[t := row.value])
              else WindowMeans(f.s, t, row, FineApply(c, f, Get(t)).s) && FineApply(c, f, Get(t)).open == f.open
  {
    if t in f.open {
      WindowAsStated(f.s, t, Some(f.open[t]));
    } else {
      TaskHasRow(c, f.s, t);
      WindowAsStated(f.s, t, RowOf(f.s, t));
    }
  }
}
