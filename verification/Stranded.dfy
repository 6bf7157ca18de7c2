/**
 When a row that is not terminal can still become so. A dead letter does not
 decide it: dead-lettered rows may still be finished by another delivery, and
 rows may be left pending or running for good. The condition is `Alive`, read off
 the state; rows without it are stranded and never change again.
 */
module Stranded {
  import opened Wrappers
  import opened Jobs
  import opened Protocol
  import opened Integrity
  import opened Execution
  import opened NoLoss
  import opened Submission

  predicate Undelivered(s: State, j: JobId) {
    exists e :: s.cursor <= e < |s.stream| && s.stream[e].jobId == j
  }

  predicate PendingPointer(s: State, j: JobId) {
    exists e :: e in s.pel && e < |s.stream| && s.stream[e].jobId == j
  }

  /**
   The task can still bring a row of this status to an end. A claimed entry may
   yet be dispatched, unless the delivery limit turns even a count of 0 away; a
   task on its way to the fail write needs a running row to fail.
   */
  predicate Promising(c: Config, status: JobStatus, pc: Pc) {
    match pc
    case AtClaimed => c.maxDeliveryCount >= 0
    case AtGuard => true
    case AtBegin => true
    case AtStart(_) => true
    case Executing(_) => true
    case AtCommit(_) => true
    case AtRequeue => true
    case AtRepublish => true
    case AtBury(cause) => status == Running && !cause.OverDelivered?
    case AtAckDead(cause) => status == Running && !cause.OverDelivered?
    case AtFail(_) => status == Running
    case AtAck => false
    case Done => false
  }

  predicate Promises(c: Config, s: State, k: Task, j: JobId) {
    k.msg.jobId == j && j in s.rows && Promising(c, s.rows[j].status, k.pc)
  }

  predicate Alive(c: Config, s: State, j: JobId) {
    || j in s.submitting
    || Undelivered(s, j)
    || (c.maxDeliveryCount >= 0 && PendingPointer(s, j))
    || (exists t :: 0 <= t < |s.tasks| && Promises(c, s, s.tasks[t], j))
  }

  predicate Unfinished(s: State, j: JobId) {
    j in s.rows && !s.rows[j].IsTerminal()
  }

  predicate IsStranded(c: Config, s: State, j: JobId) {
    Unfinished(s, j) && !Alive(c, s, j)
  }

  // --------------------------------------------------- stranded rows stay put

  /** What no step does to a stranded job: write its row, publish for it, or give it a promising task. */
  predicate Spares(c: Config, s: State, d: Change, j: JobId)
    requires j in s.rows
  {
    && (d.write.Some? ==> d.write.value.id != j)
    && (d.publish.Some? ==> d.publish.value.jobId != j)
    && j !in d.submitting
    && (forall e :: e in d.pel && e !in s.pel && e < |s.stream| ==> s.stream[e].jobId != j)
    && (d.move.Goto? && d.move.task < |s.tasks| && s.tasks[d.move.task].msg.jobId == j ==>
          !Promising(c, s.rows[j].status, d.move.pc))
    && (d.move.Spawn? && d.move.entry < |s.stream| && s.stream[d.move.entry].jobId == j ==>
          !Promising(c, s.rows[j].status, d.move.pc))
  }

  lemma LoopSpares(c: Config, s: State, step: Step, j: JobId)
    requires Intact(c, s) && IsStranded(c, s, j) && Enabled(c, s, step) && !OfTask(step)
    ensures Spares(c, s, ChangeOf(c, s, step), j)
  {
  }

  /** A task of a stranded job makes no promising move. */
  lemma TaskSpares(c: Config, s: State, step: Step, j: JobId)
    requires Enabled(c, s, step) && OfTask(step) && j in s.rows && j !in s.submitting
    requires s.tasks[step.task].msg.jobId == j && !Promising(c, s.rows[j].status, s.tasks[step.task].pc)
    ensures Spares(c, s, ChangeOf(c, s, step), j)
  {
  }

  /** A task of another job does not touch this one. */
  lemma OtherSpares(c: Config, s: State, step: Step, j: JobId)
    requires Intact(c, s) && Enabled(c, s, step) && OfTask(step) && j in s.rows && j !in s.submitting
    requires s.tasks[step.task].msg.jobId != j
    ensures Spares(c, s, ChangeOf(c, s, step), j)
  {
    assert TaskOk(c, s, s.tasks[step.task]) && PointerOk(c, s.rows, s.tasks[step.task].msg);
  }

  lemma SparedTasks(c: Config, s: State, d: Change, j: JobId)
    requires IsStranded(c, s, j) && ChangeOk(c, s, d) && Spares(c, s, d, j)
    ensures j in Perform(s, d).rows && Perform(s, d).rows[j] == s.rows[j]
    ensures forall t :: 0 <= t < |Perform(s, d).tasks| ==> !Promises(c, Perform(s, d), Perform(s, d).tasks[t], j)
  {
    var s' := Perform(s, d);
    forall t | 0 <= t < |s'.tasks| ensures !Promises(c, s', s'.tasks[t], j) {
      if t < |s.tasks| { assert !Promises(c, s, s.tasks[t], j); }
    }
  }

  lemma SparedStaysStranded(c: Config, s: State, d: Change, j: JobId)
    requires Intact(c, s) && IsStranded(c, s, j) && ChangeOk(c, s, d) && Spares(c, s, d, j)
    ensures IsStranded(c, Perform(s, d), j) && Perform(s, d).rows[j] == s.rows[j]
  {
    var s' := Perform(s, d);
    SparedTasks(c, s, d, j);
    assert !Undelivered(s', j);
    forall e | e in s'.pel && e < |s'.stream| ensures c.maxDeliveryCount >= 0 ==> s'.stream[e].jobId != j {
      assert e < |s.stream| ==> s.stream[e] == s'.stream[e];
    }
  }

  lemma StrandedStep(c: Config, s: State, step: Step, j: JobId)
    requires Intact(c, s) && IsStranded(c, s, j) && Enabled(c, s, step)
    ensures IsStranded(c, Apply(c, s, step), j) && Apply(c, s, step).rows[j] == s.rows[j]
  {
    if !OfTask(step) {
      LoopSpares(c, s, step, j);
    } else if s.tasks[step.task].msg.jobId == j {
      assert !Promises(c, s, s.tasks[step.task], j);
      TaskSpares(c, s, step, j);
    } else {
      OtherSpares(c, s, step, j);
    }
    EveryChangeOk(c, s, step);
    SparedStaysStranded(c, s, ChangeOf(c, s, step), j);
  }

  /** A stranded row never changes again, in any run. */
  lemma {:induction false} StrandedIsInert(c: Config, s: State, steps: seq<Step>, j: JobId)
    requires Intact(c, s) && IsStranded(c, s, j) && Legal(c, s, steps)
    ensures IsStranded(c, Exec(c, s, steps), j) && Exec(c, s, steps).rows[j] == s.rows[j]
    decreases |steps|
  {
    if steps != [] {
      StrandedStep(c, s, steps[0], j);
      StepKeepsIntegrity(c, s, steps[0]);
      StrandedIsInert(c, Apply(c, s, steps[0]), steps[1..], j);
    }
  }

  // ------------------------------------------------------ alive rows can end

  /** Some continuation makes the row terminal. */
  ghost predicate CanEnd(c: Config, s: State, j: JobId) {
    exists steps :: Legal(c, s, steps) && IsTerminalRow(Exec(c, s, steps), j)
  }

  lemma EndsNow(c: Config, s: State, j: JobId)
    requires IsTerminalRow(s, j)
    ensures CanEnd(c, s, j)
  {
    assert Legal(c, s, []) && Exec(c, s, []) == s;
  }

  lemma EndsAfter(c: Config, s: State, step: Step, j: JobId)
    requires Enabled(c, s, step) && CanEnd(c, Apply(c, s, step), j)
    ensures CanEnd(c, s, j)
  {
    var rest :| Legal(c, Apply(c, s, step), rest) && IsTerminalRow(Exec(c, Apply(c, s, step), rest), j);
    var steps := [step] + rest;
    assert steps[1..] == rest;
    assert Legal(c, s, steps) && Exec(c, s, steps) == Exec(c, Apply(c, s, step), rest);
  }

  /** Task `t` of the unfinished job stands at `pc`. */
  ghost predicate Stands(c: Config, s: State, t: TaskId, j: JobId, pc: Pc) {
    Safe(c, s) && Unfinished(s, j) && t < |s.tasks| && s.tasks[t].msg.jobId == j && s.tasks[t].pc == pc
  }

  lemma FromFail(c: Config, s: State, t: TaskId, j: JobId, cause: Cause)
    requires Stands(c, s, t, j, AtFail(cause)) && s.rows[j].status == Running
    ensures CanEnd(c, s, j)
  {
    EndsNow(c, Apply(c, s, FailRow(t)), j);
    EndsAfter(c, s, FailRow(t), j);
  }

  lemma FromAckDead(c: Config, s: State, t: TaskId, j: JobId, cause: Cause)
    requires Stands(c, s, t, j, AtAckDead(cause)) && s.rows[j].status == Running && !cause.OverDelivered?
    ensures CanEnd(c, s, j)
  {
    StepKeepsSafe(c, s, Ack(t));
    FromFail(c, Apply(c, s, Ack(t)), t, j, cause);
    EndsAfter(c, s, Ack(t), j);
  }

  lemma FromBury(c: Config, s: State, t: TaskId, j: JobId, cause: Cause)
    requires Stands(c, s, t, j, AtBury(cause)) && s.rows[j].status == Running && !cause.OverDelivered?
    ensures CanEnd(c, s, j)
  {
    StepKeepsSafe(c, s, Bury(t));
    FromAckDead(c, Apply(c, s, Bury(t)), t, j, cause);
    EndsAfter(c, s, Bury(t), j);
  }

  lemma FromCommit(c: Config, s: State, t: TaskId, j: JobId, job: Job)
    requires Stands(c, s, t, j, AtCommit(job))
    ensures CanEnd(c, s, j)
  {
    EachTaskSafe(c, s, t);
    EndsNow(c, Apply(c, s, Commit(t, Written)), j);
    EndsAfter(c, s, Commit(t, Written), j);
  }

  lemma FromExecuting(c: Config, s: State, t: TaskId, j: JobId, job: Job)
    requires Stands(c, s, t, j, Executing(job))
    ensures CanEnd(c, s, j)
  {
    var step := Finish(t, Succeeded("", 0));
    EachTaskSafe(c, s, t);
    StepKeepsSafe(c, s, step);
    FromCommit(c, Apply(c, s, step), t, j, MarkSuccess(job, "", Some(0)).value);
    EndsAfter(c, s, step, j);
  }

  lemma FromStart(c: Config, s: State, t: TaskId, j: JobId, job: Job)
    requires Stands(c, s, t, j, AtStart(job))
    ensures CanEnd(c, s, j)
  {
    StepKeepsSafe(c, s, StartPipeline(t));
    FromExecuting(c, Apply(c, s, StartPipeline(t)), t, j, job);
    EndsAfter(c, s, StartPipeline(t), j);
  }

  lemma FromBegin(c: Config, s: State, t: TaskId, j: JobId)
    requires Stands(c, s, t, j, AtBegin)
    ensures CanEnd(c, s, j)
  {
    var s' := Apply(c, s, Begin(t));
    EachTaskSafe(c, s, t);
    StepKeepsSafe(c, s, Begin(t));
    if s.rows[j].status == Pending {
      FromStart(c, s', t, j, MarkRunning(s.rows[j]).value);
    } else {
      FromBury(c, s', t, j, Unexpected("InvalidTransition"));
    }
    EndsAfter(c, s, Begin(t), j);
  }

  lemma FromGuard(c: Config, s: State, t: TaskId, j: JobId)
    requires Stands(c, s, t, j, AtGuard)
    ensures CanEnd(c, s, j)
  {
    StepKeepsSafe(c, s, Guard(t));
    FromBegin(c, Apply(c, s, Guard(t)), t, j);
    EndsAfter(c, s, Guard(t), j);
  }

  /** The stream is read up to the pointer, whose delivery then finishes the job. */
  lemma {:induction false} FromUndelivered(c: Config, s: State, e: EntryId, j: JobId)
    requires Safe(c, s) && Unfinished(s, j) && s.cursor <= e < |s.stream| && s.stream[e].jobId == j
    ensures CanEnd(c, s, j)
    decreases e - s.cursor
  {
    var step := Read(0, e == s.cursor);
    StepKeepsSafe(c, s, step);
    if e == s.cursor {
      FromGuard(c, Apply(c, s, step), |s.tasks|, j);
    } else {
      FromUndelivered(c, Apply(c, s, step), e, j);
    }
    EndsAfter(c, s, step, j);
  }

  lemma FromRepublish(c: Config, s: State, t: TaskId, j: JobId)
    requires Stands(c, s, t, j, AtRepublish)
    ensures CanEnd(c, s, j)
  {
    StepKeepsSafe(c, s, Republish(t));
    FromUndelivered(c, Apply(c, s, Republish(t)), |s.stream|, j);
    EndsAfter(c, s, Republish(t), j);
  }

  lemma FromRequeue(c: Config, s: State, t: TaskId, j: JobId)
    requires Stands(c, s, t, j, AtRequeue)
    ensures CanEnd(c, s, j)
  {
    EachTaskSafe(c, s, t);
    StepKeepsSafe(c, s, RequeueRow(t));
    FromRepublish(c, Apply(c, s, RequeueRow(t)), t, j);
    EndsAfter(c, s, RequeueRow(t), j);
  }

  lemma FromSubmission(c: Config, s: State, j: JobId)
    requires Safe(c, s) && Unfinished(s, j) && j in s.submitting
    ensures CanEnd(c, s, j)
  {
    var step := Publish(j, Published);
    StepKeepsSafe(c, s, step);
    FromUndelivered(c, Apply(c, s, step), |s.stream|, j);
    EndsAfter(c, s, step, j);
  }

  // A claimed entry is dispatched once its consumer is idle and its count is
  // within the limit, or once it is no longer pending and counts 0.

  predicate NobodyDispatched(s: State) {
    forall u :: 0 <= u < |s.tasks| ==> !Dispatched(s.tasks[u].pc)
  }

  lemma FromCount(c: Config, s: State, t: TaskId, j: JobId)
    requires Stands(c, s, t, j, AtClaimed) && !InFlight(s, s.tasks[t].consumer, s.tasks[t].entry)
    requires var e := s.tasks[t].entry; (if e in s.pel then s.pel[e].deliveries else 0) <= c.maxDeliveryCount
    ensures CanEnd(c, s, j)
  {
    StepKeepsSafe(c, s, CountDeliveries(t));
    FromGuard(c, Apply(c, s, CountDeliveries(t)), t, j);
    EndsAfter(c, s, CountDeliveries(t), j);
  }

  /** The entry is over-delivered: some other consumer buries and acks it, and the count is then 0. */
  lemma FromBuriedClaim(c: Config, s: State, t: TaskId, u: TaskId, j: JobId)
    requires Stands(c, s, t, j, AtClaimed) && NobodyDispatched(s) && c.maxDeliveryCount >= 0
    requires u < |s.tasks| && u != t && s.tasks[u].entry == s.tasks[t].entry
    requires (s.tasks[u].pc.AtBury? || s.tasks[u].pc.AtAckDead?) && s.tasks[u].pc.cause.OverDelivered?
    ensures CanEnd(c, s, j)
    decreases if s.tasks[u].pc.AtBury? then 1 else 0
  {
    var step := if s.tasks[u].pc.AtBury? then Bury(u) else Ack(u);
    var s' := Apply(c, s, step);
    StepKeepsSafe(c, s, step);
    assert NobodyDispatched(s');
    if s.tasks[u].pc.AtBury? { FromBuriedClaim(c, s', t, u, j); } else { FromCount(c, s', t, j); }
    EndsAfter(c, s, step, j);
  }

  lemma FromQuietClaim(c: Config, s: State, t: TaskId, j: JobId)
    requires Stands(c, s, t, j, AtClaimed) && NobodyDispatched(s) && c.maxDeliveryCount >= 0
    ensures CanEnd(c, s, j)
  {
    var e := s.tasks[t].entry;
    assert TaskOk(c, s, s.tasks[t]);
    if e in s.pel && s.pel[e].deliveries > c.maxDeliveryCount {
      var step := Reclaim(0, e);
      assert !InFlight(s, 0, e);
      StepKeepsSafe(c, s, step);
      assert NobodyDispatched(Apply(c, s, step));
      FromBuriedClaim(c, Apply(c, s, step), t, |s.tasks|, j);
      EndsAfter(c, s, step, j);
    } else {
      FromCount(c, s, t, j);
    }
  }

  /** Every dispatched task may crash first. */
  lemma {:induction false} FromClaim(c: Config, s: State, t: TaskId, j: JobId, n: nat)
    requires Stands(c, s, t, j, AtClaimed) && c.maxDeliveryCount >= 0 && n <= |s.tasks|
    requires forall u :: n <= u < |s.tasks| ==> !Dispatched(s.tasks[u].pc)
    ensures CanEnd(c, s, j)
    decreases n
  {
    if n == 0 {
      FromQuietClaim(c, s, t, j);
    } else if !Dispatched(s.tasks[n - 1].pc) {
      FromClaim(c, s, t, j, n - 1);
    } else {
      StepKeepsSafe(c, s, Abort(n - 1));
      FromClaim(c, Apply(c, s, Abort(n - 1)), t, j, n - 1);
      EndsAfter(c, s, Abort(n - 1), j);
    }
  }

  lemma FromPending(c: Config, s: State, e: EntryId, j: JobId)
    requires Safe(c, s) && Unfinished(s, j) && e in s.pel && e < |s.stream| && s.stream[e].jobId == j
             && c.maxDeliveryCount >= 0
    ensures CanEnd(c, s, j)
  {
    var step := ClaimEntry(0, e);
    StepKeepsSafe(c, s, step);
    FromClaim(c, Apply(c, s, step), |s.tasks|, j, |s.tasks| + 1);
    EndsAfter(c, s, step, j);
  }

  lemma FromTask(c: Config, s: State, t: TaskId, j: JobId)
    requires Safe(c, s) && Unfinished(s, j) && t < |s.tasks| && Promises(c, s, s.tasks[t], j)
    ensures CanEnd(c, s, j)
  {
    match s.tasks[t].pc
    case AtClaimed => FromClaim(c, s, t, j, |s.tasks|);
    case AtGuard => FromGuard(c, s, t, j);
    case AtBegin => FromBegin(c, s, t, j);
    case AtStart(job) => FromStart(c, s, t, j, job);
    case Executing(job) => FromExecuting(c, s, t, j, job);
    case AtCommit(job) => FromCommit(c, s, t, j, job);
    case AtRequeue => FromRequeue(c, s, t, j);
    case AtRepublish => FromRepublish(c, s, t, j);
    case AtBury(cause) => FromBury(c, s, t, j, cause);
    case AtAckDead(cause) => FromAckDead(c, s, t, j, cause);
    case AtFail(cause) => FromFail(c, s, t, j, cause);
  }

  // ------------------------------------------------------------ main results

  /** An unfinished row can still become terminal if and only if it is alive. */
  lemma CanEndIffAlive(c: Config, s: State, j: JobId)
    requires Safe(c, s) && Unfinished(s, j)
    ensures CanEnd(c, s, j) <==> Alive(c, s, j)
  {
    if j in s.submitting {
      FromSubmission(c, s, j);
    } else if Undelivered(s, j) {
      var e :| s.cursor <= e < |s.stream| && s.stream[e].jobId == j;
      FromUndelivered(c, s, e, j);
    } else if c.maxDeliveryCount >= 0 && PendingPointer(s, j) {
      var e :| e in s.pel && e < |s.stream| && s.stream[e].jobId == j;
      FromPending(c, s, e, j);
    } else if t :| 0 <= t < |s.tasks| && Promises(c, s, s.tasks[t], j) {
      FromTask(c, s, t, j);
    } else {
      forall steps | Legal(c, s, steps) ensures !IsTerminalRow(Exec(c, s, steps), j) {
        StrandedIsInert(c, s, steps, j);
      }
    }
  }

  /** When a dead-lettered job's row is, or can become, terminal: exactly when it is so already or is alive. */
  lemma DeadLetteredEndsIff(c: Config, steps: seq<Step>, j: JobId)
    requires Legal(c, INITIAL, steps) && DeadLettered(Exec(c, INITIAL, steps), j)
    ensures var s := Exec(c, INITIAL, steps); CanEnd(c, s, j) <==> IsTerminalRow(s, j) || Alive(c, s, j)
  {
    var s := Exec(c, INITIAL, steps);
    RunKeepsSafe(c, INITIAL, steps);
    var i :| 0 <= i < |s.dlq| && s.dlq[i].msg.jobId == j;
    assert Resolves(s.rows, s.dlq[i].msg);
    if IsTerminalRow(s, j) { EndsNow(c, s, j); } else { CanEndIffAlive(c, s, j); }
  }

  /**
   What becomes of every row, in every reachable state: it is terminal, or can
   still become so, or is stranded for good. A stranded row never got a pointer,
   or is dead-lettered, or waits under a negative delivery limit for its burial.
   */
  lemma EveryRowAccountedFor(c: Config, steps: seq<Step>, j: JobId)
    requires Legal(c, INITIAL, steps) && j in Exec(c, INITIAL, steps).rows
    ensures var s := Exec(c, INITIAL, steps);
            || CanEnd(c, s, j)
            || (IsStranded(c, s, j) && (Orphaned(s, j) || DeadLettered(s, j)
              || (c.maxDeliveryCount < 0 && PendingPointer(s, j))))
  {
    var s := Exec(c, INITIAL, steps);
    RunKeepsInv(c, INITIAL, steps);
    if IsTerminalRow(s, j) {
      EndsNow(c, s, j);
    } else {
      CanEndIffAlive(c, s, j);
      if !Alive(c, s, j) && !Orphaned(s, j) {
        var e :| 0 <= e < |s.stream| && s.stream[e].jobId == j;
        FollowSuccessors(c, s, e);
      }
    }
  }
}
