/**
 Referential integrity of the stores, the attempt bound, and what every step
 leaves alone: the facts every later argument starts from.
 */
module Integrity {
  import opened Wrappers
  import opened Jobs
  import opened Messages
  import opened Protocol

  /** The retry budget as the code applies it: an attempt at or past the maximum is the last. */
  function LastAttempt(c: Config): int {
    if c.maxAttempts < 1 then 1 else c.maxAttempts
  }

  /** A pointer names an existing row of its own job type. */
  predicate Resolves(rows: map<JobId, Job>, m: JobMessage) {
    m.jobId in rows && rows[m.jobId].jobType == m.jobType
  }

  /** The columns no transition touches. */
  predicate SameIdentity(a: Job, b: Job) {
    a.id == b.id && a.jobType == b.jobType && a.payload == b.payload
  }

  /** No pointer of `j` was ever published. */
  predicate Unpublished(s: State, j: JobId) {
    forall e :: 0 <= e < |s.stream| ==> s.stream[e].jobId != j
  }

  predicate PointerOk(c: Config, rows: map<JobId, Job>, m: JobMessage) {
    Resolves(rows, m) && 1 <= m.attempt <= LastAttempt(c)
  }

  predicate PcOk(c: Config, rows: map<JobId, Job>, m: JobMessage, pc: Pc) {
    && (pc.AtRequeue? || pc.AtRepublish? ==> m.attempt < c.maxAttempts)
    && (pc.AtStart? || pc.Executing? || pc.AtCommit? ==> m.jobId in rows && SameIdentity(rows[m.jobId], pc.job))
  }

  predicate TaskOk(c: Config, s: State, k: Task) {
    && k.entry < s.cursor <= |s.stream|
    && s.stream[k.entry] == k.msg
    && PcOk(c, s.rows, k.msg, k.pc)
  }

  ghost predicate Intact(c: Config, s: State) {
    && s.cursor <= |s.stream|
    && (forall e :: e in s.pel ==> e < s.cursor)
    && s.submitting.Keys <= s.rows.Keys
    && (forall j :: j in s.rows ==> s.rows[j].id == j)
    && (forall e :: 0 <= e < |s.stream| ==> PointerOk(c, s.rows, s.stream[e]))
    && (forall i :: 0 <= i < |s.dlq| ==> Resolves(s.rows, s.dlq[i].msg))
    && (forall t :: 0 <= t < |s.tasks| ==> TaskOk(c, s, s.tasks[t]))
  }

  /** What no step ever does: drop or retype a row, drop a pointer, move the cursor back, or rename a task. */
  ghost predicate Grows(s: State, s': State) {
    && (forall j :: j in s.rows ==> j in s'.rows && SameIdentity(s.rows[j], s'.rows[j]))
    && s.stream <= s'.stream
    && s.cursor <= s'.cursor
    && s.dlq <= s'.dlq
    && |s.tasks| <= |s'.tasks|
    && (forall t :: 0 <= t < |s.tasks| ==> s'.tasks[t].(pc := Done) == s.tasks[t].(pc := Done))
  }

  predicate MoveOk(c: Config, s: State, d: Change) {
    match d.move
    case Stay => true
    case Goto(t, pc) =>
      && t < |s.tasks|
      && (PcOk(c, s.rows, s.tasks[t].msg, pc)
          || (pc.AtStart? && d.write == Some(pc.job) && pc.job.id == s.tasks[t].msg.jobId))
    case Spawn(_, e, pc) =>
      && e < d.cursor <= |s.stream|
      && (pc.AtGuard? || pc.AtClaimed? || pc.AtBury?)
  }

  /** The local conditions on one change under which integrity survives it. */
  ghost predicate ChangeOk(c: Config, s: State, d: Change) {
    && s.cursor <= d.cursor <= |s.stream|
    && (forall e :: e in d.pel ==> e < d.cursor)
    && (forall j :: j in d.submitting ==> j in s.rows || (d.write.Some? && d.write.value.id == j))
    && (d.write.Some? && d.write.value.id in s.rows ==> SameIdentity(s.rows[d.write.value.id], d.write.value))
    && (d.publish.Some? ==> PointerOk(c, s.rows, d.publish.value))
    && (d.bury.Some? ==> Resolves(s.rows, d.bury.value.msg))
    && MoveOk(c, s, d)
  }

  /** Steps of one task; the others are steps of a submission or of a consumer's loop. */
  predicate OfTask(step: Step) {
    !step.Submit? && !step.Publish? && !step.Abandon? && !step.Read? && !step.ClaimEntry? && !step.Reclaim?
  }

  /** A task's step moves that task only; a loop's step moves none, at most it spawns one. */
  lemma MovesOwnTask(c: Config, s: State, step: Step)
    requires Enabled(c, s, step)
    ensures OfTask(step) ==> ChangeOf(c, s, step).move.Goto? && ChangeOf(c, s, step).move.task == step.task < |s.tasks|
    ensures !OfTask(step) ==> !ChangeOf(c, s, step).move.Goto?
  {
  }

  lemma LoopChangeOk(c: Config, s: State, step: Step)
    requires Intact(c, s) && Enabled(c, s, step) && !OfTask(step)
    ensures ChangeOk(c, s, ChangeOf(c, s, step))
  {
  }

  lemma TaskChangeOk(c: Config, s: State, step: Step)
    requires Intact(c, s) && Enabled(c, s, step) && OfTask(step)
    ensures ChangeOk(c, s, ChangeOf(c, s, step))
  {
    assert TaskOk(c, s, s.tasks[step.task]);
    assert PointerOk(c, s.rows, s.tasks[step.task].msg);
    TaskMoveOk(c, s, step);
    TaskStoresOk(c, s, step);
  }

  /** The store effects of a task's step, given what integrity says of that task alone. */
  lemma TaskStoresOk(c: Config, s: State, step: Step)
    requires Enabled(c, s, step) && OfTask(step) && TaskOk(c, s, s.tasks[step.task])
    requires PointerOk(c, s.rows, s.tasks[step.task].msg)
             && s.rows[s.tasks[step.task].msg.jobId].id == s.tasks[step.task].msg.jobId
    ensures var d := ChangeOf(c, s, step);
            && d.cursor == s.cursor && d.submitting == s.submitting && d.pel.Keys <= s.pel.Keys
            && (d.write.Some? && d.write.value.id in s.rows ==> SameIdentity(s.rows[d.write.value.id], d.write.value))
            && (d.publish.Some? ==> PointerOk(c, s.rows, d.publish.value))
            && (d.bury.Some? ==> Resolves(s.rows, d.bury.value.msg))
  {
  }

  /** The move of a task's step, given what integrity says of that task alone. */
  lemma TaskMoveOk(c: Config, s: State, step: Step)
    requires Enabled(c, s, step) && OfTask(step) && TaskOk(c, s, s.tasks[step.task])
    requires PointerOk(c, s.rows, s.tasks[step.task].msg)
             && s.rows[s.tasks[step.task].msg.jobId].id == s.tasks[step.task].msg.jobId
    ensures MoveOk(c, s, ChangeOf(c, s, step))
  {
  }

  lemma EveryChangeOk(c: Config, s: State, step: Step)
    requires Intact(c, s) && Enabled(c, s, step)
    ensures ChangeOk(c, s, ChangeOf(c, s, step))
  {
    if OfTask(step) { TaskChangeOk(c, s, step); } else { LoopChangeOk(c, s, step); }
  }

  lemma ChangeGrows(c: Config, s: State, d: Change)
    requires Intact(c, s) && ChangeOk(c, s, d)
    ensures Grows(s, Perform(s, d))
  {
  }

  lemma ChangeKeepsTasks(c: Config, s: State, d: Change)
    requires Intact(c, s) && ChangeOk(c, s, d)
    ensures forall t :: 0 <= t < |Perform(s, d).tasks| ==> TaskOk(c, Perform(s, d), Perform(s, d).tasks[t])
  {
    var s' := Perform(s, d);
    ChangeGrows(c, s, d);
    forall t | 0 <= t < |s'.tasks| ensures TaskOk(c, s', s'.tasks[t]) {
      if t < |s.tasks| { assert TaskOk(c, s, s.tasks[t]); }
    }
  }

  lemma ChangeKeepsIntegrity(c: Config, s: State, d: Change)
    requires Intact(c, s) && ChangeOk(c, s, d)
    ensures Intact(c, Perform(s, d))
  {
    ChangeKeepsTasks(c, s, d);
  }

  lemma StepKeepsIntegrity(c: Config, s: State, step: Step)
    requires Intact(c, s) && Enabled(c, s, step)
    ensures Intact(c, Apply(c, s, step))
    ensures Grows(s, Apply(c, s, step))
  {
    EveryChangeOk(c, s, step);
    ChangeKeepsIntegrity(c, s, ChangeOf(c, s, step));
    ChangeGrows(c, s, ChangeOf(c, s, step));
  }
}
